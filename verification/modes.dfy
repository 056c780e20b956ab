/** The game modes that appear as rating rows on the two platform cards. */
module Modes {

  datatype Mode = Bullet | Blitz | Rapid | Classical | Daily | Puzzle | PuzzleRush

  /** The text shown at the head of a rating row. */
  function Label(m: Mode): string {
    match m
    case Bullet => "Bullet"
    case Blitz => "Blitz"
    case Rapid => "Rapid"
    case Classical => "Classical"
    case Daily => "Daily"
    case Puzzle => "Puzzle \U{1F9E9}"
    case PuzzleRush => "Puzzle Rush \U{1F9E9}"
  }

  /** Different modes print different labels, so a label used as a row key
      names one mode. */
  lemma LabelInjective(a: Mode, b: Mode)
    requires Label(a) == Label(b)
    ensures a == b
  {
  }

  /** Rows of the Lichess card, in display order. */
  const LichessModes: seq<Mode> := [Bullet, Blitz, Rapid, Classical, Puzzle]

  /** Candidate rows of the Chess.com card, in display order. */
  const ChessComModes: seq<Mode> := [Bullet, Blitz, Rapid, Daily, PuzzleRush]

  /** `xs` is `ys` with some elements dropped and the rest kept in order. */
  ghost predicate IsSubsequence<T>(xs: seq<T>, ys: seq<T>)
    decreases |ys|
  {
    if |xs| == 0 then true
    else if |ys| == 0 then false
    else (xs[0] == ys[0] && IsSubsequence(xs[1..], ys[1..])) || IsSubsequence(xs, ys[1..])
  }

  lemma {:induction false} SubsequenceNoLonger<T>(xs: seq<T>, ys: seq<T>)
    requires IsSubsequence(xs, ys)
    ensures |xs| <= |ys|
    decreases |ys|
  {
    if |xs| > 0 {
      if xs[0] == ys[0] && IsSubsequence(xs[1..], ys[1..]) {
        SubsequenceNoLonger(xs[1..], ys[1..]);
      } else {
        SubsequenceNoLonger(xs, ys[1..]);
      }
    }
  }

  /** No element occurs twice. */
  ghost predicate Distinct<T>(s: seq<T>) {
    forall i, j :: 0 <= i < j < |s| ==> s[i] != s[j]
  }

  /** Dropping elements from a list without repeats leaves none. */
  lemma {:induction false} SubsequenceDistinct<T>(xs: seq<T>, ys: seq<T>)
    requires IsSubsequence(xs, ys) && Distinct(ys)
    ensures Distinct(xs)
    decreases |ys|
  {
    if |xs| > 0 {
      if xs[0] == ys[0] && IsSubsequence(xs[1..], ys[1..]) {
        SubsequenceDistinct(xs[1..], ys[1..]);
        forall j | 0 < j < |xs|
          ensures xs[0] != xs[j]
        {
          SubsequenceContains(xs[1..], ys[1..], j - 1);
        }
      } else {
        SubsequenceDistinct(xs, ys[1..]);
      }
    }
  }

  /** Every element of a subsequence occurs in the original list. */
  lemma {:induction false} SubsequenceContains<T>(xs: seq<T>, ys: seq<T>, k: nat)
    requires IsSubsequence(xs, ys) && k < |xs|
    ensures xs[k] in ys
    decreases |ys|
  {
    if xs[0] == ys[0] && IsSubsequence(xs[1..], ys[1..]) {
      if k > 0 {
        SubsequenceContains(xs[1..], ys[1..], k - 1);
      }
    } else {
      SubsequenceContains(xs, ys[1..], k);
    }
  }
}
