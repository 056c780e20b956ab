/** The Chess.com card: candidate rows built from a decoded
    `/pub/player/{name}/stats` response, the rows kept after dropping those
    without a rating, the "games played" badge and the per-row win rate. */
module ChessCom {
  import opened Wrappers
  import opened Modes
  import Progress

  /** An object of the form `{ rating }`. */
  datatype RatingRef = RatingRef(rating: Option<int>)

  datatype Record = Record(win: Option<int>, loss: Option<int>, draw: Option<int>)

  /** One `chess_*` entry of the stats document. */
  datatype TimeControl = TimeControl(last: Option<RatingRef>, record: Option<Record>, best: Option<RatingRef>)

  datatype Tactics = Tactics(highest: Option<RatingRef>)

  /** The subset of the stats document the card reads. */
  datatype Stats = Stats(
    bullet: Option<TimeControl>,
    blitz: Option<TimeControl>,
    rapid: Option<TimeControl>,
    daily: Option<TimeControl>,
    tactics: Option<Tactics>)

  /** A candidate row. `value` is null when no rating is known; `win` and
      `loss` are null only on the Puzzle Rush row. */
  datatype Row = Row(mode: Mode, value: Option<int>, games: int, win: Option<int>, loss: Option<int>, best: Option<int>)

  /** `ref?.rating ?? null` */
  function RatingOf(ref: Option<RatingRef>): Option<int> {
    if ref.Some? then ref.value.rating else None
  }

  /** The record counts of an entry, each `?? 0`. */
  function Wins(tc: Option<TimeControl>): int {
    if tc.Some? && tc.value.record.Some? then tc.value.record.value.win.GetOr(0) else 0
  }

  function Losses(tc: Option<TimeControl>): int {
    if tc.Some? && tc.value.record.Some? then tc.value.record.value.loss.GetOr(0) else 0
  }

  function Draws(tc: Option<TimeControl>): int {
    if tc.Some? && tc.value.record.Some? then tc.value.record.value.draw.GetOr(0) else 0
  }

  function LastRating(tc: Option<TimeControl>): Option<int> {
    if tc.Some? then RatingOf(tc.value.last) else None
  }

  function BestRating(tc: Option<TimeControl>): Option<int> {
    if tc.Some? then RatingOf(tc.value.best) else None
  }

  function HighestTactics(t: Option<Tactics>): Option<int> {
    if t.Some? then RatingOf(t.value.highest) else None
  }

  /** The row of a time control: games is the sum of the three record
      counts, with win and loss always present. */
  function TimeControlRow(m: Mode, tc: Option<TimeControl>): (row: Row)
    ensures row.mode == m && row.value == LastRating(tc) && row.best == BestRating(tc)
    ensures row.win == Some(Wins(tc)) && row.loss == Some(Losses(tc))
    ensures row.games == row.win.value + row.loss.value + Draws(tc)
  {
    var w := Wins(tc);
    var l := Losses(tc);
    var d := Draws(tc);
    Row(m, LastRating(tc), w + l + d, Some(w), Some(l), BestRating(tc))
  }

  /** JavaScript truthiness of a number that may be undefined or null. */
  predicate Truthy(n: Option<int>) {
    n.Some? && n.value != 0
  }

  /** The Puzzle Rush row: the highest rush score is both value and best,
      there is no win/loss record, and it counts as one game when truthy. */
  function PuzzleRushRow(t: Option<Tactics>): (row: Row)
    ensures row.mode == PuzzleRush && row.value == row.best == HighestTactics(t)
    ensures row.win.None? && row.loss.None?
    ensures row.games == 1 <==> Truthy(HighestTactics(t))
    ensures row.games == 0 <==> !Truthy(HighestTactics(t))
  {
    var h := HighestTactics(t);
    Row(PuzzleRush, h, if h.Some? && h.value != 0 then 1 else 0, None, None, h)
  }

  /** The `chess_*` entry a time-control row of the card reads. */
  function EntryFor(s: Stats, m: Mode): Option<TimeControl>
    requires m in ChessComModes[..4]
  {
    match m
    case Bullet => s.bullet
    case Blitz => s.blitz
    case Rapid => s.rapid
    case Daily => s.daily
  }

  /** The five candidate rows, before filtering: one per time control, each
      read from its own entry, then the Puzzle Rush row. */
  function Candidates(s: Stats): (rows: seq<Row>)
    ensures |rows| == |ChessComModes|
    ensures forall i :: 0 <= i < |rows| ==> rows[i].mode == ChessComModes[i]
    ensures forall i :: 0 <= i < 4 ==>
      rows[i] == TimeControlRow(ChessComModes[i], EntryFor(s, ChessComModes[i]))
    ensures rows[4] == PuzzleRushRow(s.tactics)
  {
    [ TimeControlRow(Bullet, s.bullet),
      TimeControlRow(Blitz, s.blitz),
      TimeControlRow(Rapid, s.rapid),
      TimeControlRow(Daily, s.daily),
      PuzzleRushRow(s.tactics) ]
  }

  /** `rows.filter((r) => r.value !== null)` */
  function KeepRated(rows: seq<Row>): (kept: seq<Row>)
    ensures |kept| <= |rows|
    ensures forall r :: r in kept <==> r in rows && r.value.Some?
    ensures IsSubsequence(kept, rows)
    ensures forall r {:trigger multiset(kept)[r]} :: multiset(kept)[r] == if r.value.Some? then multiset(rows)[r] else 0
  {
    if |rows| == 0 then []
    else
      assert rows == [rows[0]] + rows[1..];
      if rows[0].value.Some? then [rows[0]] + KeepRated(rows[1..])
      else KeepRated(rows[1..])
  }

  /** The rows the card shows: none without data. */
  function Rows(data: Option<Stats>): (rows: seq<Row>)
    ensures data.None? ==> rows == []
    ensures forall r :: r in rows ==> r.value.Some?
    ensures data.Some? ==> IsSubsequence(rows, Candidates(data.value))
    ensures data.Some? ==> forall r :: r in Candidates(data.value) && r.value.Some? ==> r in rows
  {
    match data
    case None => []
    case Some(s) => KeepRated(Candidates(s))
  }

  function ModesOf(rows: seq<Row>): (ms: seq<Mode>)
    ensures |ms| == |rows|
    ensures forall i :: 0 <= i < |rows| ==> ms[i] == rows[i].mode
  {
    if |rows| == 0 then [] else [rows[0].mode] + ModesOf(rows[1..])
  }

  lemma {:induction false} SubsequenceModes(xs: seq<Row>, ys: seq<Row>)
    requires IsSubsequence(xs, ys)
    ensures IsSubsequence(ModesOf(xs), ModesOf(ys))
    decreases |ys|
  {
    if |xs| > 0 {
      assert ModesOf(xs)[1..] == ModesOf(xs[1..]);
      assert ModesOf(ys)[1..] == ModesOf(ys[1..]);
      if xs[0] == ys[0] && IsSubsequence(xs[1..], ys[1..]) {
        SubsequenceModes(xs[1..], ys[1..]);
      } else {
        SubsequenceModes(xs, ys[1..]);
      }
    }
  }

  /** The kept rows follow Bullet, Blitz, Rapid, Daily, Puzzle Rush in that
      order with some dropped, so there are at most five. */
  lemma RowsOrdered(data: Option<Stats>)
    ensures IsSubsequence(ModesOf(Rows(data)), ChessComModes)
    ensures |Rows(data)| <= 5
  {
    if data.Some? {
      var c := Candidates(data.value);
      SubsequenceModes(Rows(data), c);
      assert ModesOf(c) == ChessComModes;
      SubsequenceNoLonger(Rows(data), c);
    }
  }

  /** A missing `chess_daily` entry leaves no Daily row; one with a last
      rating yields one. */
  lemma DailyRowIffRated(s: Stats)
    ensures (exists r :: r in Rows(Some(s)) && r.mode == Daily) <==> LastRating(s.daily).Some?
    ensures s.daily.None? ==> forall r :: r in Rows(Some(s)) ==> r.mode != Daily
  {
    var c := Candidates(s);
    assert c[3].mode == Daily;
    if LastRating(s.daily).Some? {
      assert c[3] in c;
      assert c[3] in Rows(Some(s));
    }
    forall r | r in Rows(Some(s)) && r.mode == Daily
      ensures LastRating(s.daily).Some?
    {
      assert r in c;
      var i :| 0 <= i < |c| && c[i] == r;
      assert i == 3;
    }
  }

  /** A Puzzle Rush score of 0 is not null, so its row is kept, with 0 games. */
  lemma ZeroRushKept(s: Stats)
    requires HighestTactics(s.tactics) == Some(0)
    ensures exists r :: r in Rows(Some(s)) && r.mode == PuzzleRush && r.value == Some(0) && r.games == 0
  {
    var c := Candidates(s);
    assert c[4] in c;
    assert c[4] in Rows(Some(s));
  }

  /** The total number of games over rows; never negative when no row has a
      negative count. */
  function SumGames(rows: seq<Row>): (total: int)
    ensures (forall i :: 0 <= i < |rows| ==> rows[i].games >= 0) ==> total >= 0
  {
    if |rows| == 0 then 0 else rows[0].games + SumGames(rows[1..])
  }

  /** `rows.reduce((s, r) => s + r.games, acc)`: adds the games from the
      left, starting at `acc`, and so adds the rows' total to `acc`. */
  function ReduceGames(rows: seq<Row>, acc: int): (r: int)
    ensures r == acc + SumGames(rows)
  {
    if |rows| == 0 then acc else ReduceGames(rows[1..], acc + rows[0].games)
  }

  /** Sum of games over the rows that carry a rating, skipping the rest. */
  function RatedGames(rows: seq<Row>): int {
    if |rows| == 0 then 0
    else (if rows[0].value.Some? then rows[0].games else 0) + RatedGames(rows[1..])
  }

  lemma {:induction false} KeepRatedGames(rows: seq<Row>)
    ensures SumGames(KeepRated(rows)) == RatedGames(rows)
  {
    if |rows| > 0 {
      KeepRatedGames(rows[1..]);
      if rows[0].value.Some? {
        assert ([rows[0]] + KeepRated(rows[1..]))[1..] == KeepRated(rows[1..]);
      }
    }
  }

  /** The "N games played" badge, shown only with data. */
  function GamesBadge(data: Option<Stats>): (b: Option<int>)
    ensures b.Some? <==> data.Some?
  {
    match data
    case None => None
    case Some(_) => Some(ReduceGames(Rows(data), 0))
  }

  /** The badge counts the games of kept rows only: a candidate without a
      rating contributes nothing, whatever its record says. */
  lemma BadgeCountsKeptRows(s: Stats)
    ensures GamesBadge(Some(s)) == Some(RatedGames(Candidates(s)))
  {
    KeptReduce(Candidates(s));
  }

  /** Reducing the kept rows gives the rated games of all rows. */
  lemma KeptReduce(rows: seq<Row>)
    ensures ReduceGames(KeepRated(rows), 0) == RatedGames(rows)
  {
    KeepRatedGames(rows);
  }

  /** `r.win !== null && r.games > 0 ? Math.round((r.win / r.games) * 100) : null` */
  function WinRate(row: Row): (rate: Option<int>)
    ensures rate.Some? <==> row.win.Some? && row.games > 0
    ensures rate.Some? ==> rate.value == (200 * row.win.value + row.games) / (2 * row.games)
  {
    if row.win.Some? && row.games > 0 then Some(Progress.RoundedPercent(row.win.value, row.games))
    else None
  }

  /** Every record count the document carries is non-negative. */
  predicate NonNegativeRecords(s: Stats) {
    && Wins(s.bullet) >= 0 && Losses(s.bullet) >= 0 && Draws(s.bullet) >= 0
    && Wins(s.blitz) >= 0 && Losses(s.blitz) >= 0 && Draws(s.blitz) >= 0
    && Wins(s.rapid) >= 0 && Losses(s.rapid) >= 0 && Draws(s.rapid) >= 0
    && Wins(s.daily) >= 0 && Losses(s.daily) >= 0 && Draws(s.daily) >= 0
  }

  /** With non-negative records every shown win rate lies in [0, 100]; the
      Puzzle Rush row never has one. */
  lemma WinRateBounded(s: Stats)
    requires NonNegativeRecords(s)
    ensures forall r :: r in Rows(Some(s)) && WinRate(r).Some? ==> 0 <= WinRate(r).value <= 100
    ensures forall r :: r in Rows(Some(s)) && r.mode == PuzzleRush ==> WinRate(r).None?
  {
    var c := Candidates(s);
    forall r | r in Rows(Some(s)) && WinRate(r).Some?
      ensures 0 <= WinRate(r).value <= 100
    {
      assert r in c;
      assert r.win.value <= r.games;
    }
  }

  /** `r.best && r.best !== r.value`: the best rating is shown when it is
      truthy and differs from the current one. */
  predicate ShowsBest(row: Row) {
    Truthy(row.best) && row.best != row.value
  }

  /** "Best" appears on a time-control row exactly when the entry's
      `best.rating` is non-zero and differs from its `last.rating`, and
      never on the Puzzle Rush row. */
  lemma BestShownIff(s: Stats, i: nat)
    requires i < |ChessComModes|
    ensures ShowsBest(Candidates(s)[i]) <==>
      && i < 4
      && Truthy(BestRating(EntryFor(s, ChessComModes[i])))
      && BestRating(EntryFor(s, ChessComModes[i])) != LastRating(EntryFor(s, ChessComModes[i]))
  {
    if i == 4 {
      RushNeverShowsBest(s.tactics);
    }
  }

  /** The Puzzle Rush row never shows a separate best. */
  lemma RushNeverShowsBest(t: Option<Tactics>)
    ensures !ShowsBest(PuzzleRushRow(t))
  {
  }

  /** The kept rows carry different labels, so `key={r.mode}` is unique. */
  lemma RowKeysDistinct(data: Option<Stats>)
    ensures forall i, j :: 0 <= i < j < |Rows(data)| ==>
      Label(Rows(data)[i].mode) != Label(Rows(data)[j].mode)
  {
    var rows := Rows(data);
    RowsOrdered(data);
    assert Distinct(ChessComModes);
    SubsequenceDistinct(ModesOf(rows), ChessComModes);
    forall i, j | 0 <= i < j < |rows|
      ensures Label(rows[i].mode) != Label(rows[j].mode)
    {
      assert ModesOf(rows)[i] != ModesOf(rows)[j];
      if Label(rows[i].mode) == Label(rows[j].mode) {
        LabelInjective(rows[i].mode, rows[j].mode);
      }
    }
  }
}
