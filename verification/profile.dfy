/** The profile page as one render: both platform cards are derived in the
    same component body before any markup, so an error in one derivation
    leaves nothing on the page. */
module Profile {
  import opened Wrappers
  import Lichess
  import ChessCom

  /** Everything the two cards and the achievement tiles display. */
  datatype Page = Page(
    lichessRows: seq<Lichess.Row>,
    lichessBadge: Option<int>,
    achievements: seq<Lichess.Achievement>,
    chessComRows: seq<ChessCom.Row>,
    chessComBadge: Option<int>)

  /** The page renders unless the Lichess document lacks `perfs`; then the
      Lichess rows throw and the Chess.com card is lost with them. */
  function Render(lichess: Option<Lichess.User>, chessCom: Option<ChessCom.Stats>): (r: Result<Page, Lichess.RenderError>)
    ensures r.Failure? <==> lichess.Some? && lichess.value.perfs.None?
    ensures r.Success? ==>
      && Lichess.Rows(lichess) == Success(r.value.lichessRows)
      && Lichess.GamesBadge(lichess) == Success(r.value.lichessBadge)
      && Lichess.Achievements(lichess) == Success(r.value.achievements)
      && r.value.chessComRows == ChessCom.Rows(chessCom)
      && r.value.chessComBadge == ChessCom.GamesBadge(chessCom)
  {
    match Lichess.Rows(lichess)
    case Failure(e) => Failure(e)
    case Success(rows) =>
      var badge := Lichess.GamesBadge(lichess);
      var tiles := Lichess.Achievements(lichess);
      if badge.Failure? || tiles.Failure? then
        Failure(Lichess.PerfsUndefined)
      else
        Success(Page(rows, badge.value, tiles.value, ChessCom.Rows(chessCom), ChessCom.GamesBadge(chessCom)))
  }

  /** Chess.com data, however complete, is not shown when the Lichess
      document lacks `perfs`; with it, the Chess.com card is independent of
      the Lichess document. */
  lemma ChessComCardNeedsLichessPerfs(user: Lichess.User, stats: ChessCom.Stats, other: Option<Lichess.User>)
    requires other.None? || other.value.perfs.Some?
    ensures user.perfs.None? ==> Render(Some(user), Some(stats)).Failure?
    ensures Render(other, Some(stats)).Success?
    ensures Render(other, Some(stats)).value.chessComRows == ChessCom.Rows(Some(stats))
    ensures Render(other, Some(stats)).value.chessComBadge.Some?
  {
  }
}
