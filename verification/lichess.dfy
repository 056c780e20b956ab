/** The Lichess card: rating rows, the games badge and the achievement
    tiles derived from a decoded `/api/user/{name}` response. */
module Lichess {
  import opened Wrappers
  import opened Modes
  import Progress
  import Tiers

  /** One entry of `perfs`; any field may be undefined. */
  datatype Perf = Perf(rating: Option<int>, games: Option<int>, prov: Option<bool>)

  datatype Perfs = Perfs(
    bullet: Option<Perf>,
    blitz: Option<Perf>,
    rapid: Option<Perf>,
    classical: Option<Perf>,
    puzzle: Option<Perf>)

  datatype Count = Count(all: Option<int>, win: Option<int>, loss: Option<int>, draw: Option<int>)

  /** The subset of the user document the card reads. */
  datatype User = User(perfs: Option<Perfs>, count: Option<Count>)

  /** A rating row; value, games and provisional flag are copied without defaults. */
  datatype Row = Row(mode: Mode, value: Option<int>, games: Option<int>, prov: Option<bool>)

  /** Reading a field of an undefined `perfs` throws a TypeError while the
      card renders. */
  datatype RenderError = PerfsUndefined

  /** The `perfs` entry a mode of the Lichess card reads. */
  function PerfFor(perfs: Perfs, m: Mode): Option<Perf>
    requires m in LichessModes
  {
    match m
    case Bullet => perfs.bullet
    case Blitz => perfs.blitz
    case Rapid => perfs.rapid
    case Classical => perfs.classical
    case Puzzle => perfs.puzzle
  }

  /** `p?.rating`, `p?.games`, `p?.prov` */
  function RatingOf(p: Option<Perf>): Option<int> {
    if p.Some? then p.value.rating else None
  }

  function GamesOf(p: Option<Perf>): Option<int> {
    if p.Some? then p.value.games else None
  }

  function ProvOf(p: Option<Perf>): Option<bool> {
    if p.Some? then p.value.prov else None
  }

  function MakeRow(m: Mode, p: Option<Perf>): Row {
    Row(m, RatingOf(p), GamesOf(p), ProvOf(p))
  }

  /** The card's rows: none without data, otherwise one per mode in a fixed
      order, kept even when the mode's entry is undefined. */
  function Rows(data: Option<User>): (r: Result<seq<Row>, RenderError>)
    ensures data.None? ==> r == Success([])
    ensures data.Some? && data.value.perfs.None? ==> r == Failure(PerfsUndefined)
    ensures data.Some? && data.value.perfs.Some? ==>
      && r.Success?
      && |r.value| == |LichessModes|
      && forall i :: 0 <= i < |r.value| ==>
           && r.value[i].mode == LichessModes[i]
           && r.value[i].value == RatingOf(PerfFor(data.value.perfs.value, LichessModes[i]))
           && r.value[i].games == GamesOf(PerfFor(data.value.perfs.value, LichessModes[i]))
           && r.value[i].prov == ProvOf(PerfFor(data.value.perfs.value, LichessModes[i]))
  {
    match data
    case None => Success([])
    case Some(user) =>
      match user.perfs
      case None => Failure(PerfsUndefined)
      case Some(p) =>
        Success([
          MakeRow(Bullet, p.bullet),
          MakeRow(Blitz, p.blitz),
          MakeRow(Rapid, p.rapid),
          MakeRow(Classical, p.classical),
          MakeRow(Puzzle, p.puzzle)
        ])
  }

  /** A row whose rating is undefined, because the perf entry or its
      `rating` is missing, is still shown, as a Beginner row with a NaN bar. */
  lemma UnratedRowKept(user: User, i: nat)
    requires user.perfs.Some? && i < |LichessModes|
    requires RatingOf(PerfFor(user.perfs.value, LichessModes[i])).None?
    ensures Rows(Some(user)).Success?
    ensures |Rows(Some(user)).value| == 5
    ensures Rows(Some(user)).value[i].value.None?
    ensures Tiers.ClassifyValue(Rows(Some(user)).value[i].value) == Tiers.Beginner
    ensures Progress.BarWidth(Rows(Some(user)).value[i].value).None?
  {
  }

  /** `lichess?.count?.all ?? 0` and its siblings. */
  datatype Totals = Totals(games: int, wins: int, losses: int, draws: int)

  function TotalsOf(data: Option<User>): (t: Totals)
    ensures data.None? ==> t == Totals(0, 0, 0, 0)
    ensures data.Some? && data.value.count.None? ==> t == Totals(0, 0, 0, 0)
    ensures data.Some? && data.value.count.Some? ==>
      var c := data.value.count.value;
      && (c.all.Some? ==> t.games == c.all.value) && (c.all.None? ==> t.games == 0)
      && (c.win.Some? ==> t.wins == c.win.value) && (c.win.None? ==> t.wins == 0)
      && (c.loss.Some? ==> t.losses == c.loss.value) && (c.loss.None? ==> t.losses == 0)
      && (c.draw.Some? ==> t.draws == c.draw.value) && (c.draw.None? ==> t.draws == 0)
  {
    var count := if data.Some? then data.value.count else None;
    match count
    case None => Totals(0, 0, 0, 0)
    case Some(c) => Totals(c.all.GetOr(0), c.win.GetOr(0), c.loss.GetOr(0), c.draw.GetOr(0))
  }

  /** The "N games played" badge in the card header: absent without data,
      the total game count with data. A document without `perfs` has
      already thrown while building the rows, so no badge is drawn. */
  function GamesBadge(data: Option<User>): (b: Result<Option<int>, RenderError>)
    ensures data.None? ==> b == Success(None)
    ensures data.Some? && data.value.perfs.None? ==> b == Failure(PerfsUndefined)
    ensures data.Some? && data.value.perfs.Some? ==> b == Success(Some(TotalsOf(data).games))
  {
    match data
    case None => Success(None)
    case Some(user) =>
      if user.perfs.None? then Failure(PerfsUndefined)
      else Success(Some(if user.count.Some? then user.count.value.all.GetOr(0) else 0))
  }

  /** What an achievement tile prints: "—", `String(n)` of a possibly
      undefined number, or a rounded percentage. */
  datatype Cell = Dash | Number(n: Option<int>) | Percent(p: int)

  datatype Achievement = Achievement(title: string, value: Cell)

  const AchievementLabels: seq<string> :=
    ["Rapid Rating", "Puzzle Rating", "Total Wins", "Blitz Rating", "Total Games", "Win Rate"]

  /** The win-rate tile: a percentage only when there is data and the game
      total is non-zero (JavaScript truthiness of `totalGames`). */
  function WinRateCell(data: Option<User>): (c: Cell)
    ensures c.Percent? <==> data.Some? && TotalsOf(data).games != 0
    ensures !c.Percent? ==> c == Dash
    ensures c.Percent? && TotalsOf(data).games > 0 ==>
      c.p == (200 * TotalsOf(data).wins + TotalsOf(data).games) / (2 * TotalsOf(data).games)
  {
    var t := TotalsOf(data);
    if data.Some? && t.games != 0 then Percent(Progress.RoundedPercent(t.wins, t.games))
    else Dash
  }

  /** With a win count within the game total the win rate is in [0, 100]. */
  lemma WinRateBounded(data: Option<User>)
    requires 0 <= TotalsOf(data).wins <= TotalsOf(data).games
    ensures WinRateCell(data).Percent? ==> 0 <= WinRateCell(data).p <= 100
  {
  }

  /** The six achievement tiles. Without data every tile shows a dash; with
      data the rating tiles read `perfs` directly, so an undefined `perfs`
      throws. */
  function Achievements(data: Option<User>): (r: Result<seq<Achievement>, RenderError>)
    ensures data.None? ==>
      && r.Success? && |r.value| == |AchievementLabels|
      && forall i :: 0 <= i < |r.value| ==>
           r.value[i] == Achievement(AchievementLabels[i], Dash)
    ensures data.Some? && data.value.perfs.None? ==> r == Failure(PerfsUndefined)
    ensures data.Some? && data.value.perfs.Some? ==>
      var p := data.value.perfs.value;
      var t := TotalsOf(data);
      && r.Success? && |r.value| == |AchievementLabels|
      && (forall i :: 0 <= i < |r.value| ==> r.value[i].title == AchievementLabels[i])
      && r.value[0].value == Number(RatingOf(PerfFor(p, Rapid)))
      && r.value[1].value == Number(RatingOf(PerfFor(p, Puzzle)))
      && r.value[2].value == Number(Some(t.wins))
      && r.value[3].value == Number(RatingOf(PerfFor(p, Blitz)))
      && r.value[4].value == Number(Some(t.games))
      && r.value[5].value == WinRateCell(data)
  {
    var t := TotalsOf(data);
    match data
    case None =>
      Success([
        Achievement("Rapid Rating", Dash),
        Achievement("Puzzle Rating", Dash),
        Achievement("Total Wins", Dash),
        Achievement("Blitz Rating", Dash),
        Achievement("Total Games", Dash),
        Achievement("Win Rate", Dash)
      ])
    case Some(user) =>
      match user.perfs
      case None => Failure(PerfsUndefined)
      case Some(p) =>
        Success([
          Achievement("Rapid Rating", Number(RatingOf(p.rapid))),
          Achievement("Puzzle Rating", Number(RatingOf(p.puzzle))),
          Achievement("Total Wins", Number(Some(t.wins))),
          Achievement("Blitz Rating", Number(RatingOf(p.blitz))),
          Achievement("Total Games", Number(Some(t.games))),
          Achievement("Win Rate", WinRateCell(data))
        ])
  }

  /** With data and `perfs`, the tiles agree with the card: the Total Games
      tile shows the header badge's number, the Total Wins tile the win
      count, and with wins between 0 and a positive total the Win Rate tile
      is a percentage in [0, 100]. */
  lemma AchievementsMatchCard(data: Option<User>)
    requires data.Some? && data.value.perfs.Some?
    ensures Achievements(data).Success? && GamesBadge(data).Success?
    ensures GamesBadge(data).value.Some?
    ensures Achievements(data).value[4].value == Number(GamesBadge(data).value)
    ensures Achievements(data).value[2].value == Number(Some(TotalsOf(data).wins))
    ensures 0 <= TotalsOf(data).wins <= TotalsOf(data).games && TotalsOf(data).games > 0 ==>
      Achievements(data).value[5].value.Percent?
      && 0 <= Achievements(data).value[5].value.p <= 100
  {
    if 0 <= TotalsOf(data).wins <= TotalsOf(data).games && TotalsOf(data).games > 0 {
      WinRateBounded(data);
    }
  }

  /** The five rows carry five different labels, so `key={r.mode}` is unique. */
  lemma RowKeysDistinct(user: User)
    requires user.perfs.Some?
    ensures Rows(Some(user)).Success?
    ensures forall i, j :: 0 <= i < j < |Rows(Some(user)).value| ==>
      Label(Rows(Some(user)).value[i].mode) != Label(Rows(Some(user)).value[j].mode)
  {
    var rows := Rows(Some(user)).value;
    forall i, j | 0 <= i < j < |rows|
      ensures Label(rows[i].mode) != Label(rows[j].mode)
    {
      if Label(rows[i].mode) == Label(rows[j].mode) {
        LabelInjective(rows[i].mode, rows[j].mode);
      }
    }
  }
}
