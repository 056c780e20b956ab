# Chess profile: rating display derivations

A Dafny model of the pure display logic of the chess profile page in
`src/ChessProfile.jsx`. The page pulls a Lichess user document and a
Chess.com stats document, turns each into rating rows, and decorates every
row with a skill tier, a progress-bar width and (on Chess.com) a win rate.
It also shows a "games played" badge per platform and six achievement
tiles: three Lichess ratings read from `perfs`, and the win count, game
count and win rate read from the Lichess totals.

The model takes the already-decoded JSON documents as immutable datatypes
whose fields are `Option` values (`None` for JavaScript `undefined`, and for
`null` where `?? null` makes the two the same) and states the derivations as
pure functions:

- `Tiers` — the threshold chain 2000 / 1600 / 1200 that names a tier, the
  bands each tier covers on the cards, and the bands the legend prints.
- `Progress` — the bar width `min(((v - 800) / 2000) * 100, 100)` over
  `real`, and `Math.round` as `floor(x + 1/2)`.
- `Lichess` — five rows in fixed order, the badge, the totals with their
  zero defaults, and the achievement tiles.
- `Profile` — the page as one render of both cards.
- `ChessCom` — five candidate rows, the filter that drops rows without a
  rating, the badge sum over the kept rows, the per-row win rate and the
  "Best" marker.

Where the code differs from what one might expect, the model follows the code:

- The bar width is capped at 100 but never floored at 0, so ratings under
  800 give a negative width.
- A Lichess row whose rating is undefined is still shown. Comparisons with
  `undefined` are false, so its tier is Beginner, and its width is NaN
  (modelled as `None`).
- `lichess.perfs` is read without optional chaining. A Lichess document
  without `perfs` therefore throws inside the page component before any
  markup is produced, and the page is mounted without an error boundary.
  The whole page fails to render, the Chess.com card included. `Rows`,
  `GamesBadge` and `Achievements` return `Failure(PerfsUndefined)` for such
  a document, and so does `Profile.Render` for the page.
- The legend lists a Master band (2200+) and caps Expert at 2200. The
  classifier returns Expert for every rating from 2000 up and never returns
  Master.
- A Puzzle Rush score of 0 is not null, so its row is kept. It counts as 0
  games because 0 is falsy.

## Model

| member | source | states |
|---|---|---|
| Tiers.Classify | src/ChessProfile.jsx:1102-1109 | the rating lies in the card band of the tier returned, and the tier is never Master |
| Tiers.ClassifyIff | src/ChessProfile.jsx:1407-1414 | a rating gets a tier exactly when it lies in that tier's band: Expert at 2000 and up, Advanced at 1600-1999, Intermediate at 1200-1599, Beginner below 1200 |
| Tiers.CardBandsDisjoint | src/ChessProfile.jsx:1102-1109 | no rating lies in two card bands, so the tier is unique |
| Tiers.ClassifyBoundaries | src/ChessProfile.jsx:1407-1414 | 2000 is Expert and 1999 Advanced; 1600 is Advanced and 1599 Intermediate; 1200 is Intermediate and 1199 Beginner |
| Tiers.ClassifyMonotone | src/ChessProfile.jsx:1102-1109 | a higher rating never gets a lower tier |
| Tiers.ClassifyValue | src/ChessProfile.jsx:1102-1109 | a row with an undefined rating is Beginner; a defined rating gets its band's tier |
| Tiers.LegendAgreesBelowMaster | src/ChessProfile.jsx:1580-1585 | below 2200 the legend band matches the card's tier; from 2200 the legend says Master while the card says Expert |
| Progress.Percent | src/ChessProfile.jsx:1098-1101 | the width never exceeds 100, equals (rating - 800) / 20 up to 2800, and is exactly 100 from 2800 on |
| Progress.PercentAnchors | src/ChessProfile.jsx:1403-1406 | 800 gives 0, 1800 gives 50, 2800 and 3500 give 100, and 200 gives -30 |
| Progress.PercentNegativeBelowLow | src/ChessProfile.jsx:1403-1406 | every rating below 800 gives a negative width |
| Progress.PercentMonotone | src/ChessProfile.jsx:1098-1101 | the width never shrinks as the rating grows |
| Progress.BarWidth | src/ChessProfile.jsx:1098-1101 | an undefined rating gives no number (NaN); a defined one gives exactly the percentage of its rating, which is at most 100 |
| Progress.Round | src/ChessProfile.jsx:1415-1418 | the rounded value is the integer n with n <= x + 1/2 < n + 1 |
| Progress.RoundShareInteger | src/ChessProfile.jsx:1415-1418 | over exact rationals, for a positive total, rounding the share times 100 half up gives the integer quotient (200 * part + total) / (2 * total) |
| Progress.RoundShareBounds | src/ChessProfile.jsx:553-556 | a share between 0 and a positive total rounds to a percentage between 0 and 100 |
| Progress.RoundedPercent | src/ChessProfile.jsx:555 | `Math.round((part / whole) * 100)`, computed over exact rationals, is the integer quotient (200 * part + whole) / (2 * whole) for a positive whole, and lies in [0, 100] when the part lies between 0 and the whole |
| Lichess.Rows | src/ChessProfile.jsx:421-454 | no data gives no rows; data without perfs throws; otherwise exactly five rows in the order Bullet, Blitz, Rapid, Classical, Puzzle, each copying its perf's rating, games and provisional flag, with none dropped |
| Lichess.UnratedRowKept | src/ChessProfile.jsx:1097-1109 | a mode whose perf entry or rating is missing still has its row, rated Beginner with no bar width |
| Lichess.TotalsOf | src/ChessProfile.jsx:514-517 | each total is the count field when present, and 0 when the document, its count object or the field is missing |
| Lichess.GamesBadge | src/ChessProfile.jsx:1038-1049 | no badge without data; a document without perfs has already thrown, so there is no badge; otherwise the badge shows the total game count |
| Lichess.WinRateCell | src/ChessProfile.jsx:553-556 | the win-rate tile shows a percentage exactly when there is data and the total is non-zero, otherwise a dash; for a positive total the percentage, over exact rationals, is (200 * wins + total) / (2 * total) |
| Lichess.WinRateBounded | src/ChessProfile.jsx:553-556 | when wins lie between 0 and the total, the win-rate tile is between 0 and 100 |
| Lichess.Achievements | src/ChessProfile.jsx:519-558 | without data all six tiles show a dash; data without perfs throws; otherwise the tiles show the rapid, puzzle and blitz ratings, the win and game totals, and the win-rate cell, in that order |
| Lichess.AchievementsMatchCard | src/ChessProfile.jsx:533-557 | with data and perfs, the Total Games tile shows the header badge's number, the Total Wins tile the win count, and with wins between 0 and a positive total the Win Rate tile is a percentage in [0, 100] |
| ChessCom.TimeControlRow | src/ChessProfile.jsx:459-469 | a time-control row takes its value and best from the entry, and win and loss are always present with games = win + loss + draw, each missing count taken as 0 |
| ChessCom.PuzzleRushRow | src/ChessProfile.jsx:503-510 | the Puzzle Rush row has value = best = highest rush score and no win/loss, and counts 1 game exactly when the score is truthy and 0 otherwise |
| ChessCom.Candidates | src/ChessProfile.jsx:457-510 | there are five candidate rows in the order Bullet, Blitz, Rapid, Daily, Puzzle Rush; each time-control row is built from its own chess_bullet, chess_blitz, chess_rapid or chess_daily entry, and the last row from tactics |
| ChessCom.KeepRated | src/ChessProfile.jsx:511 | the filter keeps exactly the rows with a non-null value, each as many times as it occurs, in their original order |
| ChessCom.Rows | src/ChessProfile.jsx:457-512 | no data gives no rows; every shown row has a value; shown rows are an ordered sub-list of the candidates and include every rated candidate |
| ChessCom.RowsOrdered | src/ChessProfile.jsx:457-512 | shown modes are an ordered sub-list of Bullet, Blitz, Rapid, Daily, Puzzle Rush, so there are at most five rows |
| ChessCom.DailyRowIffRated | src/ChessProfile.jsx:492-501 | a Daily row is shown exactly when chess_daily has a last rating; without chess_daily there is no Daily row |
| ChessCom.ZeroRushKept | src/ChessProfile.jsx:503-511 | a Puzzle Rush score of 0 is kept, as a row with 0 games |
| ChessCom.KeepRatedGames | src/ChessProfile.jsx:1352 | summing games over the kept rows equals summing over all rows with unrated rows counted as 0 |
| ChessCom.SumGames | src/ChessProfile.jsx:1352 | the total of the rows' games, never negative when no row has a negative count |
| ChessCom.ReduceGames | src/ChessProfile.jsx:1352 | the left-to-right `reduce` from a start value gives the start value plus the total of the rows' games |
| ChessCom.GamesBadge | src/ChessProfile.jsx:1341-1353 | the badge appears exactly when there is data |
| ChessCom.BadgeCountsKeptRows | src/ChessProfile.jsx:1352 | the badge is the games of the rated candidates only; filtered rows contribute nothing |
| ChessCom.WinRate | src/ChessProfile.jsx:1415-1418 | a row has a win rate exactly when its win is non-null and it has games; over exact rationals the rate is (200 * win + games) / (2 * games) |
| ChessCom.WinRateBounded | src/ChessProfile.jsx:1415-1418 | with non-negative record counts every shown win rate is between 0 and 100, and the Puzzle Rush row has none |
| ChessCom.BestShownIff | src/ChessProfile.jsx:1480-1489 | "Best" appears on a time-control row exactly when that entry's best rating is non-zero and differs from its last rating, and never on the Puzzle Rush row |
| ChessCom.RushNeverShowsBest | src/ChessProfile.jsx:1480 | the Puzzle Rush row never shows a separate "Best", since its best equals its value |
| ChessCom.RowKeysDistinct | src/ChessProfile.jsx:1421 | the kept rows carry pairwise different labels, so the row keys are unique |
| Modes.LabelInjective | src/ChessProfile.jsx:424-504 | different modes print different labels |
| Lichess.RowKeysDistinct | src/ChessProfile.jsx:1112 | the five Lichess rows carry pairwise different labels, so the row keys are unique |
| Profile.Render | src/ChessProfile.jsx:421-558 | the page fails exactly when the Lichess document exists without perfs; otherwise it shows the Lichess rows, badge and tiles and the Chess.com rows and badge as each derivation gives them |
| Profile.ChessComCardNeedsLichessPerfs | src/main.jsx:5-9 | a Lichess document without perfs blanks the page whatever the Chess.com data; with no Lichess data or with perfs, the Chess.com card shows its rows and badge |

## Left out

- `useChessComRatings` and `useLichessRatings` (src/ChessProfile.jsx:12-77): network fetches, five-minute polling and React state. They are I/O and timers. As written they set `error` on a failed fetch but keep the last `data`, and they never clear `error` after a later success.
- The loading placeholders, "Could not load" messages and "Synced" time: they depend on the hooks' loading and error flags, and `toLocaleTimeString` is locale formatting.
- The text of the achievement tiles' sub-lines (`of N games`, `W D L`): number-to-string formatting. The tile values are modelled as cells holding a number, an undefined number or a percentage.
- Tier colours, JSX markup, styles, `CountUp`, `QuoteCarousel`, the scroll listener, the chessboard and photo decorations, and the static content arrays. These are presentation, animation and event handling.
- `src/main.jsx`: React start-up only.
- Progress.Percent: computed over exact rationals, not IEEE-754 doubles. For the integer ratings involved the double result may differ in the last bit.
- Progress.Round: `Math.round` on doubles is modelled as floor(x + 1/2) over exact rationals.
- Progress.RoundedPercent: the page computes `(part / whole) * 100` in doubles before rounding. At an exact half-percent share this can land just below the half, so the page shows one less than the model: 23 of 40 gives 57.49999999999999 and 57%, where the model gives 58%.
- ChessCom.WinRate: inherits the double-rounding difference of Progress.RoundedPercent; a 23-win, 40-game record shows 57% on the page and 58% in the model.
- Lichess.WinRateCell: inherits the same double-rounding difference at exact half-percent shares of the win and game totals.
- A Lichess rating that is JSON `null` rather than missing would compare as 0 and give a width of -40; the model treats every absent rating as `undefined`.
