# GridMind round engine and tile model, in Dafny

GridMind is a short-round memory game. A round draws a level's worth of mahjong
tiles (`MahjongKatyo`). It shows them in order, then runs a ten-second countdown.
When five seconds are left the board is shuffled. The player must then tap the
tiles in the order they were shown. A complete sequence wins 50 points plus a
streak bonus. A wrong tap loses the round and resets the streak.

This project models two parts of the game:

- the tile and level model (`MahjongKatyo.swift`): tile kinds, the three levels and
  their grid shapes, tile equality by identifier, the image-resource name, and
  the positioned tile with its two flags;
- the round engine inside the game screen (`JweViewController.swift`): the phase
  machine (`EtaJwe`), the countdown and its single shuffle, the input lock, tap
  judging, success and failure, the running score and the cell-tag numbering.

Files:

- `wrappers.dfy`: the `Option` datatype.
- `decimal.dfy` (module `Decimal`): Swift's `String(Int)`, a parser for it and
  the round trip between them.
- `katyo.dfy` (module `Katyo`): the tile and level model. `KatyoAvekPozisyon`
  is a class, because the source's `mutating` methods update its flags in place.
- `round.dfy` (module `Round`): the pure rules of a round.
  - `Step` judges one tap. `Replay` applies a series of taps.
  - `MesajSiyes` is the success message.
  - `TotalPou` is the per-level total a reload computes. `Konseve` is the score
    store's guarded save.
- `jwe.dfy` (module `JweKontrole`): the engine as class `JweMote`. Its fields are `eta`,
  `katyoLis`, `orijinalSekans`, `seleksyonSekans`, `endeks`, `tanRestan`,
  `pwenTotal`, `kontreSesyon` (the streak), `anrejistreman` (the stored records)
  and `konteAktif` (the countdown timer is running). Its entry points are
  `Start`, `BeginCountdown`, `Tick`, `Tap` and `Teardown`; the constructor,
  `ChajePwenTotal`, `MelanjeKatyo`, `KomanseJwePhase`, `JenereSiyes` and
  `JenereEchek` model the private steps they call. `Valid()` is the object
  invariant:
  - the board is a permutation of the reveal order;
  - identifiers are distinct;
  - the selection is the first `endeks` tiles of the reveal order;
  - the countdown stays between 0 and 10;
  - each phase fixes where the countdown stands and how many shuffles happened.
    Selection is only reached after exactly one shuffle.

Timers and delayed callbacks become explicit calls:

- the reveal animation's delayed call becomes `BeginCountdown`;
- each firing of the repeating timer becomes `Tick`;
- the result dialog's completion becomes `Start`;
- `viewWillDisappear` becomes `Teardown`.

Randomness and the score manager enter as parameters:

- `Start` receives the drawn tiles. Its precondition states their count and that
  their identifiers are distinct.
- `Tick` receives the shuffle's result. It must be a permutation of the board when
  the tick shuffles.
- The bonus is the constant function field `kalkileBonus: nat -> nat`. It is
  applied to the streak as read before the increment.

Three behaviours of the code are worth noting:

- After the shuffle the phase stays `Melanje` until the countdown reaches 0, when
  it becomes `Jwe`. There is no return to a countdown phase.
- A won round saves the new cumulative `pwenTotal`, not the round's points (see
  Findings).
- The success message adds the bonus line only inside the streak branch, so only
  when the streak before the win was at least 2.

## Model

| member | source | states |
|---|---|---|
| `Katyo.RawValueRoundTrip` | GridMind/GridMind/Model/MahjongKatyo.swift:28-32 | each kind's raw value reads back as that kind, and no raw value contains the "_" separator |
| `Katyo.RawValue` | GridMind/GridMind/Model/MahjongKatyo.swift:28-32 | each kind's raw value is its case name, a lower-case word of 4 or 5 letters; `RawValueRoundTrip` shows it reads back |
| `Katyo.TipFromRawValue` | GridMind/GridMind/Model/MahjongKatyo.swift:28-32 | the failable initialiser succeeds only on a kind's raw value, and then yields that kind |
| `Katyo.KantiteTotalKatyo` | GridMind/GridMind/Model/MahjongKatyo.swift:130-132 | every level draws between 4 and 9 tiles |
| `Katyo.DeskripteOf` | GridMind/GridMind/Model/MahjongKatyo.swift:138-145 | every level's descriptor has a non-empty name and a grid of 2 or 3 columns and 2 or 3 rows, never taller than wide; `FixedShapes` gives the three descriptors |
| `Katyo.NonAfiche` | GridMind/GridMind/Model/MahjongKatyo.swift:118-120 | the display name is non-empty and no other level has it |
| `Katyo.KantiteKolon` | GridMind/GridMind/Model/MahjongKatyo.swift:122-124 | the number of columns is the descriptor's width, 2 or 3 |
| `Katyo.KantiteRanje` | GridMind/GridMind/Model/MahjongKatyo.swift:126-128 | the number of rows is at least 2 and at most the number of columns |
| `Katyo.TotalIsColumnsTimesRows` | GridMind/GridMind/Model/MahjongKatyo.swift:122-132 | for every level, the tile total equals columns times rows, and both are positive |
| `Katyo.FixedShapes` | GridMind/GridMind/Model/MahjongKatyo.swift:150-201 | easy is 2x2 = 4, medium 3x2 = 6 and hard 3x3 = 9, named Easy, Medium and Hard |
| `Katyo.NewKatyo` | GridMind/GridMind/Model/MahjongKatyo.swift:219-223 | a new tile keeps the given kind and value and carries the identifier passed in; generating it is left out |
| `Katyo.Egal` | GridMind/GridMind/Model/MahjongKatyo.swift:232-234 | two tiles are equal exactly when they would be the same value once their faces were made alike, that is by identifier alone; `EgalIgnoresFace` and `EgalIsEquivalence` state its properties |
| `Katyo.EgalIgnoresFace` | GridMind/GridMind/Model/MahjongKatyo.swift:232-234 | tiles with the same kind and value but different identifiers are unequal; tiles with the same identifier are equal whatever their faces |
| `Katyo.EgalIsEquivalence` | GridMind/GridMind/Model/MahjongKatyo.swift:232-234 | tile equality is reflexive, symmetric and transitive |
| `Decimal.IntToDecimal` | GridMind/GridMind/Model/MahjongKatyo.swift:216 | the decimal rendering is non-empty, starts with '-' exactly for negative values, holds only digits after it, and has no leading zero, as Swift's canonical `String(Int)` |
| `Decimal.DecimalRoundTrip` | GridMind/GridMind/Model/MahjongKatyo.swift:216 | parsing the decimal rendering of any integer gives that integer back |
| `Decimal.DecimalInjective` | GridMind/GridMind/Model/MahjongKatyo.swift:216 | distinct integers have distinct decimal renderings |
| `Katyo.NonImaj` | GridMind/GridMind/Model/MahjongKatyo.swift:211-217 | the image name holds the separator "_" exactly once, right after the kind's raw value; `NonImajRoundTrip` reads kind and value back |
| `Katyo.NonImajRoundTrip` | GridMind/GridMind/Model/MahjongKatyo.swift:211-217 | kind and value can be read back out of the image name "kind_value" |
| `Katyo.NonImajSameIffSameFace` | GridMind/GridMind/Model/MahjongKatyo.swift:211-217 | two tiles share an image name if and only if they share kind and value |
| `Katyo.NonImajExample` | GridMind/GridMind/Model/MahjongKatyo.swift:211-217 | a hudy 3 is named "hudy_3" and a mssiu 6 "mssiu_6" |
| `Katyo.KatyoAvekPozisyon.Chwazi` | GridMind/GridMind/Model/MahjongKatyo.swift:245-248 | reads the selection flag; its setter is `DefiniChwazi` |
| `Katyo.KatyoAvekPozisyon.Afiche` | GridMind/GridMind/Model/MahjongKatyo.swift:250-253 | reads the visibility flag; its setter is `DefiniAfiche` |
| `Katyo.KatyoAvekPozisyon.constructor` | GridMind/GridMind/Model/MahjongKatyo.swift:255-260 | a new positioned tile holds the given tile and index, unselected and hidden |
| `Katyo.KatyoAvekPozisyon.BaskileChouazi` | GridMind/GridMind/Model/MahjongKatyo.swift:262-264 | flips the selection flag only; the visibility flag is unchanged, and tile and index are constants |
| `Katyo.KatyoAvekPozisyon.BaskilaAfiche` | GridMind/GridMind/Model/MahjongKatyo.swift:266-268 | flips the visibility flag only; the selection flag is unchanged, and tile and index are constants |
| `Katyo.KatyoAvekPozisyon.DefiniChwazi` | GridMind/GridMind/Model/MahjongKatyo.swift:270-272 | sets the selection flag to the given value and leaves everything else |
| `Katyo.KatyoAvekPozisyon.DefiniAfiche` | GridMind/GridMind/Model/MahjongKatyo.swift:274-276 | sets the visibility flag to the given value and leaves everything else |
| `Katyo.KatyoAvekPozisyon.Reyinisyalize` | GridMind/GridMind/Model/MahjongKatyo.swift:278-281 | clears both flags whatever they were; tile and index are constants |
| `JweKontrole.CellTags` | GridMind/GridMind/Kontrole/JweViewController.swift:242-249 | the row-by-row tags `row * cols + col` are exactly 0 ..< cols*rows, each once and in order |
| `JweKontrole.InteraksyonAktive` | GridMind/GridMind/Kontrole/JweViewController.swift:358-371 | the grid accepts taps in the selection phase and in no other |
| `JweKontrole.InputOnlyAfterShuffle` | GridMind/GridMind/Kontrole/JweViewController.swift:358-371 | whenever the grid accepts taps, the countdown timer is stopped at 0, the board was shuffled exactly once, and a tile of the reveal order is still to be matched |
| `JweKontrole.JweMote.constructor` | GridMind/GridMind/Kontrole/JweViewController.swift:131-136 | the screen loads the level's stored total and then starts a round in the reveal phase |
| `JweKontrole.JweMote.ChajePwenTotal` | GridMind/GridMind/Kontrole/JweViewController.swift:447-451 | the running total becomes the sum of the stored points of this level |
| `JweKontrole.JweMote.Start` | GridMind/GridMind/Kontrole/JweViewController.swift:268-276 | the drawn tiles become both the reveal order and the board; the selection is empty, progress is 0 and the phase is the reveal |
| `JweKontrole.JweMote.BeginCountdown` | GridMind/GridMind/Kontrole/JweViewController.swift:292-300 | the countdown phase starts at 10 with the timer running |
| `JweKontrole.JweMote.Tick` | GridMind/GridMind/Kontrole/JweViewController.swift:300-314 | the count drops by exactly 1; only at 5 is the board replaced by the shuffle, with phase Melanje; at 0 the timer stops and selection starts; the reveal order never changes |
| `JweKontrole.JweMote.MelanjeKatyo` | GridMind/GridMind/Kontrole/JweViewController.swift:335-337 | only the board is replaced, by a permutation of itself, and the phase becomes Melanje |
| `JweKontrole.JweMote.KomanseJwePhase` | GridMind/GridMind/Kontrole/JweViewController.swift:352-353 | the phase becomes selection |
| `JweKontrole.JweMote.Teardown` | GridMind/GridMind/Kontrole/JweViewController.swift:138-141 | the timer is invalidated in any phase, and the invariant still holds |
| `JweKontrole.JweMote.Tap` | GridMind/GridMind/Kontrole/JweViewController.swift:374-400 | outside selection nothing changes; in selection the verdict moves as Step says, a match appends that tile, a last match wins with the success effects, and a mismatch loses and resets the streak |
| `JweKontrole.JweMote.JenereSiyes` | GridMind/GridMind/Kontrole/JweViewController.swift:407-427 | the round ends; bonus and streak are read before the streak grows by 1; the total grows by exactly 50 + bonus; the new total is what is saved; the dialog carries the message and the round's points |
| `JweKontrole.JweMote.JenereEchek` | GridMind/GridMind/Kontrole/JweViewController.swift:436-441 | the round ends, the streak resets to 0 and the failure dialog is requested |
| `JweKontrole.RunCountdown` | GridMind/GridMind/Kontrole/JweViewController.swift:300-314 | the repeating timer always stops, after exactly 10 ticks, in selection, with the board shuffled once and the reveal order and scores untouched, and the last dialog unchanged |
| `JweKontrole.ScenarioReloadAfterTwoWins` | GridMind/GridMind/Kontrole/JweViewController.swift:416-419 | two plain wins through the engine from an empty store leave 100 on screen, and a screen reopened on the stored records loads 150 |
| `Round.Step` | GridMind/GridMind/Kontrole/JweViewController.swift:380-398 | a pending verdict after a tap always points inside the reveal order |
| `Round.EgalInDistinctIsSame` | GridMind/GridMind/Kontrole/JweViewController.swift:383-387 | among tiles with distinct identifiers, a tile equal by identifier to a tile of the order is that very tile, so the appended tile is the expected one |
| `Round.ReplayVerdict` | GridMind/GridMind/Kontrole/JweViewController.swift:380-398 | after any series of taps the round is won iff the tapped tiles begin with the rest of the reveal order, pending iff they are a proper beginning of it, and lost otherwise |
| `Round.RoundWonIff` | GridMind/GridMind/Kontrole/JweViewController.swift:380-393 | from the start of selection, a round is won iff the first taps hit the reveal order's tiles in order |
| `Round.MesajSiyesShape` | GridMind/GridMind/Kontrole/JweViewController.swift:421-427 | the message opens with the base sentence; it says more iff the streak before the win was at least 2, and then the streak line naming streak + 1 wins follows the base sentence; it ends with the bonus line iff the streak was at least 2 and the bonus is positive |
| `Round.MesajSiyes` | GridMind/GridMind/Kontrole/JweViewController.swift:421-427 | the message always opens with the base sentence and is exactly that sentence when the streak before the win is below 2; `MesajSiyesShape` gives the rest |
| `Round.MesajExample` | GridMind/GridMind/Kontrole/JweViewController.swift:421-427 | a streak of 1 gives just the base sentence; a streak of 2 with no bonus announces 3 wins in a row |
| `Round.TotalPouAppend` | GridMind/GridMind/Kontrole/JweViewController.swift:447-451 | the reloaded total of records appended together is the sum of their totals |
| `Round.TotalPouBounds` | GridMind/GridMind/Kontrole/JweViewController.swift:447-451 | with positive records the reloaded total is non-negative, positive iff the level has a record, and 0 iff it has none |
| `Round.TotalPou` | GridMind/GridMind/Kontrole/JweViewController.swift:447-451 | records of other levels never count: a level without a record totals 0; `TotalPouAppend` and `TotalPouBounds` give the rest |
| `Round.Konseve` | GridMind/GridMind/Kontrole/JweViewController.swift:419 | the score store's save only appends, one record at most, exactly when the points are positive, and that record holds the level and the points; a store of positive records stays positive |
| `Round.KonseveTotal` | GridMind/GridMind/Kontrole/JweViewController.swift:419 | a save through the score manager's `konsève` adds the saved points to that level's reloaded total if they are positive, and nothing otherwise; other levels are unaffected |
| `Round.ReloadInflatesAfterWin` | GridMind/GridMind/Kontrole/JweViewController.swift:416-419 | as written, after a win on a positive reloaded total, the next reload shows the new total plus the old total |
| `Round.ReloadAfterTwoWins` | GridMind/GridMind/Kontrole/JweViewController.swift:447-451 | two plain wins from an empty store save 50 and 100, and a reload shows 150 |
| `Round.ReloadMatchesWithRoundPoints` | GridMind/GridMind/Kontrole/JweViewController.swift:416-419 | saving each round's own points keeps the reloaded total equal to the running total |

## Left out

- UIKit layout, animation and styling are not modelled: `DesignSystem.swift`, `KatyoCellView.swift`, the floating-point cell sizes in `konfigireGrid`, and the colours of `mizeAjouAfichajTan`. They are presentation and floating point.
- The colour renderers, `koulè` and the level theme colours of `MahjongKatyo.swift` are `UIColor` values with no behaviour to state.
- `aficheSekansKatyo` only animates the reveal. Its delayed call to `kòmanseKontè` is the call to `BeginCountdown`.
- `Timer`, `DispatchQueue.asyncAfter` and the dialogs are not modelled. They become explicit calls, with no real time or concurrency.
- The identifier generation from the clock and a random number is not modelled. Identifiers are opaque strings given to the model, and `Start` requires them to be distinct.
- The tile manager's draw and shuffle (`JerèrKatyo.swift`) are not modelled. They enter as the drawn sequence and the shuffled board, with a count and a permutation as their contracts.
- The score manager (`JerèrPwen.swift`) is not modelled beyond the streak counter, the record log and the `pwen > 0` guard of `konsève`.
  - The bonus formula is the abstract field `kalkileBonus`.
  - Dates, JSON encoding, storage failures, the leaderboard sort and `efaseToutDone` are left out.
- `JweKontrole.JweMote.Start`: requires the timer to be stopped, because its callers (`viewDidLoad` and the result dialogs' completions) run it only when no timer is running. A reveal callback firing after `viewWillDisappear` is not modelled.
- `JweKontrole.JweMote.Tap`: requires the tag to be a cell of the level's grid, as the cells built by `konfigireGrid` are. The source's array index would trap on any other tag.
- `JweKontrole.JweMote.JenereSiyes`: the score, the streak and the integers are unbounded. Swift's 64-bit `Int` would trap on overflow, which the model does not represent.
- `Katyo.KatyoAvekPozisyon` is a class, so copies share state. The Swift struct has value semantics, and the model does not capture copying.
- The back button and navigation (`boutonRetounenTape`) are left out.
- `ReglajViewController.swift` and `KlasmanViewController.swift` are I/O and table presentation.

## Findings

| source | as written | input that shows it | evidently intended | confidence | as-written member | corrected member |
|---|---|---|---|---|---|---|
| GridMind/GridMind/Kontrole/JweViewController.swift:416-419 | a won round saves the new running total `pwenTotal`, and `chajePwenTotal` (lines 447-451) reloads the SUM of all saved values of the level | empty store, two wins without bonus: 50 and then 100 are saved; the screen shows 100, the next visit loads 150 | a reload shows the total the player left with, for example by saving each round's own points | medium, not executed | `JweKontrole.ScenarioReloadAfterTwoWins` | `Round.ReloadMatchesWithRoundPoints` |

The engine (`JweKontrole.JweMote.JenereSiyes`) keeps the save as written, because it models
the game as it behaves. `JweKontrole.ScenarioReloadAfterTwoWins` drives two wins
through the engine and reopens the screen on the stored records: 100 on screen,
150 after the reload. `Round.ReloadAfterTwoWins` states the same on the store alone,
and `Round.ReloadInflatesAfterWin` for any positive total. `Round.KonseveRoundPoints` is the corrected save.
`Round.ReloadMatchesWithRoundPoints` proves that it keeps the reloaded total
equal to the running total.
