# Slot-machine spin engine

A Dafny model of the spin engine that `initApp` in `script.js` sets up on the game page.
The engine has five parts:

- **Provider pools.** The catalog is split into three provider pools ("JILI", "PG Soft", "PP Slot").
- **Columns.** There is one column per pool. Each holds a stack of up to three cards and a
  three-slot carousel (`currentOrder`: left, active, right) that card clicks rotate.
- **Lock buttons.** One per column. They freeze the column across spins.
- **Spin button.** It is guarded by the global `isAnimating` flag. It rebuilds every unlocked
  column's stack and starts each one's interval, which fires every 100. The interval shows random frames
  until the column's duration (2000, 3000 or 4000) and then settles on games drawn in advance.
- **Completion timeout.** After 4000 it plays the jackpot (only when the PP column is
  unlocked), fires confetti and clears `isAnimating`.

Modules:

- `Games`: the catalog entries, the three providers and the pool filter.
- `Sampler`: `pickUniqueGames`, modelled as a copy, a reordering and a prefix. The random
  reordering is supplied by the caller as a sequence of exchanges of two positions; every
  reordering is such a sequence.
- `Ring`: `currentOrder` as a value, with the two rotations, the click rule and the
  position classes.
- `Schedule`: the firings of a column's interval, as a list of steps derived from `elapsed`
  and the duration.
- `Columns`: class `Column`, one provider column. It holds the card records (a game plus the
  position, `spinning` and `winning` classes), `currentOrder`, the live interval and the
  column's sound events.
- `Machine`: class `SlotMachine`. It holds `lockedState`, `isAnimating`, the pools and the
  three columns. It also has a pure model of the lock/spin/completion gate with lemmas about
  any sequence of events.

Timers become explicit calls: `Column.Tick` is one firing of a column's interval and
`SlotMachine.Complete` is the completion timeout. Sounds and confetti are appended to event
logs (`feedback`).

## Model

| member | source | states |
|---|---|---|
| Games.ProviderName | script.js:61-63 | each column filters on its own exact provider string, "JILI", "PG Soft" or "PP Slot", and each of these strings names exactly one column |
| Games.ProviderPool | script.js:61-63 | the pool holds exactly the catalog entries whose provider string equals the given one, and is no longer than the catalog |
| Games.PoolCounts | script.js:61-63 | the filter keeps each entry of the provider exactly as often as the catalog holds it and drops every other entry |
| Games.PoolDistinct | script.js:61-63 | a catalog without repeats gives a pool without repeats |
| Games.PoolOf | script.js:61-63 | every game in a column's pool carries that column's provider string |
| Games.PoolsPartition | script.js:61-63 | no entry is in two pools; the three pools together use each entry at most as often as the catalog has it, so their lengths sum to at most the catalog's |
| Sampler.Shuffled | script.js:353 | the copy after the random-comparator sort, as a sequence of exchanges: it keeps the list's length (its contents are stated by `ShuffledPermutes` and `ShuffledDistinct`) |
| Sampler.ShuffledPermutes | script.js:353 | sorting the copy with a random comparator only reorders it: the multiset is unchanged |
| Sampler.PickUniqueGames | script.js:352-355 | the result has exactly min(count, length of list) entries; its multiset is included in the list's, so no entry is used more often than listed; when count covers the list, it is a permutation of the list |
| Sampler.PickedFromList | script.js:352-355 | every drawn game is in the list |
| Sampler.ShuffledDistinct | script.js:353 | reordering a list without repeats gives a list without repeats |
| Sampler.PickedDistinct | script.js:352-355 | a draw from a list without repeats has no repeats |
| Ring.RotatedLeft | script.js:297-299 | shift-and-push keeps `currentOrder` a permutation of {0, 1, 2}; the old right card becomes active, the old active card goes left and the old left card wraps to the right |
| Ring.RotatedRight | script.js:304-306 | pop-and-unshift keeps `currentOrder` a permutation of {0, 1, 2}; the old left card becomes active, the old active card goes right and the old right card wraps to the left |
| Ring.LeftThenRight | script.js:297-306 | `rotateLeft` followed by `rotateRight` restores `currentOrder` |
| Ring.RightThenLeft | script.js:297-306 | `rotateRight` followed by `rotateLeft` restores `currentOrder` |
| Ring.Rotations | script.js:291-309 | after any sequence of click rotations `currentOrder` is still a permutation of {0, 1, 2} |
| Ring.RotationsNet | script.js:297-309 | the order after any sequence of rotations depends only on left turns minus right turns, modulo 3 |
| Ring.ThreeTurns | script.js:297-309 | three rotations in the same direction restore `currentOrder` |
| Ring.IndexOf | script.js:292 | `indexOf` gives the first position holding the index, or -1 exactly when the index is absent |
| Ring.ClickedOrder | script.js:291-295 | a click on a card in the ring makes it the active one; a click on the active card leaves the order unchanged; the result is the order itself or one of its two rotations |
| Ring.PositionIn | script.js:345-350 | a card is active exactly when it is at `order[1]` and has no position class exactly when it is not in the order |
| Ring.PositionSides | script.js:347-349 | a card gets the left class exactly when it is at `order[0]` and the right class exactly when it is at `order[2]` |
| Schedule.Duration | script.js:164-166 | each column spins for a positive multiple of 200 of at most 4000; only the PP column's duration equals the completion delay |
| Schedule.StaggeredStops | script.js:164-166 | the columns stop one after another: JILI before PG before PP |
| Schedule.Steps | script.js:229-253 | the firings of an interval always end in a stop |
| Schedule.StepsShape | script.js:229-237 | from any count below the duration, the firings are one frame at each later multiple of 100 below the duration, followed by one stop |
| Schedule.CountsFrom | script.js:229-241 | from any count below the duration, the remaining firings hold exactly (duration - elapsed - 1) / 100 frames and exactly one stop |
| Schedule.SpinTimeline | script.js:226-253 | a spin from zero renders duration / 100 - 1 random frames and stops once; frame k comes at 100 * (k + 1); the tick sound plays at every multiple of 200 below the duration and at no other time |
| Columns.FreshStack | script.js:205-218 | a fresh stack has min(3, pool size) cards showing a draw of three from the pool, in home order, none spinning or winning |
| Columns.FreshStackActive | script.js:205-218 | a fresh stack has an active card exactly when the pool holds at least two games |
| Columns.Column.constructor | script.js:201-203 | `populateInitialCards`: the column shows a fresh stack in order [0, 1, 2] with no interval and no sound |
| Columns.Column.CreateInitialStack | script.js:205-218 | the emptied column gets a fresh stack in order [0, 1, 2] and no running interval; the column stays consistent |
| Columns.Column.GetStack | script.js:177-187 | a locked column is left entirely unchanged; an unlocked one gets a fresh stack in home order |
| Columns.Column.UpdateCardPositions | script.js:345-350 | every card gets the position its index has in the order; games, order, interval and sounds are kept |
| Columns.Column.ClearPositions | script.js:346 | every card loses its position class and nothing else changes |
| Columns.Column.ClearWinning | script.js:301 | every card loses its winning mark and nothing else changes |
| Columns.Column.SetSpinning | script.js:224 | every card gets (or loses) the spinning class and nothing else changes |
| Columns.Column.UpdateStackContent | script.js:256-284 | card i shows `frame[i]`, with every other card attribute kept |
| Columns.Column.FindActive | script.js:248 | the index of the first active card, or -1 exactly when no card is active |
| Columns.Column.RotateLeft | script.js:297-302 | the order is rotated left, every card's position follows it, every winning mark is cleared, games are kept |
| Columns.Column.RotateRight | script.js:304-309 | the order is rotated right, every card's position follows it, every winning mark is cleared, games are kept |
| Columns.Column.HandleCardClick | script.js:291-295 | the clicked card becomes the active one; a click on the active card changes nothing; otherwise the ring turns one step and clears the winning marks; the interval is untouched even while spinning |
| Columns.Column.SpinColumn | script.js:220-229 | a locked column is left entirely unchanged; otherwise every card spins and the interval starts from 0 with the final games fixed |
| Columns.Column.Tick | script.js:229-253 | one firing consumes the first remaining step: a frame shows a fresh draw from the pool and adds a tick at multiples of 200; the stop shows the final games, clears spinning, marks the card at `order[1]` winning and sounds the stop |
| Columns.Column.StopSpin | script.js:239-252 | after the stop, card i shows `finalGames[i]`, no card spins, the card at `order[1]` is winning, the interval is cleared and the stop sound is logged once |
| Machine.PerColumn.With | script.js:125 | flipping one column's flag sets that flag and keeps the other two |
| Machine.GateStep | script.js:120-174 | while a spin is in flight, lock toggles and spin requests change nothing; an accepted spin sets `isAnimating`; a toggle flips only its own column; only the completion clears `isAnimating`, whatever is locked |
| Machine.FrozenUntilCompletion | script.js:120-174 | from an animating gate, any run of events without a completion leaves the gate unchanged and accepts no spin |
| Machine.OneSpinInFlight | script.js:144-174 | along any run of events, the accepted spin requests number at most the completions plus one |
| Machine.SlotMachine.constructor | script.js:52-117 | page load: pools split off the catalog, every column shows a fresh stack in home order, nothing locked, not animating, no sound |
| Machine.SlotMachine.PopulateInitialCards | script.js:115-117 | three distinct new columns, each drawing from its provider's pool with its own duration and showing a fresh stack |
| Machine.SlotMachine.ToggleLock | script.js:120-142 | the gate takes one toggle step; the lock sound is logged only when the toggle is taken |
| Machine.SlotMachine.RequestSpin | script.js:144-154 | the gate takes one spin step; an ignored request or a locked column leaves the column unchanged; an accepted request restarts every unlocked column |
| Machine.SlotMachine.StartSlotMachineInColumns | script.js:156-166 | locked columns are unchanged; every unlocked column shows a fresh stack in home order, all cards spinning, with its interval live from 0 towards a second draw from its pool |
| Machine.SlotMachine.GetStacks | script.js:159-161 | the three `getStack` calls: locked columns unchanged, unlocked ones on a fresh stack in home order |
| Machine.SlotMachine.SpinColumns | script.js:164-166 | the three `spinColumn` calls: locked columns unchanged; each unlocked one keeps its order, all its cards spin and its interval is live from 0 towards a draw of its pool |
| Machine.SlotMachine.Complete | script.js:170-174 | the gate takes the completion step; the jackpot is logged only when the PP column is unlocked, and confetti always |

## Left out

- The fetch of `/api/data`, the site settings and `initFloatingIcons` (script.js:3-40, 404-439) are network and DOM work. The catalog is a constructor parameter.
- The Web Audio sound manager (script.js:66-112) is left out. Each sound is an event appended to a `feedback` log: the tick and stop sounds on the column, the lock, jackpot and confetti events on the machine. `soundManager.init` has no model.
- `generateRandomRTP` and the RTP badge (script.js:270-282, 357-362) use floating point and formatting. A card shows an abstract `Game`, and `UpdateStackContent` models only which game a card shows.
- `createCard` (script.js:364-400) builds HTML. Cards are records of a game and three class flags.
- The mouse tilt effect (script.js:316-342) and the confetti animation (script.js:189-198) are cosmetic. Confetti is only an event.
- Real timing is left out. Each interval firing is an explicit `Tick` call and the completion an explicit `Complete` call, and nothing orders the three columns' firings against each other or against the completion. At 4000 the PP column's stop and the completion timeout race in the browser; the model allows either order.
- Columns.Column.CreateInitialStack: the interval of the discarded cards is dropped. In the browser an interval still running when a new spin starts would go on changing the detached cards and could still play a stop sound.
- Sampler.PickUniqueGames: the random comparator gives no distribution, so only length, multiset inclusion and permutation facts are stated; which reordering occurs is the caller's choice of exchanges.
- Machine.SlotMachine.RequestSpin: the `pickUniqueGames` draw of the final games is evaluated for a locked column too. The model takes it from the caller's draws and does not use it.
- Machine.SlotMachine.ToggleLock: the lock button's target comes from a `data-target` attribute. The model assumes it names one of the three columns, and the button's label and styling are not modelled.
- A pool with a single game gives a one-card stack that starts in the left slot with no active card (`FreshStackActive`). The card is marked winning only if it was clicked during the spin: clicks are not blocked, and a click turns it into the active slot. The model follows the code here. An empty pool gives an empty column whose interval still runs and stops.
- `netlify/functions/data.js` and `admin.js` are not part of this model; they are HTTP and form glue.
