# Pokémon battle game: a Dafny model of its game logic

The game fetches two random creatures. The user picks one as their fighter, and it battles the
other (the CPU) by a comparison of three base stats: attack, defense and speed. A running
tally of player and CPU wins is kept in the browser's key-value storage.

This project models the three parts of that logic and proves properties about them:

- **Battle engine** (`engine.dfy`, module `BattleEngine`). This is `calculateBattleResult`, a
  pure function. A side wins a stat when its value is strictly greater. The side that wins
  more stats wins the battle; equal counts give a tie. Its contract gives two independent
  readings of the result. One is per stat. The other is a signed margin: +1 for each stat
  the player wins, -1 for each stat the CPU wins.
- **Score ledger** (`ledger.dfy`, module `ScoreLedger`). The two counters live in a
  `map<string, string>` under the keys `pokemon-battle-player-wins` and
  `pokemon-battle-cpu-wins`. This module holds:
  - the load effect, which restores a counter from its key;
  - the save effect, which writes both counters as decimal strings;
  - the two removals done by the reset handler;
  - the decimal round trip between `toString` and `parseInt`, proved in both directions.
- **Session state machine** (`session.dfy`, module `PokemonBattle`, class `Session`). This is
  the `usePokemonBattle` hook. Its fields are the hook's state: `pokemon1`, `pokemon2`,
  `loading`, `selectedFighter`, `battleResult`, `playerWins`, `cpuWins`, `gamePhase` and
  `error`. Two more fields complete it:
  - `storage`, the persistent store;
  - `timers`, the queue of scheduled resolution steps, which stand in for `setTimeout`.

  The creature provider is an oracle: a sequence of answers (`Response`), each a creature or a
  failed request. `RunFetch` is the reference definition of the fetch protocol over those
  answers. `AwaitContest` is the retry loop, proved against it.
- **Battle screen** (`arena.dfy`, module `BattleArena`, class `Arena`). This is the logic in
  `BattleArena`:
  - the winner recomputed for the banner and for the completion card;
  - the completion effect;
  - the New Battle and Replay handlers;
  - the phase-guarded card clicks.

  `Arena.Valid()` holds between user events. It is stronger than `Session.Valid()`, because
  the screen only offers the commands it renders for the current phase. For example:
  - exactly one resolution is pending, and only while the phase is battling;
  - a stored result is always the engine's result for the current pair;
  - the banner always shows the engine's outcome.

React effects are folded into the command that triggers them. The model state after each
method is the state once the effects have run. The save effect runs only when a counter
changed, and the completion effect only when the phase or the result changed, as with React's
dependency lists.

The model follows the code as written; in particular:

- A replay does not clear the previous result. A battling phase with a non-null result is
  therefore reachable. The invariant that holds, proved in `Arena.Valid()`, is this: a result
  is present only in the battling or complete phase, and it equals the result the new battle
  will store.
- The screen offers no retry button in the error phase, so from the screen nothing leaves it.
  In the hook alone, `fetchNewBattle`, `selectFighter` (which has no phase guard) and a
  resolution still pending from an earlier battle can all leave it.
- The screen does not take `resetScoreboard` from the hook (src/components/BattleArena.tsx:13-25),
  and the scoreboard has no reset button. `Session.ResetScoreboard` can be reached only through
  the hook, so `Arena` has no reset command.
- The completion card's conditional guards only its first comparison with `battleResult &&`.
  A missing result would make the second comparison read a field of `null` and throw. The
  model's `CompletionText` therefore takes a result, not an optional one: in the complete
  phase a result is always present (`Session.PhaseValid`).
- The retry loop for a distinct second creature has no bound (`RunFetch` returns `Unfinished`).
- The reset handler removes both keys. When the counters were not already 0, the save effect
  then writes `"0"` under both keys (`Session.ResetScoreboard`). Either way both counters
  restore as 0.
- An unparseable stored value becomes `NaN` in the code; it is not read as 0.

## Model

| member | source | states |
|---|---|---|
| `BattleEngine.CalculateBattleResult` | src/hooks/usePokemonBattle.ts:121-142 | For each stat, a side's flag is true exactly when its value is strictly greater, and never both sides are true. The outcome is the verdict of the signed per-stat margin. It is `PlayerWins`, `CpuWins` or `Tie` exactly when the player's win count is greater than, smaller than or equal to the CPU's. |
| `BattleEngine.SwapSides` | src/hooks/usePokemonBattle.ts:121-141 | Exchanging the two creatures exchanges the two flag sets and flips the outcome; a tie stays a tie. |
| `BattleEngine.EqualStatsTie` | src/hooks/usePokemonBattle.ts:122-139 | Identical stats: neither side wins any stat, and the outcome is a tie. |
| `BattleEngine.ExampleBattles` | src/hooks/usePokemonBattle.ts:121-141 | A 1–1 split with a draw on speed is a tie; winning all three stats is a player win. |
| `BattleEngine.StatWins.Count` | src/hooks/usePokemonBattle.ts:134-135 | The number of won stats is at most 3. It is 0 exactly when no flag is set and 3 exactly when all three are. |
| `ScoreLedger.ParseDecimal` | src/hooks/usePokemonBattle.ts:45-46 | `parseInt` of a digit string is 0 exactly when every digit is `0`. |
| `ScoreLedger.ToDecimal` | src/hooks/usePokemonBattle.ts:52-53 | `toString` of a counter is a non-empty digit string with no superfluous leading zero. |
| `ScoreLedger.ParseToDecimal` | src/hooks/usePokemonBattle.ts:46-53 | Parsing a written counter gives the counter back. |
| `ScoreLedger.ToDecimalOfParse` | src/hooks/usePokemonBattle.ts:46-53 | Writing the parse of a canonical digit string gives the same string. |
| `ScoreLedger.Restore` | src/hooks/usePokemonBattle.ts:43-47 | An absent or empty value leaves the counter at 0; a digit string restores its decimal value. |
| `ScoreLedger.Save` | src/hooks/usePokemonBattle.ts:51-54 | Both keys are written, and both counters restore exactly. Every other key is untouched. |
| `ScoreLedger.Clear` | src/hooks/usePokemonBattle.ts:173-174 | Both keys are absent, and both counters restore as 0. Every other key is untouched. |
| `ScoreLedger.SaveEffect` | src/hooks/usePokemonBattle.ts:51-54 | If the counters did not change, the store is unchanged. Otherwise both new counters are persisted. |
| `ScoreLedger.RestoreAfterSave` | src/hooks/usePokemonBattle.ts:42-54 | Saved counters survive any later writes and removals of other keys: restoring after a restart gives them back. |
| `ScoreLedger.SaveOfRestoreKeepsCanonical` | src/hooks/usePokemonBattle.ts:42-54 | Restoring canonical stored values and saving them at once leaves the store as it was. |
| `PokemonBattle.AwaitContest` | src/hooks/usePokemonBattle.ts:94-100 | The retry loop ends exactly as the reference protocol `RunFetch` says. A contest it returns has two different ids. |
| `PokemonBattle.ContestDistinct` | src/hooks/usePokemonBattle.ts:94-104 | A finished contest pairs the first answer with the first later answer of a different id. Only duplicates come in between, and the two ids differ. |
| `PokemonBattle.UnfinishedOnlyOnDuplicates` | src/hooks/usePokemonBattle.ts:98-100 | The fetch fails to finish only while every answer so far is a creature with the first answer's id. |
| `PokemonBattle.Roles` | src/hooks/usePokemonBattle.ts:150-151 | The player is the selected slot, and the player and the CPU are the two slots. |
| `PokemonBattle.Session.constructor` | src/hooks/usePokemonBattle.ts:31-54 | Initial state: phase loading, no creatures, selection, result or error. Counters restored from the store, and the store holds them as saved. |
| `PokemonBattle.Session.CanBattle` | src/hooks/usePokemonBattle.ts:146 | The guard fails exactly when a creature or the selection is missing. When it holds in a valid session, the player and the CPU have different ids. |
| `PokemonBattle.Session.FetchNewBattle` | src/hooks/usePokemonBattle.ts:86-112 | Selection and result are cleared. Counters, store and timers are kept. On a contest: both slots filled with different ids, phase selection, no error. On failure: slots kept, phase error with the fixed message. Unfinished: phase loading. `loading` is false exactly when the protocol finished. |
| `PokemonBattle.Session.BeginFetch` | src/hooks/usePokemonBattle.ts:87-91 | `loading` is true, the phase is loading, and selection, result and error are cleared. |
| `PokemonBattle.Session.StoreContest` | src/hooks/usePokemonBattle.ts:102-104 | Both slots are set together, the phase is selection, and `loading` ends false. |
| `PokemonBattle.Session.FailFetch` | src/hooks/usePokemonBattle.ts:105-110 | The error is the fixed message, the phase is error, and `loading` ends false. |
| `PokemonBattle.Session.SelectFighter` | src/hooks/usePokemonBattle.ts:115-118 | The selection is recorded, the phase is ready, and nothing else changes. |
| `PokemonBattle.Session.StartBattle` | src/hooks/usePokemonBattle.ts:145-156 | Without both creatures and a selection, nothing changes. Otherwise the phase is battling, and one resolution is queued carrying the engine's result for the selected creature against the other. |
| `PokemonBattle.Session.ResolveBattle` | src/hooks/usePokemonBattle.ts:156-166 | The oldest queued result is stored and the phase is complete. Exactly the winner's counter goes up by 1, neither on a tie, and the save effect persists the change. |
| `PokemonBattle.Session.Tally` | src/hooks/usePokemonBattle.ts:159-164 | Exactly the winner's counter goes up by 1, neither on a tie. The save effect follows, and the store still restores the counters in memory. |
| `PokemonBattle.Session.ResetScoreboard` | src/hooks/usePokemonBattle.ts:170-175 | Both counters are 0 and restore as 0. If they were already 0, both keys are absent; otherwise the save effect rewrites them as `"0"`. |
| `BattleArena.BannerWinner` | src/components/BattleArena.tsx:43-56 | The banner is hidden, with no winner, exactly when the phase is not complete or there is no result. |
| `BattleArena.BannerAgreesWithEngine` | src/components/BattleArena.tsx:50-57 | For a result the engine computed, the banner's winner is the engine's outcome. |
| `BattleArena.CompletionText` | src/components/BattleArena.tsx:190-197 | The completion card's line is the line for the winner the banner picks from the same result. |
| `BattleArena.CompletionTextAgreesWithBanner` | src/components/BattleArena.tsx:190-197 | The card shows a winner's line exactly when the banner picks that winner, for any result. The three lines differ, so the line tells the winner. |
| `BattleArena.Arena.constructor` | src/components/BattleArena.tsx:12-30 | After mounting and the first fetch, the screen invariant holds, the session is a new one of this screen's own, and the banner and confetti are off. The counters are restored from the store, and the store holds them as saved. No selection, result or pending resolution. On a contest: both slots filled, phase selection, no error. On failure: phase error with the fixed message. Unfinished: phase loading. |
| `BattleArena.MountAndBattle` | src/hooks/usePokemonBattle.ts:145-166 | Mounting with a fetch that finishes, picking a card, starting and letting the resolution fire ends complete. The stored result and the banner are the engine's for the picked creature against the other, and the tally rose by one unless it was a tie. |
| `BattleArena.Arena.CompletionEffect` | src/components/BattleArena.tsx:43-62 | The banner's winner and visibility follow `BannerWinner` for the current phase and result. Confetti starts on a player win. |
| `BattleArena.Arena.ConfettiFinished` | src/components/BattleArena.tsx:66-70 | The confetti stops, and the screen invariant is kept. |
| `BattleArena.Arena.ClickCard` | src/components/BattleArena.tsx:241-264 | In the selection phase, the click selects that card, the phase is ready, the banner stays hidden and the confetti is kept. In any other phase, nothing changes. Either way the creatures, result, error, counters, store and pending resolutions are unchanged. |
| `BattleArena.Arena.ClickStart` | src/components/BattleArena.tsx:169-180 | From the ready phase, the battle starts: the phase is battling, one resolution with the engine's result is pending, and the banner is hidden. The creatures, selection, stored result, error, counters and store are unchanged. |
| `BattleArena.Arena.TimerFires` | src/hooks/usePokemonBattle.ts:156-166 | The pending resolution's result is stored, it is the engine's result for the current pair, and the phase is complete. The banner shows the engine's outcome, exactly the winner's counter went up and the save effect persisted it. The creatures, selection and error are unchanged. |
| `BattleArena.Arena.HandleNewBattle` | src/components/BattleArena.tsx:98-103 | Banner, winner and confetti are cleared, then a new fetch runs. Selection and result are cleared; counters, store and pending resolutions are kept. On a contest: both slots filled, phase selection, no error. On failure: slots kept, phase error with the fixed message. Unfinished: phase loading. |
| `BattleArena.Arena.Replay` | src/components/BattleArena.tsx:213-219 | Banner and winner are cleared. The same creatures and selection battle again: one resolution with the previous result is pending. The previous result stays stored until the new one resolves. The confetti, error, counters and store are unchanged. |

## Left out

- The HTTP request to the creature API, the JSON field extraction (with its `|| 0` defaults)
  and the random id choice are left out (src/hooks/usePokemonBattle.ts:57-83). The provider
  is a parameter: the sequence of its answers.
- The fetch is atomic in the model. The source awaits between requests, so in the hook (not
  reachable from the screen) a pending resolution could fire in the middle of a fetch.
- `PokemonBattle.Session.FetchNewBattle`: the unbounded retry loop is modelled over a finite
  sequence of answers. When the answers run out while duplicates keep coming, the model stops
  in the loading phase. It does not claim termination.
- Timing is not modelled: the 1500 ms and 600 ms delays, `requestAnimationFrame`, `Date.now`,
  and the confetti drawing. Resolution is an explicit step (`ResolveBattle`, `TimerFires`),
  and so is the end of the confetti (`ConfettiFinished`).
- The battle animation flag (src/components/BattleArena.tsx:32-40), the loading overlay,
  CSS classes and the banner's text are presentation. Only the winner choice is modelled.
- Rendering and the exact scheduling of effects are not modelled: effects are folded into the
  commands that trigger them. At mount, the save effect first writes `"0"` and then the
  restored counters; only the settled store is modelled (`PokemonBattle.Session.constructor`).
- `ScoreLedger.Restore`: stored values are required to be empty or all digits. `parseInt` of
  other strings (signs, spaces, trailing garbage, `NaN`) is not modelled.
- Counters are unbounded naturals. JavaScript numbers lose precision above 2^53, which is
  not modelled.
- `src/components/PokemonCard.tsx` and `src/components/Scoreboard.tsx` are presentation and are
  not part of this model, including the floating-point width of the stat bars.
