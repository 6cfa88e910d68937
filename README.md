# BuildBattle match lifecycle in Dafny

This project models the match controller of the BuildBattle plugin, a building contest
for a Minecraft Bedrock server, together with the plot manager the controller owns.

A `Game` is built from a map template (`GameData`). It:

- submits a background copy of the template's world and lobby directories;
- when the copy finishes, loads the worlds and registers one plot per spawn region;
- admits players only while it is in the pre-start phase and below capacity;
- on every tick, hands control to its phase handler, unless the match has collapsed to fewer
  than two players;
- at the end of a match, ranks the sessions that wait for results by score, awards the winner
  a win and everybody else a loss, and tells every session its position;
- tears itself down by evicting every session, unloading its worlds and submitting a
  directory delete.

The `PlotManager` keeps the plots by id and hands out a free plot at random.

Files:

- `options.dfy`: the `Option` type that stands for PHP's nullable references.
- `text.dfy`: PHP's `trim` with its default character list, and ASCII `strtolower`.
- `plots.dfy`: `Plot` and the `PlotManager` class.
- `ranking.dfy`: the score list. `usort` with the comparator `$b[0] <=> $a[0]` becomes
  `SortDesc`, a stable descending insertion sort, since `usort` is stable from PHP 8.0 on.
  `array_search` with its `(int)` cast becomes `Search` / `Position`.
- `game.dfy`: the `Game` class and the value-level loops it runs.

The controller's surroundings become parameters or results:

- The outcome of loading a world and the existence of the lobby template are booleans.
- `TextFormat::clean` is a function parameter.
- Work done on each session (eviction, a chat message, a title) is returned as the list of
  session UUIDs visited. Scoring a match returns the podium and the per-session position lines,
  and a tick that scores its last player carries both in `Scored`. Every path that tears a match down returns the evicted sessions or
  the unloaded worlds it produces: `StartDestruction` returns both, `OnWorldsCloned` returns
  both on a failed load, and a collapsed tick with nobody left returns `Destroyed(unloaded)`.
- Background jobs are recorded in the `jobs` field, in submission order.
- What a tick delegates to the handler is returned as a `TickOutcome`.
- `array_rand` is an unconstrained choice (`:|`). Every property holds whichever element
  it picks.

Five behaviours of the code are easy to miss, and the model keeps them:

- A match that is still loading is free without a free plot. `isFree` only asks the plot
  manager once loading is over.
- `startDestruction` is not idempotent. A second call dereferences a null player manager,
  so `StartDestruction` requires a match that has not been torn down yet.
- Teardown does not clear the lobby or the theme. `StartDestruction` states that both are
  unchanged.
- The load callback touches `data` and `plotManager` without a null check. `OnWorldsCloned`
  therefore requires a live match.
- `hasSeparateLobby` reads `file_exists` afresh at every call: once when the copy job is built
  and again at teardown. The constructor and the teardown paths therefore each take their own
  `lobbyTemplateExists`. A lobby template added or removed mid-match breaks the mirror between
  the clone and delete jobs. One lobby copy is then never deleted, or a never-copied lobby
  directory is deleted.

## Model

| member | source | states |
|---|---|---|
| `Plots.PlotManager.constructor` | src/cooldogedev/BuildBattle/game/plot/PlotManager.php:39-43 | A new manager holds no plots and no registration order. |
| `Plots.PlotManager.AddPlot` | src/cooldogedev/BuildBattle/game/plot/PlotManager.php:65-68 | The plot map becomes the old map with `id` bound to a fresh untaken plot of the given corners and height. The key set grows by at most `id`. Every other plot is unchanged. A new id goes to the end of the iteration order and a replaced one keeps its place. The manager invariant is kept: distinct ids, matching keys, each plot stored under its own id. |
| `Plots.PlotManager.GetPlots` | src/cooldogedev/BuildBattle/game/plot/PlotManager.php:70-73 | Returns the registered mapping. Its keys are exactly the ids in registration order. |
| `Plots.PlotManager.GetRandomPlot` | src/cooldogedev/BuildBattle/game/plot/PlotManager.php:45-63 | Returns None exactly when no registered plot is free. Otherwise it returns a registered, untaken plot, stored under its own id, from the list of free plots built in registration order. It changes nothing. |
| `Plots.PlotManager.SetTaken` | src/cooldogedev/BuildBattle/game/plot/PlotManager.php:51 | Changes only the occupancy of one registered plot, which is the flag the free-plot filter reads. The order and the manager invariant are kept. |
| `Plots.UntakenMembers` | src/cooldogedev/BuildBattle/game/plot/PlotManager.php:47-56 | The free-plot list holds only untaken plots from the visited ids, and every untaken plot among them. |
| `Plots.UntakenIsFreePlots` | src/cooldogedev/BuildBattle/game/plot/PlotManager.php:58-62 | Over a valid manager's order, the free-plot list is empty exactly when every plot is taken. Each plot on it is the one registered under its id. |
| `Text.Trim` | src/cooldogedev/BuildBattle/game/Game.php:306 | The trimmed string is no longer than the input. It is empty or starts and ends with a character trim keeps. A blank string trims to empty. |
| `Text.Lower` | src/cooldogedev/BuildBattle/game/Game.php:140 | `strtolower` keeps the length and lowers each character on its own, changing only A-Z. |
| `Text.TrimEmptyIffBlank` | src/cooldogedev/BuildBattle/game/Game.php:306 | `trim(...) === ""` holds exactly when the string consists only of the characters trim strips. |
| `Text.LowerEqualIffSameIgnoringCase` | src/cooldogedev/BuildBattle/game/Game.php:140 | Two strings have equal `strtolower` images exactly when they are equal character by character up to ASCII case. |
| `Ranking.SortDesc` | src/cooldogedev/BuildBattle/game/Game.php:251 | The sorted list has as many rows as the input. Its order, content and stability are the lemmas below. |
| `Ranking.SortDescPermutes` | src/cooldogedev/BuildBattle/game/Game.php:251 | The sorted score list is a permutation of the collected rows. |
| `Ranking.SortDescSorted` | src/cooldogedev/BuildBattle/game/Game.php:251 | The sorted score list is in non-increasing score order. |
| `Ranking.SortDescStable` | src/cooldogedev/BuildBattle/game/Game.php:251 | For every score, the rows carrying it keep their collection order. |
| `Ranking.SortDescDistinct` | src/cooldogedev/BuildBattle/game/Game.php:251 | Sorting rows without repeats yields rows without repeats. |
| `Ranking.SortDescHeadIsMax` | src/cooldogedev/BuildBattle/game/Game.php:251-255 | The head of a non-empty sorted list is one of the rows, and no row scores higher. |
| `Ranking.SortDescHeadIsFirstOfTies` | src/cooldogedev/BuildBattle/game/Game.php:251-255 | The head is the earliest row in collection order with the top score. Every row before it scores strictly less. |
| `Ranking.TiesKeepCollectionOrder` | src/cooldogedev/BuildBattle/game/Game.php:251 | Rows scoring 10, 30, 30 and 5 in collection order sort as the first 30, the second 30, 10, 5. |
| `Ranking.Search` | src/cooldogedev/BuildBattle/game/Game.php:291 | `array_search` gives None exactly when the row is absent. Otherwise it gives the first index holding the row. |
| `Ranking.Position` | src/cooldogedev/BuildBattle/game/Game.php:291-294 | The reported position is at least 1. It is 1 for an absent row, because `(int)false` is 0. For a present row it is one more than the row's first index. |
| `Ranking.PositionInDistinct` | src/cooldogedev/BuildBattle/game/Game.php:291-294 | In a list without repeats, the row at index k is reported at position k + 1. |
| `Games.UuidsOf` | src/cooldogedev/BuildBattle/game/Game.php:150-152 | The UUID list has one entry per session, in session order. |
| `Games.InState` | src/cooldogedev/BuildBattle/game/Game.php:310 | `getSessions($mode)` keeps exactly the sessions in the given state, or all sessions when no mode is given. |
| `Games.HasSeparateLobby` | src/cooldogedev/BuildBattle/game/Game.php:138-141 | The lobby is separate exactly when its template exists and its name differs from the world's ignoring ASCII case. |
| `Games.CloneDirs` | src/cooldogedev/BuildBattle/game/Game.php:80-86 | The copy job has one pair, or two with a separate lobby. Each pair copies a part of this map's template into a world directory. The world template goes to the world first, and the lobby template goes to the lobby second. |
| `Games.DeleteDirs` | src/cooldogedev/BuildBattle/game/Game.php:157-163 | The delete job names the world first and only world directories, one or two of them. The lobby's directory is among them exactly when the lobby is separate or has the world's name. |
| `Games.DeleteMirrorsClone` | src/cooldogedev/BuildBattle/game/Game.php:157-163 | Given the same separate-lobby answer at both times, teardown deletes exactly the destinations provisioning copied into, in the same order. With a separate lobby, the lobby's directory is among them. |
| `Games.SpawnsRegistered` | src/cooldogedev/BuildBattle/game/Game.php:116-118 | After the spawn loop, the plot keys are the old keys plus the spawn ids. Plots under other ids are unchanged. |
| `Games.SpawnOrder` | src/cooldogedev/BuildBattle/game/Game.php:116-118 | After the spawn loop, the old registration order is a prefix of the new one. The new order lists exactly the old ids and the spawn ids, and a repeat-free order stays repeat-free. |
| `Games.SpawnsStored` | src/cooldogedev/BuildBattle/game/Game.php:116-118 | With distinct spawn ids, each spawn's region and the template's build height are stored, untaken, under its id. |
| `Games.AddSpawns` | src/cooldogedev/BuildBattle/game/Game.php:116-118 | The loop calls `addPlot` once per spawn in template order. The manager ends with the map and the registration order that sequence defines, and stays valid. |
| `Games.Scores` | src/cooldogedev/BuildBattle/game/Game.php:245-249 | The score list has at most one row per session. Its membership is `ScoresMembers`. |
| `Games.CollectScores` | src/cooldogedev/BuildBattle/game/Game.php:245-249 | The first loop yields the score list: one row per session waiting for results, in collection order. |
| `Games.ScoresMembers` | src/cooldogedev/BuildBattle/game/Game.php:247-248 | A row is on the score list exactly when it belongs to a session waiting for results. The list is empty exactly when nobody waits. |
| `Games.ScoresDistinct` | src/cooldogedev/BuildBattle/game/Game.php:247-248 | Sessions with distinct UUIDs give distinct rows. |
| `Games.WinnerIsTopScorer` | src/cooldogedev/BuildBattle/game/Game.php:251-255 | When someone waits for results, the ranking is non-empty. Its head belongs to a waiting session, and no waiting session has a higher score. |
| `Games.Settled` | src/cooldogedev/BuildBattle/game/Game.php:283-289 | Settling one session keeps its identity, score and state and records exactly one more match. It gains a win exactly when it is the winner. Its streak grows on a win and resets to 0 otherwise. |
| `Games.Settle` | src/cooldogedev/BuildBattle/game/Game.php:280-289 | Every admitted session is settled in place. The winner gains a win and a streak step. Every other session gains a loss and has its streak reset. |
| `Games.SettleKeepsRoster` | src/cooldogedev/BuildBattle/game/Game.php:280-289 | Settling keeps the same UUIDs in the same order, so they stay distinct. |
| `Games.SettleTotals` | src/cooldogedev/BuildBattle/game/Game.php:280-289 | Total wins grow by the number of winning sessions. Total losses grow by the number of all other sessions. |
| `Games.MatchesOfDistinct` | src/cooldogedev/BuildBattle/game/Game.php:283 | With distinct UUIDs, at most one session is the winner. Exactly one is when the winner is admitted. |
| `Games.SettleAll` | src/cooldogedev/BuildBattle/game/Game.php:280-299 | The second loop yields the settled sessions and the per-session position lines, both in collection order. |
| `Games.ReportFor` | src/cooldogedev/BuildBattle/game/Game.php:291-296 | A session's line carries its UUID and score and a position of at least 1. The position is 1 when the session's row is absent. Otherwise it is a place in the ranking holding that row. |
| `Games.Reports` | src/cooldogedev/BuildBattle/game/Game.php:280-296 | There is one line per admitted session. `ReportsPointwise` ties each line to its session. |
| `Games.ReportsPointwise` | src/cooldogedev/BuildBattle/game/Game.php:291-296 | The i-th line names the i-th session and reports its position and score. |
| `Games.ReportedPosition` | src/cooldogedev/BuildBattle/game/Game.php:291-296 | A session waiting for results is told its index in the ranking plus one. Any other session is told 1. Every line carries the session's own score. |
| `Games.Results` | src/cooldogedev/BuildBattle/game/Game.php:243-299 | The ranking is the stable descending sort of the score list. The winner is its head, or the previous winner when it is empty, and there always is one. The podium is the first up to three rows. Settling and reports follow `Settle` and `Reports`, and distinct UUIDs stay distinct. |
| `Games.Visit` | src/cooldogedev/BuildBattle/game/Game.php:150-152 | A foreach over sessions visits each one's UUID once, in order. |
| `Games.Game.constructor` | src/cooldogedev/BuildBattle/game/Game.php:74-126 | A new match is valid, loading and pre-start. It has an empty player manager and an empty fresh plot manager, and no winner, worlds or theme. It has submitted exactly one copy job: the world template, and the lobby template when the lobby is separate. |
| `Games.Game.OnWorldsCloned` | src/cooldogedev/BuildBattle/game/Game.php:90-122 | If the world fails to load, the match is torn down. It returns the sessions it evicted, in collection order, and the worlds it unloaded. It stays loading, keeps its lobby and theme, and gains the delete job. A successful load evicts and unloads nothing. Otherwise: the world is set; the lobby is the separate lobby if it loaded, else the world; the plots and their registration order follow the spawn loop; loading ends; the queue is cleared; nothing else changes. |
| `Games.Game.IsFree` | src/cooldogedev/BuildBattle/game/Game.php:191-202 | Not free outside pre-start. Not free once loaded with no free plot. Not free at or above capacity, or with a full queue when admitting from the queue. Free when none of these hold. Without queue admission, free is equivalent to the first three conditions. |
| `Games.Game.TickGame` | src/cooldogedev/BuildBattle/game/Game.php:219-241 | Loading: nothing happens. Not collapsing: the handler ticks, then updates scoreboards, and the state is unchanged. Collapsed with nobody left: teardown with the delete job, with lobby and theme kept. The outcome names the world, and the lobby when separate, as the worlds unloaded. Collapsed with one player: that player waits for results and is recorded as winner with a win and a streak step. The outcome carries the podium, which is that player's row alone, and the one position line, which tells that player position 1 and its score. The match moves to the end phase, and its template, worlds, theme, jobs, plot manager, queue and loading flag stay as they were. |
| `Games.SoleSessionResults` | src/cooldogedev/BuildBattle/game/Game.php:231-233 | A lone session waiting for results is the whole ranking and the whole podium. It is told position 1 with its own score, and settling it as winner adds one win and one streak step. |
| `Games.Survivor` | src/cooldogedev/BuildBattle/game/Game.php:228-234 | With one session left, that session becomes the winner and waits for results with one more win and streak step. The podium is its row alone, and its one position line says 1 and its score. The queue is untouched. |
| `Games.Game.ScoreSurvivor` | src/cooldogedev/BuildBattle/game/Game.php:230-234 | The one-player branch of a tick leaves the match valid and in the end phase. The survivor is the winner, settled as `Survivor` states. The outcome carries the survivor, the podium and the position line, and the queue keeps its size. |
| `Games.Game.CalculateResults` | src/cooldogedev/BuildBattle/game/Game.php:243-302 | The ranking, winner, podium and per-session lines are those of `Results` on the old sessions. The sessions become the settled list, the queue is kept, the handler becomes EndHandler, and the match stays valid. |
| `Games.Game.StartDestruction` | src/cooldogedev/BuildBattle/game/Game.php:148-179 | Every session is evicted in collection order. The world is unloaded if present, and the lobby if separate and present. The delete job for the world, plus the lobby when separate, is submitted under the match id. The match is left torn down with its lobby and theme untouched. |
| `Games.Game.BroadcastMessage` | src/cooldogedev/BuildBattle/game/Game.php:304-315 | A message that is blank once cleaned and trimmed reaches nobody. Any other message reaches every session in the requested state, in order. |
| `Games.Game.BroadcastTitle` | src/cooldogedev/BuildBattle/game/Game.php:327-338 | The same guard, applied to the title alone. The subtitle is never checked. |
| `Games.Game.SetWinner` | src/cooldogedev/BuildBattle/game/Game.php:214-217 | Only the winner changes, to the given value, and the match stays valid. |
| `Games.Game.SetTheme` | src/cooldogedev/BuildBattle/game/Game.php:322-325 | Only the theme changes, to the given value, and a valid match stays valid. |
| `Games.Game.SetHandler` | src/cooldogedev/BuildBattle/game/Game.php:345-348 | Only the handler changes, to the given one, and the match stays valid. |

## Left out

- World loading, spawn-location offsets, time, autosave, unloading and teleporting are server I/O. They appear only as boolean parameters (world and lobby loaded) and as the returned names of the unloaded worlds.
- File copy and delete run on the background pool. They are recorded as `CloneJob` / `DeleteJob` values; the debug-log closure of the delete job is not modelled.
- The directory paths are reduced to their identity: a template part of a named map, or a world by name. The data-folder and server path prefixes are left out.
- `Utils::parseVec3` turns configuration into float vectors. The model takes already-parsed integer corners (`Spawn`).
- `GameManager::removeGame`, the registry of matches, is outside this model.
- `PlayerManager` is reduced to its sessions in collection order and its queue size. `removeFromGame` is represented by the evicted UUID list, and `clearQueue` by setting the queue size to 0.
- `Session::clearAll` is assumed to leave the score, the state and the win/loss/streak counters alone. The reported position looks the session up by its score after that call.
- `array_search` compares `[score, session]` arrays loosely. The model compares (score, UUID) rows and relies on distinct UUIDs.
- Localisation (`LanguageManager`), the message texts and the display names are left out. The announcements inside `calculateResults` are reduced to the `podium` result and the per-session `Report` lines.
- The phase handlers' own behaviour is left out. A handler is one of PreStart, Active (any middle phase) or End.
- `Plot.php` is not part of this model. A new plot is untaken, and `PlotManager.SetTaken` stands for `Plot::setTaken` as called by admission code.
- `TextFormat::clean` is a parameter (`clean`), not a definition.
- `Games.Game.StartDestruction` requires a live match with a player manager, because the source dereferences a null player manager on a second call.
- `Games.Game.OnWorldsCloned` requires a live match, because the callback dereferences a null template after teardown.
- `Games.Game.TickGame` assumes `handleTicking` leaves the handler and the rest of the match in place. Both delegated calls therefore name the handler the tick started with. When the handler moves to another phase during `handleTicking`, the source sends `handleScoreboardUpdates` to the new handler. When it tears the match down, no second call is made, because of the null-safe `?->`.
- `Games.Game.CalculateResults` requires a live match, and either a session waiting for results or a winner already set. The source dereferences a null player manager at line 247, and a null winner at lines 274 and 298.
- `Games.Game.BroadcastMessage` requires a live match unless the message is blank. The source calls `getSessions` on a null player manager at line 310 after teardown.
- `Games.Game.BroadcastTitle` requires a live match unless the title is blank, for the same reason at line 333.
- `Games.Game.SetHandler` requires a live match. The source also accepts a torn-down one, but setting a handler there breaks the torn-down state the model keeps as its invariant.
- `Games.Game.SetWinner` requires a live match. The source accepts a torn-down one too, and setting the winner there likewise breaks the torn-down state.
- Game getters that only return a field (`getData`, `getWorld`, `getLobby`, `isLoading`, `getWinner`, `getTheme`, `getHandler`, `getPlotManager`, `getPlayerManager`, `getPlugin`) are the fields themselves.
