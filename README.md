# mediaspawner, modelled in Dafny

A model of Popcorn's `mediaspawner` plugin
(`plugins/mediaspawner/popcorn.mediaspawner.js`). The plugin attaches a media
player for a source URL under a target element and shows it while the
timeline is inside the plugin's interval. The model covers four things:

- **Source classification** (`source_type.dfy`, module `SourceType`). The
  plugin's regular expression
  `(?:http://www\.|http://|www\.|\.|^)(youtu|vimeo|soundcloud|baseplayer)` is
  modelled as a backtracking engine runs it. `Exec` takes the leftmost start
  position. At one position it tries the prefix alternatives in their written
  order, each followed by the keyword alternatives in order.
  `FirstHit` is a separate reference definition: the first keyword that
  stands at the start of the string, after a `.`, or after `http://`.
  `ExecIsFirstHit` proves the two always agree. `MediaType` then rewrites
  `youtu` to `youtube` and reports "HTML" when nothing matches.
- **Loading decisions** (`loading.dfy`, module `Loading`). The end of
  `_setup` and the nested callbacks `isPlayerReady`, `constructMedia` and
  `checkPlayerTypeLoaded` are pure functions of two sets: the names defined
  on `window.Popcorn` and the keys set in the shared registry
  `playerTypeLoading`. Each one returns the next phase and the key it claims.
  A claimed key is one whose script is fetched. The next phase is one of:
  waiting for a fetch callback, waiting for a 300 ms timer, or constructed.
  `Sound` states what every such decision guarantees.
- **The shared page** (`spawner.dfy`, class `Spawner.Page`). It holds the
  defined names, the registry, the log of `Popcorn.getScript` calls, the
  fetch callbacks still pending, and the instances (the plugin's `options`
  objects). Timers and script loads are events that the environment
  delivers in any order: `PollTick`, `FetchCompleted` and `SymbolAppears`.
  `Page.Valid` is kept by every event. It says the registry holds exactly the
  fetched keys, and that no key is fetched twice. It says every pending
  callback belongs to the one instance waiting for it. It also says a player
  is constructed only after `Popcorn.player` is defined and, for a non-HTML
  type, `Popcorn[type]` as well.
- **Presentation** (`presentation.dfy` and `spawner.dfy`). This covers the
  width and height defaults, and `start`, `end` and `_teardown` as changes
  to the instance's caption display, to its media style and to the calls
  made on its player handle.

Three facts about the code shape the model:

- The registry `playerTypeLoading` is a flag per key that is only ever set
  to true, so it is the set of claimed keys. Nothing marks a key loaded:
  `playerTypesLoaded` is never read.
- A fetch callback simply runs the check again.
- `_teardown` is guarded by the handle member `destory` (line 241) while it
  calls `destroy`. `Spawner.TornDown` and `Spawner.Page.Teardown` model the
  guard as written; `Spawner.TornDownIntended` is the corrected teardown
  (see Findings).

Inputs the code takes from its environment are parameters. These are the
target element (its rendered size, or absence), the id `Popcorn.guid()`
returns, the members of the handle `Popcorn.smart` returns, and whether
the target still exists at teardown. The `http://` alternative of the
regular expression does not match `https://`, so a keyword right after
`https://` (as in `https://youtu.be/…`) stands in no accepted context
(`HttpsKeywordOutOfContext`); by `MediaTypeMeaning` such a source is
classified by some later keyword, or as HTML when there is none. Sources
like `https://www.youtube.com/…` are still recognised through the `www.`
alternative.

## Model

| member | source | states |
|---|---|---|
| `SourceType.MatchAtIsHit` | plugins/mediaspawner/popcorn.mediaspawner.js:23 | a match of the expression at a position captures the keyword of an accepted occurrence at or after it, with no keyword in between |
| `SourceType.HitIsMatched` | plugins/mediaspawner/popcorn.mediaspawner.js:23 | every keyword at the start, after `.` or after `http://` makes the expression match at or before it |
| `SourceType.ExecScan` | plugins/mediaspawner/popcorn.mediaspawner.js:110 | `exec` fails only if no position matches, and otherwise returns the capture of the leftmost matching position |
| `SourceType.FirstHitScan` | plugins/mediaspawner/popcorn.mediaspawner.js:23 | the reference definition returns the keyword of the first accepted occurrence, or nothing when there is none |
| `SourceType.ExecIsFirstHit` | plugins/mediaspawner/popcorn.mediaspawner.js:23 | the expression's capture equals the first keyword that stands at index 0, after a `.` or after `http://` |
| `SourceType.MediaTypeMeaning` | plugins/mediaspawner/popcorn.mediaspawner.js:110-121 | the type is "HTML" iff no keyword is in an accepted context; otherwise it is the first such keyword with `youtu` as `youtube`; it is never `youtu` |
| `SourceType.HttpsKeywordOutOfContext` | plugins/mediaspawner/popcorn.mediaspawner.js:23 | a keyword right after "https://" is not at the start, not after a dot and not after "http://" |
| `SourceType.DocumentedExampleIsYouTube` | plugins/mediaspawner/popcorn.mediaspawner.js:13 | the plugin's documented example source is classified as `youtube` |
| `Presentation.SizeDefault` | plugins/mediaspawner/popcorn.mediaspawner.js:136-137 | a truthy user size is kept; otherwise the measured size if non-zero; otherwise the fallback; the result is always truthy |
| `Presentation.Decimal` | plugins/mediaspawner/popcorn.mediaspawner.js:213-214 | a number concatenated with "px" turns into a non-empty string of decimal digits |
| `Presentation.DecimalDenotes` | plugins/mediaspawner/popcorn.mediaspawner.js:213-214 | those digits read back as the number itself, with no leading zero |
| `Spawner.MeasuredSizeShown` | plugins/mediaspawner/popcorn.mediaspawner.js:136-137 | a player whose size the user left out is shown by `start` at the target's measured width and height in pixels, visible |
| `Presentation.DecimalExamples` | plugins/mediaspawner/popcorn.mediaspawner.js:213-214 | the measured sizes 640 and 360 render as "640" and "360", so such a player is shown at "640px" by "360px" |
| `Presentation.DestroyGuardAsWrittenSkipsDestroy` | plugins/mediaspawner/popcorn.mediaspawner.js:241-242 | every handle with a `destroy` member and no `destory` member fails the guard as written and passes the corrected one |
| `Loading.CheckPlayerTypeLoaded` | plugins/mediaspawner/popcorn.mediaspawner.js:153-169 | constructs only when the type is HTML or `Popcorn[type]` is defined; otherwise polls again on a timer, claiming nothing |
| `Loading.ConstructMedia` | plugins/mediaspawner/popcorn.mediaspawner.js:151-181 | claims and fetches the type if and only if it is non-HTML, undefined and unclaimed; the decision is sound |
| `Loading.IsPlayerReady` | plugins/mediaspawner/popcorn.mediaspawner.js:185-193 | while `Popcorn.player` is undefined, polls on a timer; once it is defined, claims and fetches the type if and only if it is non-HTML, undefined and unclaimed; the decision is sound |
| `Loading.StartLoading` | plugins/mediaspawner/popcorn.mediaspawner.js:195-201 | with `Popcorn.player` undefined, claims and fetches the module if and only if its flag is unset, and claims nothing else; with it defined, claims the type if and only if `constructMedia` would; the decision is sound |
| `Loading.Resume` | plugins/mediaspawner/popcorn.mediaspawner.js:155-157 | re-running a pending check, from a timer or a fetch callback, is sound; a resumed `isPlayerReady` with `Popcorn.player` defined claims the type if and only if it is non-HTML, undefined and unclaimed; a resumed `checkPlayerTypeLoaded` never claims |
| `Loading.ConstructsOnceLoaded` | plugins/mediaspawner/popcorn.mediaspawner.js:186-191 | once both names are defined, the next run of any check, and setup itself, construct the player |
| `Loading.NonClaimantPolls` | plugins/mediaspawner/popcorn.mediaspawner.js:172-180 | an instance finding a dependency undefined but already claimed does not fetch it and polls on a timer |
| `Spawner.MessagesDistinct` | plugins/mediaspawner/popcorn.mediaspawner.js:102-124 | the three error messages are pairwise different, so the reported message identifies the failed check |
| `Spawner.CheckSetup` | plugins/mediaspawner/popcorn.mediaspawner.js:101-125 | an empty source, then a missing target, then a vimeo or soundcloud type is each an error, in that order; otherwise the type is HTML, youtube or baseplayer |
| `Spawner.Configured` | plugins/mediaspawner/popcorn.mediaspawner.js:127-149 | source, target and autoplay kept; `_type` is the source's media type; container id is "mediaSpawnerdiv-" plus the guid; sizes defaulted and truthy; a hidden caption container exactly when a caption is given; no player yet |
| `Spawner.Construct` | plugins/mediaspawner/popcorn.mediaspawner.js:159-168 | `options.id` is the container id; the handle is built from "#" + id and the source; the only call made on it is `controls(true)`, for HTML only; surface 0px, 0px, hidden |
| `Spawner.Enter` | plugins/mediaspawner/popcorn.mediaspawner.js:204-220 | caption shown, surface at the configured size and visible, `play()` appended iff autoplay, nothing else changed |
| `Spawner.Exit` | plugins/mediaspawner/popcorn.mediaspawner.js:221-239 | caption hidden, surface 0px, 0px, hidden, `pause()` appended iff the type is HTML, nothing else changed |
| `Spawner.TornDown` | plugins/mediaspawner/popcorn.mediaspawner.js:240-245 | destroy is called iff the handle exists and has a `destory` member (the guard as written); the container is detached iff the target still exists; nothing else on the instance or the handle changes |
| `Spawner.TornDownIntended` | plugins/mediaspawner/popcorn.mediaspawner.js:240-245 | the same teardown, with the same frame, with the guard testing `destroy`, the member it calls |
| `Spawner.TeardownAsWrittenSkipsDestroy` | plugins/mediaspawner/popcorn.mediaspawner.js:241-242 | as written, a handle without a `destory` member is left exactly as it was: `destroy()` is never called on it |
| `Spawner.TeardownDestroysHandle` | plugins/mediaspawner/popcorn.mediaspawner.js:241-242 | with the corrected guard, a handle that has `destroy` is destroyed |
| `Spawner.ExitAfterEnterRestores` | plugins/mediaspawner/popcorn.mediaspawner.js:204-238 | `end` after `start` gives back the constructed instance, collapsed and hidden whatever the size; only the play/pause calls remain |
| `Spawner.AtMostOneFetchPerKey` | plugins/mediaspawner/popcorn.mediaspawner.js:172-177 | a fetch log without repeated keys fetches each key at most once, and exactly once for each key in it |
| `Spawner.ClaimKeepsRegistry` | plugins/mediaspawner/popcorn.mediaspawner.js:196-198 | setting an unset flag and logging its fetch keeps the registry equal to the fetched keys, with no key twice |
| `Spawner.Page.constructor` | plugins/mediaspawner/popcorn.mediaspawner.js:25 | a page starts with an empty registry, no fetches and no instances |
| `Spawner.Page.SymbolAppears` | plugins/mediaspawner/popcorn.mediaspawner.js:186 | a name becoming defined changes nothing else and keeps the page consistent |
| `Spawner.Page.Setup` | plugins/mediaspawner/popcorn.mediaspawner.js:93-201 | on a setup error nothing changes and the result is the message passed to `Popcorn.error`; otherwise one configured instance is added and the start-of-loading decision is carried out; a fetch happens only for an unclaimed, undefined dependency |
| `Spawner.Page.PollTick` | plugins/mediaspawner/popcorn.mediaspawner.js:155-157 | a timer re-runs the instance's pending check; the registry and fetch log change only by a sound claim |
| `Spawner.Page.FetchCompleted` | plugins/mediaspawner/popcorn.mediaspawner.js:174-176 | a fetch callback runs the check of the one instance that issued the fetch, and is then no longer pending |
| `Spawner.Page.Start` | plugins/mediaspawner/popcorn.mediaspawner.js:204-220 | instance `i` becomes `Enter` of itself; the shared state is unchanged |
| `Spawner.Page.End` | plugins/mediaspawner/popcorn.mediaspawner.js:221-239 | instance `i` becomes `Exit` of itself; the shared state is unchanged |
| `Spawner.Page.Teardown` | plugins/mediaspawner/popcorn.mediaspawner.js:240-245 | instance `i` becomes `TornDown` (as written) of itself, so a handle without `destory` is left untouched; the shared state is unchanged |
| `Spawner.SharedFetchScenario` | plugins/mediaspawner/popcorn.mediaspawner.js:172-201 | two instances on one YouTube source cause exactly one module fetch and one YouTube fetch, and both construct their player |

## Left out

- The plugin manifest (lines 42-92) is configuration data for editors and has no behaviour.
- The `Object.defineProperty` block and `playerTypesLoaded` (lines 24-40) are not modelled. `forEachPlayer` is undefined there, and the loaded map is never read.
- DOM work is not modelled: element lookup, `createElement`, `innerHTML`, `appendChild`/`removeChild`. The target is its rendered size. The container is its id and an "attached" flag. The caption container is its `display` value.
- `Popcorn.getScript`, `Popcorn.smart`, `Popcorn.guid` and the handle's `play`, `pause`, `controls` and `destroy` are recorded as calls or taken as parameters. Popcorn core is not part of this model.
- Real timers and asynchronous script execution are replaced by the events `PollTick`, `FetchCompleted` and `SymbolAppears`, delivered in any order. Wall-clock time is not modelled. Nothing is claimed about termination when a script never loads.
- Spawner.Page.Setup: treats `Popcorn.error` as ending setup at the first error. The file does not show whether `Popcorn.error` throws.
- Spawner.Page.Setup: a missing `source` is modelled as the empty string. Both are falsy, and both stop setup at the same check.
- Presentation.SizeDefault: numeric sizes are natural numbers. Fractional or negative numbers, and `NaN`, are not modelled.
- Presentation.Decimal: writes every natural in plain decimal. JavaScript switches to exponent form from 1e21 up (`1e21 + "px"` is `"1e+21px"`), and integers above 2^53 are not held exactly; neither is modelled.
- Spawner.Page.Start and Spawner.Page.End require a constructed player. The code reads `options.popcorn.media` unguarded, so calling them earlier throws after the caption is already toggled. That failure is not modelled.
- Spawner.Page.Teardown requires that the container is still attached when the target exists, because `removeChild` of a non-child throws.
- Teardown does not cancel pending checks, as in the code. An instance torn down before its player exists still constructs it later.

## Findings

| source | as written | input that shows it | evidently intended | confidence | as-written member | corrected member |
|---|---|---|---|---|---|---|
| plugins/mediaspawner/popcorn.mediaspawner.js:241 | teardown calls `destroy()` only if the handle has a member named `destory` | a constructed handle that has a `destroy` member and no `destory` member | test for `destroy`, the member called on the next line, so the player is destroyed at teardown | not executed; high | `Spawner.TeardownAsWrittenSkipsDestroy` | `Spawner.TeardownDestroysHandle` |
