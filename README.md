# Playable-ad template: a verified model of its logic

The repository is a Phaser 3 template for playable ads: one small game
built once per ad network. This project models the parts of it that are
ordinary sequential logic, and proves what they promise:

- **The multi-network build script.** `build.js` lets the user pick
  networks by `all`, by 1-based numbers or by names. For each network it
  generates a bundler configuration, runs the bundler and removes the
  configuration. It then copies the network's extra file, embeds the
  bundle into the page and rewrites the store links on the page.
- **The page plugin.** `CustomHtmlWebpackPlugin.js` points every
  `<script … src=…></script>` tag at the bundle, except the tags that load
  `mraid.js`.
- **The Phaser patcher.** `patch-phaser.js` applies four global replaces.
  Together they keep the engine away from `window.top`.
- **The ad-network manager.** It holds the Bigabid engagement counter and
  its once-only macros, and the viewability flags. It turns the game's
  calls into vendor calls, which are recorded on a trace of events.
- **The two main scenes.** `MainScene` and its single-click variant
  `MainSceneSC` each have a phase machine (0 intro, 1 tutorial, 2 play,
  3 end card, 4 after the click-out). They also have click handlers, an
  inactivity timer and localised texts.
- **The carousel.** Rows of item images laid out in cycles around a
  centre. It sets depths by distance, scrolls and wraps the end items,
  centres on an item and can be reconfigured.
- **The preloader.** It builds `data:` URLs (section 3 of RFC 2397) and
  counts assets. Its gate starts the main scene.
- **The language table.** A constant table looked up with an `en-us`
  fallback.

Modules, one per source file or shared concern:

- `Wrappers` (wrappers.dfy): `Option` and `Result`.
- `Text` (text.dfy): the JavaScript string built-ins the scripts use: `trim`, `toLowerCase`, `split`, `join`, `includes`, and `replace` with a string pattern.
- `Rewrite` (rewrite.dfy): `replace` with a global regular expression, for the expressions of the build scripts, in JavaScript's left-to-right, non-overlapping, backtracking order.
- `Selection` (selection.dfy): the network menu and the selection parser of `build.js`.
- `Build` (build.dfy): the per-network decisions of `build.js` and `createWebpackConfig`.
- `StoreLinks` (storelinks.dfy): `injectStoreLinks` and the store-link table.
- `BuildLoop` (buildloop.dfy): post-processing, one network's build, the loop over the selected networks and `main`.
- `HtmlPlugin` (htmlplugin.dfy): the page plugin.
- `Patcher` (patcher.dfy): `patchContent`.
- `AdNetwork` (adnetwork.dfy): `AdNetworkManager`.
- `Scenes` (scenes.dfy): what the two scenes share: the phase rule, the state invariant, and the localised lookup.
- `MainScene`, `MainSceneSC` (mainscene.dfy, mainscenesc.dfy): the two scene classes.
- `Carousel` (carousel.dfy): `Carousel`.
- `Preloader` (preloader.dfy): `PreloaderScene`.
- `Languages` (languages.dfy): `Languages`.

How the source is represented:

- Stateful classes are Dafny classes. Their methods carry `modifies`
  clauses.
- Each scene's method is specified by a snapshot of its fields, `State()`,
  and by which vendor calls were appended to the ad manager's trace
  (`Made`).
- The file system of the build script is a map from path to contents. The
  bundler is a function parameter that returns the file system it leaves,
  which a failing run may already have cleaned or written into, and
  whether it exited without an error.
- Timers, tweens and rendering are reduced to the flags they set.

Where the code and the repository's own description disagree, the model
follows the code:

- The description says the temporary bundler configuration is always
  removed. In the code the removal sits inside the `try` after the bundler
  call (build.js:132-135), so a failing bundler leaves it behind
  (`BuildLoop.BundlerFailureLeavesConfig`).
- Number selection keeps input order and duplicates, because it maps
  indices, not the catalog.
- `"1, 3"` and `" all"` select nothing (`Selection.CatalogSpacedNumbers`,
  `Selection.CatalogPaddedAll`).
- The inlining branch's `creative.js` alternative (build.js:189) is dead,
  because the branch already excludes `adikteev`
  (`BuildLoop.InlinedScriptIsPlayable`).
- `injectStoreLinks` is described as idempotent. For a page with a marker
  line cut across two lines, a second run still changes the page (see
  "Left out").

## Model

| member | source | states |
|---|---|---|
| Selection.CatalogSize | build.js:10-29 | the menu has 17 networks |
| Selection.CatalogNoChartboost | build.js:28 | `chartboost` is not selectable |
| Selection.CatalogDistinct | build.js:10-29 | no network is listed twice |
| Selection.Select | build.js:89-105 | every selected name is a catalog entry |
| Selection.SelectAll | build.js:91-92 | `all` in any letter case, untrimmed, selects the whole catalog in order |
| Selection.SelectByIndex | build.js:96-98 | the result is no longer than the indices, and every entry is a catalog entry |
| Selection.SelectByIndexAppend | build.js:95-98 | index selection works index by index, so input order and duplicates are kept |
| Selection.SelectByIndexSingle | build.js:97 | an index selects its entry when in range and nothing otherwise |
| Selection.SelectByIndexInRange | build.js:96-98 | in-range indices select exactly their entries, one each |
| Selection.SelectNumber | build.js:95-98 | one number `n` selects entry `n` for 1 ≤ n ≤ 17 and nothing otherwise |
| Selection.SelectNumberLists | build.js:93-98 | the selection of `a,b` is that of `a` followed by that of `b` |
| Selection.SelectNumbersPadded | build.js:93-95 | white space around a number list does not change the selection |
| Selection.SelectByNameMembership | build.js:101-104 | an entry is selected by name iff its lower-cased name is one of the tokens |
| Selection.SelectByNameOrder | build.js:102-104 | name selection keeps catalog order |
| Selection.SelectByNameDistinct | build.js:102-104 | name selection from a duplicate-free catalog has no duplicates |
| Selection.SelectByNameSetOnly | build.js:101-104 | only the set of tokens matters: their order and repetition do not |
| Selection.SelectNames | build.js:99-104 | name selection: membership iff named, catalog order, no duplicates |
| Selection.CatalogSelectNames | build.js:99-104 | the same with the script's own catalog |
| Selection.NameTokens | build.js:101 | one token per comma piece |
| Selection.PieceIndices | build.js:95 | one index per comma piece |
| Selection.CatalogSpacedNumbers | build.js:93 | numbers with a space after a comma select nothing |
| Selection.CatalogPaddedAll | build.js:91 | `all` with white space around it selects nothing |
| Text.TrimSpec | build.js:93 | `trim` removes exactly the white space at both ends |
| Text.ToLower | build.js:91 | lower-casing keeps the length and maps each character |
| Text.Split | build.js:95 | `split` pieces hold no separator |
| Text.JoinSplit | build.js:95 | joining the `split` pieces gives the text back |
| Text.SplitJoin | build.js:95 | splitting joined separator-free pieces gives the pieces back |
| Text.ReplaceFirstAt | build.js:196 | replacing a string pattern replaces only its first occurrence |
| Text.FirstOccurrence | build.js:196 | the first occurrence of the placeholder, or none |
| Build.RequiresInlining | build.js:121 | holds iff the network is `tencent` or `smadex` |
| Build.ScriptFilename | build.js:255 | `creative.js` iff the network is `adikteev`, else `playable.js` |
| Build.OutputDirInjective | build.js:256 | with one prefix, different networks never share an output directory |
| Build.CreateWebpackConfig | build.js:238-291 | fails iff the template is missing; otherwise names the network, its script, `dist/<prefix>_<network>` and its template |
| Build.ConfigIgnoresInline | build.js:238 | the `inline` argument does not affect the configuration |
| StoreLinks.LinksFor | build.js:54 | the network's links, or the default ones |
| StoreLinks.LinksForDefault | src/store-links.js:4-7 | every network gets the `google.com` default links |
| StoreLinks.InjectStoreLinks | build.js:52-68 | definition; properties in `InjectNoMarkers`, `LineMatches`, `PassRewritesLine` |
| StoreLinks.InjectNoMarkers | build.js:52-68 | a page without either assignment head is unchanged |
| StoreLinks.LineMatches | build.js:58-63 | a marker line with a quote-free link is one complete match of its expression |
| StoreLinks.PassRewritesLine | build.js:57-65 | a pass rewrites a marker line to the line with its new link and resumes after it |
| Rewrite.SkipWs | build.js:58 | greedy `\s*` stops at the first non-white-space character |
| StoreLinks.LinkScanSkipTo | build.js:58-63 | the lazy `.*?` passes over characters that are neither a quote nor a line end and ends where its tail first matches |
| StoreLinks.LineScan | build.js:58-63 | on a marker line with a quote-free link, the lazy `.*?` stops exactly at the end of the line |
| Rewrite.MatchAt | build.js:58 | a match is non-empty and begins with its pattern's literal lead |
| Rewrite.ReplaceAll | build.js:57-65 | definition of a global left-to-right replace; properties in `ReplaceAllNoLead`, `ReplaceAllUnmatchedPrefix`, `ReplaceAllInContext` |
| Rewrite.ReplaceAllNoLead | build.js:57-65 | a global replace leaves text without its pattern's lead unchanged |
| Rewrite.ReplaceAllUnmatchedPrefix | build.js:57-65 | text in which no match starts is copied |
| Rewrite.ReplaceAllInContext | build.js:57-65 | a match is substituted and the replace resumes after it |
| BuildLoop.AuxFile | build.js:137-183 | the extra file: `playable-preview.html`, `config.json`, `ad.txt` or `style.css`, only for the four networks |
| BuildLoop.CopyAuxEffect | build.js:137-183 | only the network's own extra file can appear, with the source's contents, and only when the source exists |
| BuildLoop.CopyAuxNone | build.js:137-183 | other networks get no copy |
| BuildLoop.InlinedScriptIsPlayable | build.js:186-189 | the inlining branch always looks for `playable.js` |
| BuildLoop.PostProcess | build.js:186-221 | definition; properties in `PostProcessInlines`, `PostProcessMissing`, `PostProcessInjectsOnly` |
| BuildLoop.PostProcessInlines | build.js:186-207 | inlining replaces the first placeholder with the bundle verbatim, injects the links and deletes the script; nothing else changes |
| BuildLoop.EmbedAsWrittenMangles | build.js:196 | embedding as written turns `$$` in a bundle into `$` |
| BuildLoop.EmbedAsWrittenLiteral | build.js:196 | a bundle without `$` is embedded the same either way |
| BuildLoop.PostProcessMissing | build.js:191-210 | without the page or the script, nothing changes |
| BuildLoop.PostProcessInjectsOnly | build.js:211-221 | other networks get only the link injection; their script stays |
| BuildLoop.MissingTemplateChangesNothing | build.js:242-244 | a missing template fails that network before anything is written |
| BuildLoop.NetworkStep | build.js:118-227 | definition; properties in `BundlerFailureLeavesConfig`, `BuiltRemovesConfig` |
| BuildLoop.BundlerFailureLeavesConfig | build.js:128-135 | a failing bundler leaves its configuration behind; the files are exactly what the failed run left, with no auxiliary copy and no post-processing |
| BuildLoop.BuiltRemovesConfig | build.js:134-135 | after a build the network's configuration is gone and the others remain |
| BuildLoop.BundledWithOwnConfig | build.js:125-132 | the bundler gets the network's template and output directory |
| BuildLoop.RunAll | build.js:117-228 | definition; properties in `RunAllAttemptsEvery` and `BuildScript.BuildAll` |
| BuildLoop.RunAllAttemptsEvery | build.js:117-228 | every selected network is attempted exactly once, in order, whatever the earlier ones did |
| BuildLoop.BuildScript.BuildNetwork | build.js:118-227 | one network's build, as `NetworkStep` |
| BuildLoop.BuildScript.BuildAll | build.js:117-228 | the loop, as `RunAll` over the networks |
| BuildLoop.BuildScript.Run | build.js:91-117 | builds exactly the selection; an empty selection builds nothing |
| HtmlPlugin.CustomHtmlPlugin.constructor | CustomHtmlWebpackPlugin.js:5-8 | a missing or empty file name falls back to `./src/index.html` |
| HtmlPlugin.CustomHtmlPlugin.Emit | CustomHtmlWebpackPlugin.js:11-39 | an unreadable template adds one error and no asset; otherwise the rewritten page is the asset; the callback runs once either way |
| HtmlPlugin.RewriteTags | CustomHtmlWebpackPlugin.js:20-31 | definition; properties in `NoScriptUnchanged`, `MraidTagKept`, `OtherTagReplaced`, `BundleTagStable` |
| HtmlPlugin.NoScriptUnchanged | CustomHtmlWebpackPlugin.js:20-31 | a page without `<script` is emitted unchanged |
| HtmlPlugin.MraidTagKept | CustomHtmlWebpackPlugin.js:24-27 | a matched tag whose source holds `mraid.js` is kept verbatim; the text around it is copied or rewritten on its own |
| HtmlPlugin.OtherTagReplaced | CustomHtmlWebpackPlugin.js:28-29 | every other matched tag becomes exactly the bundle's tag |
| HtmlPlugin.BundleTagMatches | CustomHtmlWebpackPlugin.js:22 | the bundle's tag is a complete match whose group is the bundle's name |
| HtmlPlugin.BundleTagStable | CustomHtmlWebpackPlugin.js:21-31 | a rewritten tag rewrites to itself |
| Patcher.PatchContent | patch-phaser.js:5-19 | definition; properties in `PatchUntouched`, `LiteralPassAt`, `IsTopPassAt`, `PatchIsSinglePass` |
| Patcher.LiteralMatch | patch-phaser.js:9 | a literal pattern matches exactly where it occurs |
| Patcher.LiteralPassAt | patch-phaser.js:9-12 | a literal pass replaces the leftmost occurrence and resumes after it |
| Patcher.PatchUntouched | patch-phaser.js:5-19 | content with none of the patterns is returned unchanged |
| Patcher.PatchIsSinglePass | patch-phaser.js:9-12 | the patch is not a fixpoint: `window.top.top` becomes `window.top` |
| Patcher.IsTopMatches | patch-phaser.js:15-16 | `this.isTop`, white space, `=`, white space and the right-hand side is one match |
| Patcher.IsTopPassAt | patch-phaser.js:15-16 | an `isTop` pass rewrites an assignment with any white space to the compact form |
| Patcher.IsTopSpacedTrue | patch-phaser.js:15 | `this.isTop = !0;` becomes `this.isTop=!1;` |
| AdNetwork.NetworkOf | src/js/utils/AdNetworkManager.js:3-5 | `AD_NETWORK`, or `default`, in production; `development` otherwise |
| AdNetwork.FireMacro | src/js/utils/AdNetworkManager.js:18-28 | one pixel request iff the macro table has a non-empty URL for the name |
| AdNetwork.Engage | src/js/utils/AdNetworkManager.js:30-53 | definition; properties in `EngageTimesFromStart`, `EngageMonotone`, `EngageEvents` |
| AdNetwork.EngageTimesFromStart | src/js/utils/AdNetworkManager.js:30-53 | after n ≥ 1 interactions from the start the count is n, `engagement` fired exactly once, and `complete` then `final_url` fired once each, iff n ≥ 3 |
| AdNetwork.EngageMonotone | src/js/utils/AdNetworkManager.js:33-48 | the count goes up by one and the flags never revert |
| AdNetwork.EngageEvents | src/js/utils/AdNetworkManager.js:36-52 | the pixel requests of one interaction, macro by macro |
| AdNetwork.CtaEvents | src/js/utils/AdNetworkManager.js:55-146 | definition; properties in `BigabidCtaOrder`, `CtaAlwaysClicksOut` |
| AdNetwork.EndEvents | src/js/utils/AdNetworkManager.js:148-169 | definition; used by `AdNetworkManager.EndGameAd` and the scenes' phase-2 update |
| AdNetwork.BigabidCtaOrder | src/js/utils/AdNetworkManager.js:135-141 | Bigabid's click fires `click`, `complete`, `final_url` in that order, whatever its flags |
| AdNetwork.CtaAlwaysClicksOut | src/js/utils/AdNetworkManager.js:55-146 | every store network's click-out makes a vendor call |
| AdNetwork.AdNetworkManager.constructor | src/js/utils/AdNetworkManager.js:2-15 | the network, all flags off, the counter at 0 |
| AdNetwork.AdNetworkManager.FireBigabidMacro | src/js/utils/AdNetworkManager.js:18-28 | appends the macro's request, if any, and changes no flag |
| AdNetwork.AdNetworkManager.HandleBigabidEngagement | src/js/utils/AdNetworkManager.js:30-53 | on Bigabid, one interaction as `Engage`; elsewhere nothing changes |
| AdNetwork.AdNetworkManager.ClickCTA | src/js/utils/AdNetworkManager.js:55-146 | appends the network's click-out calls and changes no flag |
| AdNetwork.AdNetworkManager.EndGameAd | src/js/utils/AdNetworkManager.js:148-169 | appends the network's end calls and changes no flag |
| AdNetwork.AdNetworkManager.StartGameAd | src/js/utils/AdNetworkManager.js:171-198 | `Started`: Mintegral's start call; on Unity and ironSource a visible ad starts the game; Bigabid's `game_viewable`; other networks nothing; visibility and Bigabid flags kept |
| AdNetwork.AdNetworkManager.LoadedGameAd | src/js/utils/AdNetworkManager.js:200-278 | ironSource: readiness from the current MRAID state, a start attempted with the old visibility, then the visibility read; Unity: an ad already on screen is visible; Mintegral: `gameReady`; Bigabid: `mraid_viewable`; otherwise nothing |
| AdNetwork.AdNetworkManager.TryStartGame | src/js/utils/AdNetworkManager.js:209-218 | the game starts iff visible, ready and playable, or it had started; the flags are kept |
| AdNetwork.AdNetworkManager.OnMraidReady | src/js/utils/AdNetworkManager.js:222-226 | MRAID is ready and a start is attempted |
| AdNetwork.AdNetworkManager.OnStateChange | src/js/utils/AdNetworkManager.js:230-234 | playable iff `default` or `expanded`, and a start is attempted |
| AdNetwork.ViewableAtLoad | src/js/utils/AdNetworkManager.js:171-278 | on Unity and ironSource, an ad on screen at load has not started after the load and has started after `startGameAd` |
| AdNetwork.ReadyThenPlayable | src/js/utils/AdNetworkManager.js:200-241 | on ironSource, loading while MRAID loads: no start at load or at `ready`, a start once the state becomes playable |
| AdNetwork.AdNetworkManager.HandleViewableChange | src/js/utils/AdNetworkManager.js:294-316 | ignored except on Unity and ironSource; there the flag follows the event, a visible ad starts the game, and `gameStarted` never reverts |
| Scenes.Updated | src/js/MainScene.js:736-757 | definition; properties in `UpdatedConsistent`, `PhaseStep`, `PlayingStaysBelowGameOver`, `PhaseBounded` |
| Scenes.NextPhase | src/js/MainScene.js:736-757 | definition; properties in `PhaseStep`, `PhaseBounded` |
| Scenes.UpdatedConsistent | src/js/MainScene.js:736-757 | an update keeps the scene invariant |
| Scenes.PhaseStep | src/js/MainScene.js:736-757 | an update moves the phase by exactly one when its condition holds and leaves it otherwise |
| Scenes.PlayingStaysBelowGameOver | src/js/MainScene.js:736-746 | before game over, updates never take the phase past 2 |
| Scenes.PhaseBounded | src/js/MainScene.js:736-757 | updates never take the phase past 4 |
| Scenes.Localized | src/js/MainScene.js:694-699 | the text is the key or the table's translation |
| Scenes.LocalizedCases | src/js/MainScene.js:694-699 | a non-empty translation is returned; without one, the key |
| MainScene.FallbackAsWrittenUnused | src/js/MainScene.js:54-62 | the fallback table keyed `en` is never shown in `en-us`; keyed `en-us` it is |
| MainScene.MainScene.constructor | src/js/MainScene.js:8-32 | the initial scene state, a fresh ad manager |
| MainScene.MainScene.LoadLanguages | src/js/MainScene.js:50-63 | the cached table, or the fallback, keyed by the start language |
| MainScene.MainScene.SetLanguage | src/js/MainScene.js:702-709 | the language changes only to one the table defines |
| MainScene.MainScene.StartTutTextTween | src/js/MainScene.js:209-219 | the tween runs; nothing else changes |
| MainScene.MainScene.StopTutTextTween | src/js/MainScene.js:222-228 | no tween runs afterwards; a second call changes nothing |
| MainScene.MainScene.GameOverMan | src/js/MainScene.js:646-650 | the phase moves on only if there was no first click yet; afterwards there was |
| MainScene.MainScene.ClickCTA | src/js/MainScene.js:241-252 | the click-out; before phase 3 the game ends at phase 3 with the first click set |
| MainScene.MainScene.HandleCTAClick | src/js/MainScene.js:231-238 | acts once, before game over: the end call and the click-out; otherwise nothing |
| MainScene.MainScene.InactivityTimer | src/js/MainScene.js:255-271 | the timer is cleared; outside the end state the delay goes back to 4000 |
| MainScene.MainScene.ResetInactivityTimer | src/js/MainScene.js:274-279 | a new timer with the current delay; inactivity is on |
| MainScene.MainScene.Resize | src/js/MainScene.js:447-473 | a game in play that went inactive gets `inactivityTimer`'s reset and is active again; otherwise nothing changes; the invariant is kept |
| MainScene.MainScene.TransitionEnd | src/js/MainScene.js:604-633 | at once the game is over and `gameOverMan` is pending, with nothing else in the scene state changed; consistency is kept, and the invariant after a first click |
| MainScene.MainScene.FirePendingGameOverMan | src/js/MainScene.js:625-629 | a pending `gameOverMan` runs once: the phase moves on iff there was no first click, which there is afterwards; without one nothing changes |
| MainScene.TimeUp | src/js/MainScene.js:604-658 | `transitionEnd` and then its delayed `gameOverMan` leave the game over after a first click, the phase moved on iff there was none, and the invariant restored |
| MainScene.MainScene.HandleGlobalClick | src/js/MainScene.js:282-302 | end state: click out once; first click: mark it, restart the timer, count a Bigabid interaction; else restart the timer |
| MainScene.MainScene.Update | src/js/MainScene.js:721-757 | the state after the frame is `Updated` of the one before; in phase 0 the ad manager does what `startGameAd` does (`AdNetworkManager.Started`); in phase 2 the end calls |
| MainSceneSC.FontSizeCases | src/js/MainSceneSC.js:38-59 | `36px` for `ja-jp`, `32px` for `ru-ru`, `48px` otherwise |
| MainSceneSC.MainScene.constructor | src/js/MainSceneSC.js:10-61 | the initial scene state and the start language's font size, 48px |
| MainSceneSC.MainScene.LoadLanguages | src/js/MainSceneSC.js:80-92 | the fallback table, keyed `en-us`, is installed unless a table is there |
| MainSceneSC.MainScene.SetLanguage | src/js/MainSceneSC.js:617-624 | the language changes only to one the table defines |
| MainSceneSC.MainScene.StartTutTextTween | src/js/MainSceneSC.js:278-288 | the tween runs; nothing else changes |
| MainSceneSC.MainScene.StopTutTextTween | src/js/MainSceneSC.js:291-297 | no tween runs afterwards; a second call changes nothing |
| MainSceneSC.MainScene.GameOverMan | src/js/MainSceneSC.js:597-606 | the end call; the phase moves on only if there was a first click |
| MainSceneSC.MainScene.GameClickCTA | src/js/MainSceneSC.js:310-322 | the click-out; before phase 3 the end call too, and the game ends at phase 3 |
| MainSceneSC.MainScene.HandleCTAClick | src/js/MainSceneSC.js:300-307 | acts once, before game over: end call, click-out, end call |
| MainSceneSC.MainScene.InactivityTimer | src/js/MainSceneSC.js:325-341 | the timer is cleared; outside the end state the delay goes back to 4000 |
| MainSceneSC.MainScene.ResetInactivityTimer | src/js/MainSceneSC.js:344-349 | a new timer with the current delay; inactivity is on |
| MainSceneSC.MainScene.Resize | src/js/MainSceneSC.js:476-507 | a game in play that went inactive gets `inactivityTimer`'s reset and is active again; otherwise nothing changes; the invariant is kept |
| MainSceneSC.MainScene.FirstTap | src/js/MainSceneSC.js:358-364 | the first tap marks the first click, clicks out, ends the game at phase 3 and counts one Bigabid interaction after the click-out calls |
| MainSceneSC.MainScene.HandleGlobalClick | src/js/MainSceneSC.js:352-366 | end state: click out once; the first tap is itself the click-out and ends the game at phase 3; any other tap does nothing |
| MainSceneSC.MainScene.Update | src/js/MainSceneSC.js:636-680 | the state after the frame is `Updated` of the one before; in phase 0 the ad manager does what `startGameAd` does (`AdNetworkManager.Started`); in phase 2 the end calls |
| Carousel.CeilDiv | src/js/utils/Carousel.js:100-101 | `Math.ceil(a / b)`: the least r with r·b ≥ a |
| Carousel.CyclesAtLeastThree | src/js/utils/Carousel.js:100-101 | for a non-negative width, at least three cycles are built |
| Carousel.Built | src/js/utils/Carousel.js:109-134 | definition; properties in `BuiltLayout`, `MiddleAtCentre`, `CreateItems` |
| Carousel.BuiltLayout | src/js/utils/Carousel.js:112-132 | item k has cycle k div count, position k mod count, texture (k mod count) mod min(count, 5), and lies one spacing after item k−1 |
| Carousel.MiddleAtCentre | src/js/utils/Carousel.js:104-109 | the middle item of the middle cycle is at x = 0 |
| Carousel.CreateItems | src/js/utils/Carousel.js:109-134 | the two creation loops build exactly the layout `Built` |
| Carousel.Staged | src/js/utils/Carousel.js:209-245 | definition; same length; properties in `DepthByDistance`, `StagedIdempotent` |
| Carousel.DepthByDistance | src/js/utils/Carousel.js:214-243 | depth 1..3, never lower nearer the centre, 3 at the centre, symmetric |
| Carousel.StagedIdempotent | src/js/utils/Carousel.js:209-245 | setting depths twice equals setting them once; only depths change |
| Carousel.Shifted | src/js/utils/Carousel.js:157-163 | definition; same length; properties in `ShiftKeepsGaps`, `ShiftCentres`, `ShiftItems` |
| Carousel.ShiftKeepsGaps | src/js/utils/Carousel.js:161-163 | a uniform shift keeps the distance between any two items |
| Carousel.ShiftCentres | src/js/utils/Carousel.js:158-166 | shifting by an item's negated position puts it at x = 0 with depth 3 |
| Carousel.Wrapped | src/js/utils/Carousel.js:248-279 | definition; same length; properties in `WrapOnlyEnds`, `WrapLeftmostGoesRight`, `WrapRightmostGoesLeft` |
| Carousel.WrapOnlyEnds | src/js/utils/Carousel.js:248-279 | only the leftmost and the rightmost items can move |
| Carousel.WrapLeftmostGoesRight | src/js/utils/Carousel.js:271-273 | a wrapped leftmost item ends one spacing right of the old rightmost |
| Carousel.WrapRightmostGoesLeft | src/js/utils/Carousel.js:276-278 | a wrapped rightmost item ends one spacing left of the old leftmost |
| Carousel.SpeedNeverRebuilds | src/js/utils/Carousel.js:378-401 | a new scroll speed alone, or the current item count, never rebuilds |
| Carousel.FindClosest | src/js/utils/Carousel.js:142-154 | the search yields the first kept item nearest the centre, and yields none iff no item is kept |
| Carousel.ShiftItems | src/js/utils/Carousel.js:157-163 | every item moves by the offset; nothing else about the items changes |
| Carousel.FindEnds | src/js/utils/Carousel.js:249-264 | the search yields the first leftmost and the first rightmost item |
| Carousel.Carousel.constructor | src/js/utils/Carousel.js:2-42 | the default count, spacing, speed, width, scales, alphas and keys |
| Carousel.Carousel.UpdateItemStates | src/js/utils/Carousel.js:209-245 | every item's depth follows its distance from the centre; nothing else changes |
| Carousel.Carousel.BuildItems | src/js/utils/Carousel.js:109-134 | the items become `Built` for the given cycles |
| Carousel.Carousel.CreateCarouselItems | src/js/utils/Carousel.js:94-138 | the items become the layout of the current settings, depths set |
| Carousel.Carousel.CreateCarousel | src/js/utils/Carousel.js:45-69 | position with fallback to the scene's centre, width if given, cycle width, and the layout |
| Carousel.Carousel.CenterItemByIndex | src/js/utils/Carousel.js:141-168 | the first nearest item with the texture goes to x = 0, all shifted alike; without one nothing changes |
| Carousel.Carousel.GetCenteredItem | src/js/utils/Carousel.js:320-333 | the first item nearest the centre, none iff there are no items; nothing changes |
| Carousel.Carousel.WrapItems | src/js/utils/Carousel.js:248-279 | the items are `Wrapped` at the first leftmost and the first rightmost item |
| Carousel.Carousel.StartScrolling | src/js/utils/Carousel.js:171-178 | scrolling is on; if it already was, nothing changes |
| Carousel.Carousel.StopScrolling | src/js/utils/Carousel.js:198-206 | scrolling is off and no scroll tween is left |
| Carousel.Carousel.UpdateScroll | src/js/utils/Carousel.js:181-195 | while scrolling, every item moves left by the amount, depths follow, the ends wrap |
| Carousel.Carousel.SetCarouselWidth | src/js/utils/Carousel.js:336-347 | the width changes; an existing carousel is rebuilt for it |
| Carousel.Carousel.ConfigureItemStates | src/js/utils/Carousel.js:365-375 | given scales and alphas replace the current ones; depths are set again |
| Carousel.Carousel.ConfigureCarousel | src/js/utils/Carousel.js:378-421 | given values replace the current ones; the items are rebuilt iff the structure changed and a container exists; scrolling is as before |
| Carousel.Carousel.ApplyConfig | src/js/utils/Carousel.js:379-398 | the settings part; reports whether a rebuild is needed |
| Carousel.Carousel.Rebuild | src/js/utils/Carousel.js:401-420 | the rebuild part; scrolling resumes iff it was on |
| Carousel.Carousel.Destroy | src/js/utils/Carousel.js:449-459 | scrolling stops and the items are gone |
| Preloader.CreateBase64Url | src/js/PreloaderScene.js:146-153 | a `data:` URL is kept; anything else becomes `data:<mime>;base64,<data>` |
| Preloader.CreateBase64UrlIdempotent | src/js/PreloaderScene.js:148-152 | wrapping twice is wrapping once, whatever the second MIME type |
| Preloader.PreloaderScene.constructor | src/js/PreloaderScene.js:4-14 | all counters 0, both flags off |
| Preloader.PreloaderScene.AddAudio | src/js/PreloaderScene.js:164-168 | the audio total goes up by one; nothing else changes |
| Preloader.PreloaderScene.AddTexture | src/js/PreloaderScene.js:170-174 | the texture total goes up by one; nothing else changes |
| Preloader.PreloaderScene.AddSpritesheet | src/js/PreloaderScene.js:176-181 | the sheet total goes up by one; the sheet is requested under its data URL |
| Preloader.PreloaderScene.AddAtlas | src/js/PreloaderScene.js:155-162 | the atlas is requested under two data URLs; nothing is counted |
| Preloader.PreloaderScene.AddBitmapText | src/js/PreloaderScene.js:137-144 | the font is requested under two data URLs; nothing is counted |
| Preloader.PreloaderScene.Preload | src/js/PreloaderScene.js:57-60 | every listed file is counted once, by kind |
| Preloader.PreloaderScene.IncrementDecodedTexture | src/js/PreloaderScene.js:183 | one more decoded texture; an open gate stays open |
| Preloader.PreloaderScene.IncrementDecodedAudio | src/js/PreloaderScene.js:184 | one more decoded audio file; an open gate stays open |
| Preloader.PreloaderScene.FontsSettled | src/js/PreloaderScene.js:114-134 | the fonts count as loaded, whether loading succeeded or not; an open gate stays open |
| Preloader.PreloaderScene.OnLoadComplete | src/js/PreloaderScene.js:187-190 | every sheet counts as loaded and the main scene may start; an open gate stays open |
| Preloader.PreloaderScene.Create | src/js/PreloaderScene.js:192-195 | the main scene may start; an open gate stays open |
| Preloader.PreloaderScene.Update | src/js/PreloaderScene.js:197-207 | starts the main scene iff allowed, every count has reached its total and the fonts are loaded |
| Preloader.LoadToStart | src/js/PreloaderScene.js:183-207 | after registering the files, one decode per audio file and texture and the load completing, the gate is still closed until the fonts settle, and then opens |
| Languages.Lookup | src/data/Languages.js:70-73 | definition; properties in `LookupCases`, `LookupComplete` |
| Languages.LookupCases | src/data/Languages.js:70-73 | a known code gets its own texts; any other gets the `en-us` texts |
| Languages.TableComplete | src/data/Languages.js:8-69 | every language defines the four keys, with font size 48px |
| Languages.LookupComplete | src/data/Languages.js:70-73 | whatever the code, the texts define every key, with 48px |
| Languages.Languages.constructor | src/data/Languages.js:2-5 | the current language starts as `en-us` |
| Languages.Languages.GetLanguageData | src/data/Languages.js:7-74 | installs the same constant table every time and returns the lookup |

## Findings

| source | as written | input that shows it | evidently intended | confidence | as-written member | corrected member |
|---|---|---|---|---|---|---|
| build.js:196 | the bundle is the replacement string of `replace`, so its `$` patterns are expanded | a bundle holding `a$$b` is embedded as `a$b` | the bundle embedded verbatim | not executed | BuildLoop.EmbedAsWrittenMangles | BuildLoop.PostProcessInlines |
| src/js/MainScene.js:56-62 | the fallback table is keyed `en`, while the scene's language is `en-us` (:11) and the lookup (:694-699) uses it | no cached table: `getLocalizedText('play_now')` returns `play_now` | the fallback texts shown, keyed `en-us` as in src/js/MainSceneSC.js:86 | not executed | MainScene.FallbackAsWrittenUnused | MainScene.MainScene.LoadLanguages |

## Left out

- File system, prompts, console output and the bundler process of `build.js` are not modelled directly. Files are a map, the selection and the prefix are parameters, and the bundler is a function parameter.
- The file loops of `patch-phaser.js` (lines 22-60) are I/O and left out.
- The replacement-string `$` patterns of the store-link replaces (build.js:57-65) are not modelled: the links are literal text, and the configured links hold no `$`.
- StoreLinks.InjectStoreLinks: idempotence is not claimed. Take the page `var url = 'a var android = 'b';\n// ANDROID'; // IOS`. The first run rewrites only the Android line, because the lazy `.*?` cannot cross the line break. That joins the `url` assignment with `// IOS`, so a second run rewrites it. What the model proves is that one pass rewrites a marker line to its new link and resumes after it (`StoreLinks.PassRewritesLine`).
- HtmlPlugin.BundleTagStable: it states that the bundle's tag at the front rewrites to itself. It does not state that a whole rewritten page is a fixpoint.
- Timers, tweens, particles, rendering, sounds, the responsive layout and DOM listeners are not modelled. Each is reduced to the flag it sets: a pending timer is its delay, a tween is a boolean.
- Vendor SDK calls are not modelled. Each is an event appended to the ad manager's trace.
- `audioVolumeChange` of the ad manager makes only a vendor call (`mraid.setVolume` on ironSource) and is not modelled.
- AdNetwork.AdNetworkManager.LoadedGameAd: the listener registrations and the SDK queries `mraid.getState()` and `mraid.isViewable()` are not events; their answers are the `sdk` parameter, and the listeners are the methods `OnMraidReady`, `OnStateChange` and `HandleViewableChange`. Applovin's lone `mraid.getState()` is therefore no effect. `TryStartGame`, `OnMraidReady` and `OnStateChange` require ironSource, the only network that creates them.
- The scenes' `create` beyond language loading also calls the ad manager's `loadedGameAd` and registers the DOM listeners (src/js/MainScene.js:78, 372). `loadedGameAd` is modelled on the manager alone (`AdNetwork.AdNetworkManager.LoadedGameAd`), and the listeners are the scene and manager methods they call; the rest of `create`, and `endModual`, are rendering. Of `resize` and `transitionEnd`, only the flag effects are modelled (`Resize`, `TransitionEnd`, and `FirePendingGameOverMan` for the delayed call): pausing the scene, the ember emitter, the hand tweens, the text fade and the layout are engine calls. The fade-in and the two-second wait before the delayed call are not timed; the call is a separate method.
- MainScene.MainScene.GameOverMan: only its flag part is modelled; `endModual` and the CTA tween are rendering.
- MainScene.MainScene.SetLanguage and MainSceneSC.MainScene.SetLanguage require a loaded table. Called before `create`, the source throws a `TypeError`, which is not modelled.
- Text.ToLower: only the ASCII letters A-Z are lowered. JavaScript's `toLowerCase` also lowers other letters, such as U+212A KELVIN SIGN to `k`, and turns U+0130 into two code units. A selection spelled with such letters is matched differently in the source, and the length preservation proved here does not hold there.
- HtmlPlugin.CustomHtmlPlugin.Emit: the recorded asset size is the number of characters of the page. The source's `length` counts UTF-16 code units, which is larger for characters outside the Basic Multilingual Plane.
- Languages.Languages.GetLanguageData: only the table's own keys are found. In JavaScript a code naming an inherited object property, such as `constructor` or `toString`, finds that property instead of falling back.
- MainScene.MainScene.SetLanguage and MainSceneSC.MainScene.SetLanguage: the same inherited-key lookup of the language table is not modelled.
- StoreLinks.LinksFor: the same inherited-key lookup of the store-link table is not modelled; such a network name falls back to the default links here.
- Scenes.Localized: JavaScript would also find inherited object properties such as `constructor` as keys. Maps have no such keys, so this is not modelled.
- Carousel positions are whole pixels. The delta-time scroll amount is an integer parameter of `UpdateScroll`. The scale and alpha interpolation (`Phaser.Math.Linear`) is not modelled; depths are.
- The carousel's `scaleFactor` is a whole number ≥ 1 here. On a device it comes from a float division.
- `scrollToNext`, `scrollToPrevious`, `setPosition`, `setVisible`, the mask, the debug bounds and `updateCarouselPosition` are tween and rendering calls, and are not modelled.
- Carousel.Carousel.WrapItems requires items. On an empty carousel the source dereferences `null` and throws.
- Carousel.Carousel.UpdateScroll requires items while scrolling. `startScrolling` before `createCarousel` makes every frame's `wrapItems` dereference `null` and throw (src/js/utils/Carousel.js:181-195, 260-280); that error path is not modelled.
- Carousel.Carousel.ConfigureCarousel and Carousel.Carousel.ApplyConfig require a positive item count and spacing. The source's settings step (src/js/utils/Carousel.js:379-398) accepts any values, but building items with them does not terminate. A zero count makes `totalCycles` infinite, so the outer creation loop (line 112) never ends. A zero spacing with a positive width makes `visibleItems` infinite, so the loop pushes items forever. A zero spacing with a zero width gives `NaN` bounds and positions and no items. With a container the hang comes at once; without one the values are kept and it comes at the next `createCarousel`. Runs that do not terminate are not modelled. Negative values are excluded too, although the source terminates on them: a negative count builds nothing, because the inner creation loop never runs (line 113); a negative spacing builds a row laid out right to left, each item one spacing to the left of the one before, or nothing once the width spans so many spacings that `totalCycles` is zero or below.
- AdNetwork.CtaEvents: on ironSource and Unity with no global `url`, the model records `mraid.open` with no target. The source's `mraid.open(url)` (src/js/utils/AdNetworkManager.js:93, 120) then throws a `ReferenceError` on the undeclared name, and the scene's click handler stops before it ends the game. That error path is not modelled.
- The preloader's `incrementDecodedSpritesheet` increments a field that is never initialised or read. It is not modelled.
- The asynchronous font load of the preloader is the single event `FontsSettled`.
