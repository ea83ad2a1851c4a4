/**
 * The ad-network manager of the game: it knows which network the build is
 * for, keeps the Bigabid engagement counter with its once-only macro flags
 * and the viewability flags, and turns the game's calls into the vendor
 * calls of that network. Vendor calls are recorded as events on a trace.
 */
module AdNetwork {
  import opened Wrappers

  /** A vendor call made by the manager. */
  datatype Event =
    /** An image request to a tracking URL (the Bigabid macros, the Adikteev click pixel). */
    | Pixel(url: string)
    /** `window.open(target)`. */
    | WindowOpen(target: Option<string>)
    /** `window.location.href = target`. */
    | Navigate(location: string)
    /** `ExitApi.exit()`. */
    | ExitApiExit
    /** `mraid.open(target)`. */
    | MraidOpen(target: Option<string>)
    /** `FbPlayableAd.onCTAClick()`. */
    | FbCtaClick
    /** `window.openAppStore()`. */
    | OpenAppStore
    /** `window.gameStart()`, `window.gameEnd()`, `window.gameClose()`, `window.install()`. */
    | GameStart
    | GameEnd
    | GameClose
    | Install
    /** `window.gameReady()`. */
    | GameReady
    /** `parent.postMessage(message, '*')`. */
    | PostMessage(message: string)
    /** The `adViewableChange` event dispatched to the page. */
    | ViewableChange(viewable: bool)

  /** The page globals the manager consults. */
  datatype Globals = Globals(
    /** `window.BIGABID_BIDTIMEMACROS`, when defined. */
    macros: Option<map<string, string>>,
    /** The global `url`, when defined. */
    url: Option<string>,
    /** Whether `window.ExitApi` is defined. */
    exitApi: bool,
    /** `AK_CLICK_PIXEL_URL` and `AK_CLICK_DESTINATION_URL`, when defined. */
    clickPixel: Option<string>,
    clickDestination: Option<string>,
    /** Whether `window.gameEnd`, `window.install` and `window.gameReady` are defined. */
    gameEnd: bool,
    install: bool,
    gameReady: bool)

  /** The network of the build: `AD_NETWORK` (or `default`) in production, else `development`. */
  function NetworkOf(production: bool, adNetwork: Option<string>): (n: string)
    ensures !production ==> n == "development"
    ensures production && adNetwork.Some? && adNetwork.value != "" ==> n == adNetwork.value
    ensures production && (adNetwork.None? || adNetwork.value == "") ==> n == "default"
  {
    if !production then "development"
    else if adNetwork.Some? && adNetwork.value != "" then adNetwork.value
    else "default"
  }

  /** `fireBigabidMacro(name)`: one image request when the macro table has a non-empty URL for it. */
  function FireMacro(macros: Option<map<string, string>>, name: string): (events: seq<Event>)
    ensures |events| <= 1
    ensures events != [] <==> macros.Some? && name in macros.value && macros.value[name] != ""
    ensures events != [] ==> events == [Pixel(macros.value[name])]
  {
    if macros.Some? && name in macros.value && macros.value[name] != "" then [Pixel(macros.value[name])] else []
  }

  /** Firing several macros in turn. */
  function FireMacros(macros: Option<map<string, string>>, names: seq<string>): (events: seq<Event>)
    ensures |events| <= |names|
  {
    if names == [] then [] else FireMacro(macros, names[0]) + FireMacros(macros, names[1..])
  }

  /** The Bigabid engagement state: the interaction count and the two once-only flags. */
  datatype Engagement = Engagement(count: nat, engaged: bool, completed: bool)

  /**
   * One Bigabid interaction: the count goes up by one, `engagement` fires
   * on the first call and `complete` then `final_url` on the call on which
   * the count first reaches 3. Returns the new state and the macros fired.
   */
  function Engage(e: Engagement): (Engagement, seq<string>) {
    var count := e.count + 1;
    var first := if !e.engaged then ["engagement"] else [];
    var done := count >= 3 && !e.completed;
    var last := if done then ["complete", "final_url"] else [];
    (Engagement(count, true, e.completed || done), first + last)
  }

  /** The state and the macros fired after `n` interactions from `e`. */
  function EngageTimes(e: Engagement, n: nat): (Engagement, seq<string>) {
    if n == 0 then (e, [])
    else
      var (e1, fired) := EngageTimes(e, n - 1);
      var (e2, more) := Engage(e1);
      (e2, fired + more)
  }

  /**
   * From the initial state, `n` interactions count to `n`, fire
   * `engagement` exactly once, and fire `complete` and `final_url` once
   * each, after it, exactly when there were at least three.
   */
  lemma {:induction false} EngageTimesFromStart(n: nat)
    requires n >= 1
    ensures EngageTimes(Engagement(0, false, false), n)
      == (Engagement(n, true, n >= 3), ["engagement"] + (if n >= 3 then ["complete", "final_url"] else []))
  {
    if n > 1 {
      EngageTimesFromStart(n - 1);
      var (e1, fired) := EngageTimes(Engagement(0, false, false), n - 1);
      assert e1 == Engagement(n - 1, true, n - 1 >= 3);
      if n == 3 {
        assert fired == ["engagement"];
        assert Engage(e1).1 == ["complete", "final_url"];
      } else {
        assert Engage(e1).1 == [];
        assert fired + [] == fired;
      }
    } else {
      var s := Engagement(0, false, false);
      var fired: seq<string> := ["engagement"];
      assert fired + [] == fired;
      assert Engage(s) == (Engagement(1, true, false), fired);
      assert [] + fired == fired;
    }
  }

  /** The flags never revert and the count never goes down. */
  lemma EngageMonotone(e: Engagement)
    ensures var e' := Engage(e).0;
      e'.count == e.count + 1 && e'.engaged && (e.completed ==> e'.completed)
  {
  }

  /** What the MRAID SDK answers while the ad loads: `mraid.getState()` and `mraid.isViewable()`. */
  datatype MraidStatus = MraidStatus(state: string, viewable: bool)

  /** The MRAID states in which ironSource lets the game start. */
  predicate Playable(state: string) {
    state == "default" || state == "expanded"
  }

  /** The ad is usable by the viewability flags only on these networks. */
  predicate TracksViewability(network: string) {
    network == "unity" || network == "ironsource"
  }

  /** The vendor calls of `clickCTA` on a network. */
  function CtaEvents(network: string, g: Globals): seq<Event> {
    if network == "development" then (if g.url.Some? then [WindowOpen(g.url)] else [])
    else if network == "google" then (if g.exitApi then [ExitApiExit] else [])
    else if network == "adikteev" then
      (if g.clickPixel.Some? then [Pixel(g.clickPixel.value)] else []) + [MraidOpen(g.clickDestination)]
    else if network == "aarki" then [WindowOpen(None)]
    else if network == "ironsource" || network == "unity" then [MraidOpen(g.url)]
    else if network in {"facebook", "moloco", "tencent"} then [FbCtaClick]
    else if network in {"applovin", "liftoff", "adcolony", "chartboost"} then [MraidOpen(None)]
    else if network == "tiktok" then [OpenAppStore]
    else if network == "smadex" then [Navigate("{$CLICK_TRACK_URL$}"), WindowOpen(Some("{$CLICK_TRACK_URL$}"))]
    else if network == "mintegral" then
      (if g.gameEnd then [GameEnd] else []) + [GameClose] + (if g.install then [Install] else [])
    else if network == "vungle" then [PostMessage("download")]
    else if network == "bigabid" then FireMacros(g.macros, ["click", "complete", "final_url"])
    else []
  }

  /**
   * The click-out of every network other than the development build,
   * Google and Bigabid always makes a vendor call; Google needs its exit
   * API and the development build its `url`.
   */
  lemma CtaAlwaysClicksOut(network: string, g: Globals)
    requires network in {"aarki", "adcolony", "adikteev", "applovin", "facebook", "ironsource", "liftoff",
                         "mintegral", "moloco", "smadex", "tencent", "tiktok", "unity", "vungle"}
    ensures CtaEvents(network, g) != []
  {
  }

  /** Bigabid's click fires `click`, `complete` and `final_url`, in that order, as far as the table defines them. */
  lemma BigabidCtaOrder(g: Globals)
    ensures CtaEvents("bigabid", g)
      == FireMacro(g.macros, "click") + FireMacro(g.macros, "complete") + FireMacro(g.macros, "final_url")
  {
    FireMacrosPair(g.macros, "complete", "final_url");
    var names := ["click", "complete", "final_url"];
    assert names[1..] == ["complete", "final_url"];
  }

  /** Firing two macros in turn. */
  lemma FireMacrosPair(macros: Option<map<string, string>>, a: string, b: string)
    ensures FireMacros(macros, [a, b]) == FireMacro(macros, a) + FireMacro(macros, b)
  {
    assert [a, b][1..] == [b];
    assert [b][1..] == [];
  }

  /** The image requests of one interaction, macro by macro. */
  lemma EngageEvents(macros: Option<map<string, string>>, e: Engagement)
    ensures FireMacros(macros, Engage(e).1)
      == (if !e.engaged then FireMacro(macros, "engagement") else [])
         + (if e.count + 1 >= 3 && !e.completed then FireMacro(macros, "complete") + FireMacro(macros, "final_url") else [])
  {
    var first: seq<string> := if !e.engaged then ["engagement"] else [];
    var last: seq<string> := if e.count + 1 >= 3 && !e.completed then ["complete", "final_url"] else [];
    assert Engage(e).1 == first + last;
    FireMacrosAppend(macros, first, last);
    FireMacrosPair(macros, "complete", "final_url");
    assert ["engagement"][1..] == [];
  }

  /** The vendor calls of `endGameAd` on a network. */
  function EndEvents(network: string, g: Globals): seq<Event> {
    if network == "vungle" then [PostMessage("complete")]
    else if network == "mintegral" then (if g.gameEnd then [GameEnd] else [])
    else if network == "bigabid" then FireMacros(g.macros, ["complete", "final_url"])
    else []
  }

  /** Two batches of calls appended one after the other are their concatenation appended once. */
  lemma TraceJoin(t0: seq<Event>, t1: seq<Event>, t2: seq<Event>, x: seq<Event>, y: seq<Event>)
    requires t1 == t0 + x && t2 == t1 + y
    ensures t2 == t0 + (x + y) && t2 == t0 + x + y
  {
  }

  class AdNetworkManager {
    const adNetwork: string
    const globals: Globals
    var isAdVisible: bool
    var gameStarted: bool
    var isAdReady: bool
    var isAdLoaded: bool
    /** ironSource's readiness flags; `loadedGameAd` creates them, so they start out undefined, which reads as false. */
    var isMraidReady: bool
    var isStatePlayable: bool
    var bigabidInteractionCount: nat
    var hasBigabidEngaged: bool
    var hasBigabidCompleted: bool
    /** The vendor calls made so far. */
    var trace: seq<Event>

    function EngagementState(): Engagement
      reads this
    {
      Engagement(bigabidInteractionCount, hasBigabidEngaged, hasBigabidCompleted)
    }

    /** Between two states, the manager made exactly these vendor calls and kept its flags. */
    twostate predicate Made(events: seq<Event>)
      reads this
    {
      && trace == old(trace) + events
      && EngagementState() == old(EngagementState())
      && isAdVisible == old(isAdVisible) && gameStarted == old(gameStarted)
    }

    /**
     * Between two states, the manager did what `startGameAd` does: Mintegral
     * is told the game started; on Unity and ironSource a visible ad starts
     * the game once; Bigabid fires `game_viewable`; other networks do
     * nothing. The visibility and the Bigabid flags are kept.
     */
    twostate predicate Started()
      reads this
    {
      && (TracksViewability(adNetwork) ==> gameStarted == (old(gameStarted) || isAdVisible) && trace == old(trace))
      && (adNetwork == "mintegral" ==> trace == old(trace) + [GameStart] && gameStarted == old(gameStarted))
      && (adNetwork == "bigabid" ==>
            trace == old(trace) + FireMacro(globals.macros, "game_viewable") && gameStarted == old(gameStarted))
      && (!TracksViewability(adNetwork) && adNetwork !in {"mintegral", "bigabid"} ==>
            trace == old(trace) && gameStarted == old(gameStarted))
      && isAdVisible == old(isAdVisible) && EngagementState() == old(EngagementState())
      && isMraidReady == old(isMraidReady) && isStatePlayable == old(isStatePlayable)
    }

    constructor (production: bool, configured: Option<string>, globals: Globals)
      ensures adNetwork == NetworkOf(production, configured) && this.globals == globals
      ensures !isAdVisible && !gameStarted && !isAdReady && !isAdLoaded && !isMraidReady && !isStatePlayable
      ensures EngagementState() == Engagement(0, false, false) && trace == []
    {
      adNetwork := if !production then "development"
        else if configured.Some? && configured.value != "" then configured.value
        else "default";
      this.globals := globals;
      isAdVisible := false;
      gameStarted := false;
      isAdReady := false;
      isAdLoaded := false;
      isMraidReady := false;
      isStatePlayable := false;
      bigabidInteractionCount := 0;
      hasBigabidEngaged := false;
      hasBigabidCompleted := false;
      trace := [];
    }

    method FireBigabidMacro(name: string)
      modifies this
      ensures trace == old(trace) + FireMacro(globals.macros, name)
      ensures EngagementState() == old(EngagementState())
      ensures isAdVisible == old(isAdVisible) && gameStarted == old(gameStarted)
      ensures isMraidReady == old(isMraidReady) && isStatePlayable == old(isStatePlayable)
    {
      if globals.macros.Some? && name in globals.macros.value && globals.macros.value[name] != "" {
        trace := trace + [Pixel(globals.macros.value[name])];
      }
    }

    /** `handleBigabidEngagement()`, called on every user interaction. */
    method HandleBigabidEngagement()
      modifies this
      ensures adNetwork != "bigabid" ==> EngagementState() == old(EngagementState()) && trace == old(trace)
      ensures adNetwork == "bigabid" ==>
        var (e, fired) := Engage(old(EngagementState()));
        EngagementState() == e && trace == old(trace) + FireMacros(globals.macros, fired)
      ensures isAdVisible == old(isAdVisible) && gameStarted == old(gameStarted)
    {
      if adNetwork != "bigabid" {
        return;
      }
      ghost var e0, t0 := EngagementState(), trace;
      ghost var first: seq<Event> := [];
      ghost var last: seq<Event> := [];
      bigabidInteractionCount := bigabidInteractionCount + 1;
      if !hasBigabidEngaged {
        hasBigabidEngaged := true;
        FireBigabidMacro("engagement");
        first := FireMacro(globals.macros, "engagement");
      }
      assert trace == t0 + first;
      ghost var t1 := trace;
      if bigabidInteractionCount >= 3 && !hasBigabidCompleted {
        hasBigabidCompleted := true;
        FireBigabidMacro("complete");
        ghost var t2 := trace;
        FireBigabidMacro("final_url");
        last := FireMacro(globals.macros, "complete") + FireMacro(globals.macros, "final_url");
        TraceJoin(t1, t2, trace, FireMacro(globals.macros, "complete"), FireMacro(globals.macros, "final_url"));
      }
      assert trace == t1 + last;
      TraceJoin(t0, t1, trace, first, last);
      EngageEvents(globals.macros, e0);
    }

    /** `clickCTA()`: the network's click-out; Bigabid's flags are neither read nor changed. */
    method ClickCTA()
      modifies this
      ensures trace == old(trace) + CtaEvents(adNetwork, globals)
      ensures EngagementState() == old(EngagementState())
      ensures isAdVisible == old(isAdVisible) && gameStarted == old(gameStarted)
    {
      trace := trace + CtaEvents(adNetwork, globals);
    }

    /** `endGameAd()`. */
    method EndGameAd()
      modifies this
      ensures trace == old(trace) + EndEvents(adNetwork, globals)
      ensures EngagementState() == old(EngagementState())
      ensures isAdVisible == old(isAdVisible) && gameStarted == old(gameStarted)
    {
      trace := trace + EndEvents(adNetwork, globals);
    }

    /**
     * `startGameAd()`: Mintegral is told the game started; on Unity and
     * ironSource a visible ad starts the game once; Bigabid fires
     * `game_viewable`.
     */
    method StartGameAd()
      modifies this
      ensures Started()
    {
      if adNetwork == "mintegral" {
        trace := trace + [GameStart];
      } else if TracksViewability(adNetwork) {
        if isAdVisible && !gameStarted {
          gameStarted := true;
        }
      } else if adNetwork == "bigabid" {
        FireBigabidMacro("game_viewable");
      }
    }

    /**
     * `handleViewableChange(viewable)`: only Unity and ironSource listen;
     * the flag follows the event, a visible ad starts the game, which never
     * stops again, and the page is told.
     */
    method HandleViewableChange(viewable: bool)
      modifies this
      ensures !TracksViewability(adNetwork) ==>
        isAdVisible == old(isAdVisible) && gameStarted == old(gameStarted) && trace == old(trace)
      ensures TracksViewability(adNetwork) ==>
        && isAdVisible == viewable
        && gameStarted == (old(gameStarted) || viewable)
        && trace == old(trace) + [ViewableChange(viewable)]
      ensures old(gameStarted) ==> gameStarted
      ensures EngagementState() == old(EngagementState())
    {
      if !TracksViewability(adNetwork) {
        return;
      }
      isAdVisible := viewable;
      if viewable {
        if !gameStarted {
          gameStarted := true;
          StartGameAd();
        }
        trace := trace + [ViewableChange(true)];
      } else {
        trace := trace + [ViewableChange(false)];
      }
    }

    /**
     * `loadedGameAd()`; `sdk` is `None` when `mraid` is not defined. On
     * ironSource the readiness flags are set from the current state and a
     * start is attempted before the visibility flag is read from the SDK;
     * on Unity an ad already on screen is recorded as visible; Mintegral is
     * told the game is ready; Bigabid fires `mraid_viewable`. The listeners
     * registered here are `OnMraidReady`, `OnStateChange` and
     * `HandleViewableChange`.
     */
    method LoadedGameAd(sdk: Option<MraidStatus>)
      modifies this
      ensures adNetwork == "ironsource" && sdk.Some? ==>
        && isMraidReady == (sdk.value.state != "loading")
        && isStatePlayable == (sdk.value.state != "loading" && Playable(sdk.value.state))
        && gameStarted == (old(gameStarted) || (old(isAdVisible) && Playable(sdk.value.state)))
        && isAdVisible == sdk.value.viewable
        && trace == old(trace)
      ensures adNetwork == "unity" && sdk.Some? ==>
        && isAdVisible == (old(isAdVisible) || sdk.value.viewable)
        && gameStarted == old(gameStarted) && trace == old(trace)
      ensures adNetwork == "mintegral" ==>
        trace == old(trace) + (if globals.gameReady then [GameReady] else [])
      ensures adNetwork == "bigabid" ==> trace == old(trace) + FireMacro(globals.macros, "mraid_viewable")
      ensures !TracksViewability(adNetwork) || sdk.None? ==> isAdVisible == old(isAdVisible) && gameStarted == old(gameStarted)
      ensures adNetwork !in {"ironsource", "unity", "mintegral", "bigabid"} || (TracksViewability(adNetwork) && sdk.None?) ==>
        trace == old(trace)
      ensures adNetwork != "ironsource" || sdk.None? ==>
        isMraidReady == old(isMraidReady) && isStatePlayable == old(isStatePlayable)
      ensures EngagementState() == old(EngagementState())
    {
      if adNetwork == "ironsource" {
        if sdk.Some? {
          isMraidReady := false;
          isStatePlayable := false;
          if sdk.value.state != "loading" {
            isMraidReady := true;
            OnStateChange(sdk.value.state);
          }
          isAdVisible := sdk.value.viewable;
        }
      } else if adNetwork == "mintegral" {
        if globals.gameReady {
          trace := trace + [GameReady];
        }
      } else if adNetwork == "unity" {
        if sdk.Some? && sdk.value.viewable {
          isAdVisible := true;
        }
      } else if adNetwork == "bigabid" {
        FireBigabidMacro("mraid_viewable");
      }
    }

    /** ironSource's `tryStartGame`: the game starts once the ad is on screen, MRAID is ready and the state is playable. */
    method TryStartGame()
      requires adNetwork == "ironsource"
      modifies this
      ensures gameStarted == (old(gameStarted) || (isAdVisible && isMraidReady && isStatePlayable))
      ensures isAdVisible == old(isAdVisible) && isMraidReady == old(isMraidReady) && isStatePlayable == old(isStatePlayable)
      ensures trace == old(trace) && EngagementState() == old(EngagementState())
    {
      if isAdVisible && isMraidReady && isStatePlayable && !gameStarted {
        StartGameAd();
      }
    }

    /** ironSource's `ready` listener: MRAID is ready, and a start is attempted. */
    method OnMraidReady()
      requires adNetwork == "ironsource"
      modifies this
      ensures isMraidReady
      ensures gameStarted == (old(gameStarted) || (isAdVisible && isStatePlayable))
      ensures isAdVisible == old(isAdVisible) && isStatePlayable == old(isStatePlayable)
      ensures trace == old(trace) && EngagementState() == old(EngagementState())
    {
      isMraidReady := true;
      TryStartGame();
    }

    /** ironSource's `stateChange` listener: the state decides whether the game may start, and a start is attempted. */
    method OnStateChange(state: string)
      requires adNetwork == "ironsource"
      modifies this
      ensures isStatePlayable == Playable(state)
      ensures gameStarted == (old(gameStarted) || (isAdVisible && isMraidReady && Playable(state)))
      ensures isAdVisible == old(isAdVisible) && isMraidReady == old(isMraidReady)
      ensures trace == old(trace) && EngagementState() == old(EngagementState())
    {
      isStatePlayable := Playable(state);
      TryStartGame();
    }
  }

  /**
   * An ad already on screen when it loads starts at the start call, not at
   * the load: Unity only records the visibility at the load, and ironSource
   * attempts its start before it reads the visibility.
   */
  method ViewableAtLoad(network: string, globals: Globals) returns (startedAtLoad: bool, startedAfter: bool)
    requires TracksViewability(network)
    ensures !startedAtLoad && startedAfter
  {
    var ads := new AdNetworkManager(true, Some(network), globals);
    ads.LoadedGameAd(Some(MraidStatus("default", true)));
    startedAtLoad := ads.gameStarted;
    ads.StartGameAd();
    startedAfter := ads.gameStarted;
  }

  /**
   * On ironSource, an ad that loads while MRAID is still loading starts
   * neither at the load nor when MRAID is ready, but as soon as the state
   * becomes playable.
   */
  method ReadyThenPlayable(globals: Globals) returns (atLoad: bool, atReady: bool, atPlayable: bool)
    ensures !atLoad && !atReady && atPlayable
  {
    var ads := new AdNetworkManager(true, Some("ironsource"), globals);
    ads.LoadedGameAd(Some(MraidStatus("loading", true)));
    atLoad := ads.gameStarted;
    ads.OnMraidReady();
    atReady := ads.gameStarted;
    ads.OnStateChange("expanded");
    atPlayable := ads.gameStarted;
  }

  /** Firing a list of macros in two parts. */
  lemma {:induction false} FireMacrosAppend(macros: Option<map<string, string>>, a: seq<string>, b: seq<string>)
    ensures FireMacros(macros, a + b) == FireMacros(macros, a) + FireMacros(macros, b)
    decreases |a|
  {
    if a == [] {
      assert a + b == b;
    } else {
      assert (a + b)[1..] == a[1..] + b;
      FireMacrosAppend(macros, a[1..], b);
    }
  }
}
