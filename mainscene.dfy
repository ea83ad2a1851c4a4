/**
 * The main scene of the game: a phase machine driven by `update` and by the
 * click handlers (tutorial, play, game over, end card), the inactivity
 * timer, and the scene's localised texts. Rendering is not modelled; the
 * ad calls go to the scene's own ad-network manager.
 */
module MainScene {
  import opened Wrappers
  import opened AdNetwork
  import opened Scenes

  /** The fallback table as the scene writes it: keyed `en`. */
  const FallbackAsWritten: LanguageData :=
    map["en" := map["play_now" := "!!PLAY NOW!!", "game_tut" := "!!TUTORIAL MSG!!"]]

  /** The fallback table keyed by the language the scene starts in. */
  const Fallback: LanguageData :=
    map[DefaultLanguage := map["play_now" := "!!PLAY NOW!!", "game_tut" := "!!TUTORIAL MSG!!"]]

  /**
   * The fallback table as written can never be shown: the scene looks texts
   * up under `en-us`, which it does not define, so every lookup returns the
   * key. Keyed `en-us`, the same table gives the fallback text.
   */
  lemma FallbackAsWrittenUnused()
    ensures Localized(FallbackAsWritten, DefaultLanguage, "play_now") == "play_now"
    ensures Localized(FallbackAsWritten, DefaultLanguage, "game_tut") == "game_tut"
    ensures Localized(Fallback, DefaultLanguage, "play_now") == "!!PLAY NOW!!"
    ensures Localized(Fallback, DefaultLanguage, "game_tut") == "!!TUTORIAL MSG!!"
  {
    LocalizedCases(FallbackAsWritten, DefaultLanguage, "play_now");
    LocalizedCases(FallbackAsWritten, DefaultLanguage, "game_tut");
  }

  class MainScene {
    const ads: AdNetworkManager
    var gamePhase: nat
    var startGame: bool
    var firstClick: bool
    var gameOver: bool
    var ctaClicked: bool
    var inactiveTime: int
    var isInactivity: bool
    var inactivityEvent: Option<int>
    var tutTextTween: bool
    var currentLanguage: string
    var languageData: Option<LanguageData>
    /** The `gameOverMan` call that `transitionEnd` schedules after its fade-in and a two-second wait. */
    var gameOverManPending: bool

    function State(): SceneState
      reads this
    {
      SceneState(gamePhase, startGame, firstClick, gameOver, ctaClicked, inactiveTime, isInactivity,
                 inactivityEvent, tutTextTween, currentLanguage, languageData)
    }

    /** The shared invariant, and: this scene's game ends only after a first click. */
    predicate Valid()
      reads this
    {
      Consistent(State()) && (gameOver ==> firstClick)
    }

    /** The scene, with an ad-network manager of its own for the build's network. */
    constructor (production: bool, configured: Option<string>, globals: Globals)
      ensures fresh(ads) && ads.adNetwork == NetworkOf(production, configured) && ads.globals == globals
      ensures ads.trace == [] && !ads.gameStarted
      ensures State() == Initial && Valid() && !gameOverManPending
    {
      ads := new AdNetworkManager(production, configured, globals);
      gamePhase := 0;
      startGame := false;
      firstClick := false;
      gameOver := false;
      ctaClicked := false;
      inactiveTime := InactiveTime;
      isInactivity := false;
      inactivityEvent := None;
      tutTextTween := false;
      currentLanguage := DefaultLanguage;
      languageData := None;
      gameOverManPending := false;
    }

    /** The language part of `create`: the cached table, or the fallback when none was loaded. */
    method LoadLanguages(cached: Option<LanguageData>)
      modifies this
      ensures State() == old(State()).(languageData := Some(if cached.Some? then cached.value else Fallback))
      ensures Valid() == old(Valid())
      ensures cached.None? && currentLanguage == DefaultLanguage ==>
        GetLocalizedText("play_now") == "!!PLAY NOW!!"
    {
      languageData := Some(if cached.Some? then cached.value else Fallback);
    }

    /** `getLocalizedText(key)`. */
    function GetLocalizedText(key: string): string
      reads this
    {
      Localized(if languageData.Some? then languageData.value else map[], currentLanguage, key)
    }

    /** `setLanguage(code)`: only a language the table defines is taken. */
    method SetLanguage(code: string)
      requires languageData.Some?
      modifies this
      ensures code in old(languageData).value ==> State() == old(State()).(currentLanguage := code)
      ensures code !in old(languageData).value ==> State() == old(State())
      ensures Valid() == old(Valid())
    {
      if code in languageData.value {
        currentLanguage := code;
      }
    }

    /** `startTutTextTween()`. */
    method StartTutTextTween()
      modifies this
      ensures State() == old(State()).(tutTextTween := true)
      ensures Valid() == old(Valid())
    {
      tutTextTween := true;
    }

    /** `stopTutTextTween()`: afterwards no tween runs; with none running it changes nothing. */
    method StopTutTextTween()
      modifies this
      ensures State() == old(State()).(tutTextTween := false)
      ensures !old(tutTextTween) ==> State() == old(State())
      ensures Valid() == old(Valid())
    {
      if tutTextTween {
        tutTextTween := false;
      }
    }

    /** `gameOverMan()`, its flag part: the phase moves on only if there was no click yet. */
    method GameOverMan()
      modifies this
      ensures !old(firstClick) ==> State() == old(State()).(gamePhase := old(gamePhase) + 1, firstClick := true)
      ensures old(firstClick) ==> State() == old(State())
      ensures firstClick
    {
      if !firstClick {
        gamePhase := gamePhase + 1;
        firstClick := true;
      }
    }

    /**
     * `clickCTA()`: the network's click-out, and before the end card the game
     * ends at phase 3, whatever `gameOverMan` did to the phase.
     */
    method ClickCTA()
      requires Consistent(State().(ctaClicked := gameOver && ctaClicked)) && (gameOver ==> firstClick)
      modifies this, ads
      ensures ads.Made(CtaEvents(ads.adNetwork, ads.globals))
      ensures old(gamePhase) < 3 ==> State() == old(State()).(gameOver := true, firstClick := true, gamePhase := 3)
      ensures old(gamePhase) >= 3 ==> State() == old(State())
      ensures Valid()
    {
      ads.ClickCTA();
      if gamePhase < 3 {
        gameOver := true;
        GameOverMan();
        gamePhase := 3;
      }
    }

    /** `handleCTAClick()`: acts once, before the game is over: the end call, then the click-out. */
    method HandleCTAClick()
      requires Valid()
      modifies this, ads
      ensures Valid()
      ensures !old(ctaClicked) && !old(gameOver) ==>
        && ads.Made(EndEvents(ads.adNetwork, ads.globals) + CtaEvents(ads.adNetwork, ads.globals))
        && State() == old(State()).(ctaClicked := true, gameOver := true, firstClick := true, gamePhase := 3)
      ensures old(ctaClicked) || old(gameOver) ==> ads.Made([]) && State() == old(State())
    {
      if !ctaClicked && !gameOver {
        ctaClicked := true;
        ghost var t0 := ads.trace;
        ads.EndGameAd();
        ghost var t1 := ads.trace;
        ClickCTA();
        TraceJoin(t0, t1, ads.trace, EndEvents(ads.adNetwork, ads.globals), CtaEvents(ads.adNetwork, ads.globals));
      }
    }

    /** `inactivityTimer()`: the timer is cleared; outside the end state the delay is reset. */
    method InactivityTimer()
      modifies this
      ensures EndState(old(State())) ==> State() == old(State()).(inactivityEvent := None, isInactivity := false)
      ensures !EndState(old(State())) ==>
        State() == old(State()).(inactivityEvent := None, isInactivity := false, inactiveTime := InactiveTime)
      ensures Valid() == old(Valid())
    {
      if gameOver && gamePhase > 2 {
        inactivityEvent := None;
        isInactivity := false;
      } else {
        isInactivity := false;
        inactivityEvent := None;
        inactiveTime := InactiveTime;
      }
    }

    /** `resetInactivityTimer()`: a new timer with the current delay replaces the old one. */
    method ResetInactivityTimer()
      modifies this
      ensures State() == old(State()).(inactivityEvent := Some(old(inactiveTime)), isInactivity := true)
      ensures Valid() == old(Valid())
    {
      inactivityEvent := Some(inactiveTime);
      isInactivity := true;
    }

    /**
     * `resize()`: the pause, the ember emitter and the layout are engine
     * calls; a game still in play that has gone inactive gets its
     * inactivity timer reset.
     */
    method Resize()
      modifies this
      ensures !old(gameOver) && old(isInactivity) ==>
        State() == old(State()).(inactivityEvent := None, isInactivity := false, inactiveTime := InactiveTime)
      ensures old(gameOver) || !old(isInactivity) ==> State() == old(State())
      ensures !gameOver ==> !isInactivity
      ensures Valid() == old(Valid())
    {
      if !gameOver && isInactivity {
        InactivityTimer();
        isInactivity := false;
      }
    }

    /**
     * `transitionEnd()`, which nothing in the scene calls: the game logic
     * stops at once, and `gameOverMan` is scheduled for after the fade-in;
     * the hand tweens and the tutorial text are rendering. Until that call
     * the game may be over before a first click.
     */
    method TransitionEnd()
      modifies this
      ensures State() == old(State()).(gameOver := true)
      ensures gameOverManPending
      ensures Consistent(old(State())) ==> Consistent(State())
      ensures old(Valid()) && old(firstClick) ==> Valid()
    {
      gameOver := true;
      gameOverManPending := true;
    }

    /** The delayed call `transitionEnd` scheduled, when it fires: `gameOverMan`, once. */
    method FirePendingGameOverMan()
      modifies this
      ensures !gameOverManPending
      ensures old(gameOverManPending) && !old(firstClick) ==>
        State() == old(State()).(gamePhase := old(gamePhase) + 1, firstClick := true)
      ensures !old(gameOverManPending) || old(firstClick) ==> State() == old(State())
    {
      if gameOverManPending {
        GameOverMan();
        gameOverManPending := false;
      }
    }

    /**
     * `handleGlobalClick()`: on the end card, the first tap clicks out; the
     * first tap of the game marks the first click, restarts the timer and
     * counts a Bigabid interaction; any other tap restarts the timer.
     */
    method HandleGlobalClick()
      requires Valid()
      modifies this, ads
      ensures Valid()
      ensures EndState(old(State())) && !old(ctaClicked) ==>
        ads.Made(CtaEvents(ads.adNetwork, ads.globals)) && State() == old(State()).(ctaClicked := true)
      ensures EndState(old(State())) && old(ctaClicked) ==> ads.Made([]) && State() == old(State())
      ensures !EndState(old(State())) && !old(firstClick) && !old(gameOver) ==>
        && State() == old(State()).(firstClick := true, tutTextTween := false,
                                    inactivityEvent := Some(old(inactiveTime)), isInactivity := true)
        && ads.isAdVisible == old(ads.isAdVisible) && ads.gameStarted == old(ads.gameStarted)
        && (ads.adNetwork != "bigabid" ==> ads.Made([]))
        && (ads.adNetwork == "bigabid" ==>
              var (e, fired) := Engage(old(ads.EngagementState()));
              ads.EngagementState() == e && ads.trace == old(ads.trace) + FireMacros(ads.globals.macros, fired))
      ensures !EndState(old(State())) && (old(firstClick) || old(gameOver)) ==>
        && ads.Made([])
        && State() == old(State()).(tutTextTween := false, inactivityEvent := Some(old(inactiveTime)), isInactivity := true)
    {
      if gameOver && gamePhase > 2 {
        if !ctaClicked {
          ctaClicked := true;
          ClickCTA();
        }
      } else if !firstClick && !gameOver {
        firstClick := true;
        StopTutTextTween();
        ResetInactivityTimer();
        ads.HandleBigabidEngagement();
      } else {
        StopTutTextTween();
        ResetInactivityTimer();
      }
    }

    /**
     * `update()`, once per frame: the phase moves on by the rule of
     * `NextPhase`; entering phase 1 starts the ad, entering phase 3 ends it.
     */
    method Update()
      requires Valid()
      modifies this, ads
      ensures Valid()
      ensures State() == Updated(old(State()))
      ensures old(gamePhase) == 0 && !old(gameOver) ==> ads.Started()
      ensures old(gamePhase) == 2 && old(gameOver) ==> ads.Made(EndEvents(ads.adNetwork, ads.globals))
      ensures !(old(gamePhase) == 0 && !old(gameOver)) && !(old(gamePhase) == 2 && old(gameOver)) ==> ads.Made([])
    {
      if gamePhase == 0 && !gameOver {
        ads.StartGameAd();
        gamePhase := gamePhase + 1;
      } else if gamePhase == 1 && !gameOver {
        if firstClick {
          startGame := true;
          gamePhase := gamePhase + 1;
        }
      } else if gamePhase == 2 && gameOver {
        ads.EndGameAd();
        gamePhase := gamePhase + 1;
      } else if gamePhase == 3 && gameOver {
        if ctaClicked {
          gamePhase := gamePhase + 1;
        }
      }
    }
  }

  /**
   * Time is up: `transitionEnd`, then its delayed `gameOverMan`. The game is
   * over after a first click, the phase has moved on iff there was none,
   * and the scene invariant holds again.
   */
  method TimeUp(scene: MainScene)
    requires scene.Valid()
    modifies scene
    ensures scene.Valid() && scene.gameOver && scene.firstClick && !scene.gameOverManPending
    ensures scene.gamePhase == if old(scene.firstClick) then old(scene.gamePhase) else old(scene.gamePhase) + 1
  {
    scene.TransitionEnd();
    scene.FirePendingGameOverMan();
  }
}
