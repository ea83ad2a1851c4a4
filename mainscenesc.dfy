/**
 * The single-click variant of the main scene: the first tap of the game
 * is the click-out, and `gameOverMan` makes the end call itself. The phase
 * machine, the inactivity timer and the localised texts are those of the
 * main scene.
 */
module MainSceneSC {
  import opened Wrappers
  import opened AdNetwork
  import opened Scenes

  /** The fallback table of this variant, keyed by the language the scene starts in. */
  const Fallback: LanguageData :=
    map[DefaultLanguage := map["play_now" := "Play Now", "game_tut" := "Tutorial Message!"]]

  /** The constructor's font size for a language. */
  function FontSizeFor(language: string): string {
    if language == "ja-jp" then "36px"
    else if language == "ko-kr" then "48px"
    else if language == "ru-ru" then "32px"
    else if language == "es-es" then "48px"
    else if language == "es-mx" then "48px"
    else if language == "fr-fr" then "48px"
    else if language == "it-it" then "48px"
    else if language == "pt-br" then "48px"
    else if language == "tr-tr" then "48px"
    else "48px"
  }

  /** Japanese gets 36px, Russian 32px, and every other language 48px. */
  lemma FontSizeCases(language: string)
    ensures FontSizeFor(language) == "36px" <==> language == "ja-jp"
    ensures FontSizeFor(language) == "32px" <==> language == "ru-ru"
    ensures FontSizeFor(language) == "48px" <==> language != "ja-jp" && language != "ru-ru"
  {
  }

  class MainScene {
    const ads: AdNetworkManager
    /** Chosen in the constructor, from the language the scene starts in. */
    const fontSize: string
    var gamePhase: nat
    var startGame: bool
    var firstClick: bool
    var gameOver: bool
    var ctaClicked: bool
    var inactiveTime: int
    var isInactivity: bool
    var inactivityEvent: Option<int>
    var tutTextTween: bool
    var currentLanguage: string
    var languageData: Option<LanguageData>

    function State(): SceneState
      reads this
    {
      SceneState(gamePhase, startGame, firstClick, gameOver, ctaClicked, inactiveTime, isInactivity,
                 inactivityEvent, tutTextTween, currentLanguage, languageData)
    }

    predicate Valid()
      reads this
    {
      Consistent(State())
    }

    /** The scene, with its own ad-network manager; the font size is that of the start language, 48px. */
    constructor (production: bool, configured: Option<string>, globals: Globals)
      ensures fresh(ads) && ads.adNetwork == NetworkOf(production, configured) && ads.globals == globals
      ensures ads.trace == [] && !ads.gameStarted
      ensures State() == Initial && Valid()
      ensures fontSize == FontSizeFor(currentLanguage) && fontSize == "48px"
    {
      ads := new AdNetworkManager(production, configured, globals);
      gamePhase := 0;
      startGame := false;
      firstClick := false;
      gameOver := false;
      ctaClicked := false;
      inactiveTime := InactiveTime;
      isInactivity := false;
      inactivityEvent := None;
      tutTextTween := false;
      currentLanguage := DefaultLanguage;
      languageData := None;
      fontSize := FontSizeFor(DefaultLanguage);
    }

    /**
     * The language part of `create`: this variant loads no table, so the
     * fallback is installed unless a table is already there.
     */
    method LoadLanguages()
      modifies this
      ensures old(languageData).None? ==> State() == old(State()).(languageData := Some(Fallback))
      ensures old(languageData).Some? ==> State() == old(State())
      ensures Valid() == old(Valid())
      ensures old(languageData).None? && currentLanguage == DefaultLanguage ==>
        GetLocalizedText("play_now") == "Play Now"
    {
      if languageData.None? {
        languageData := Some(Fallback);
      }
    }

    /** `getLocalizedText(key)`. */
    function GetLocalizedText(key: string): string
      reads this
    {
      Localized(if languageData.Some? then languageData.value else map[], currentLanguage, key)
    }

    /** `setLanguage(code)`: only a language the table defines is taken. */
    method SetLanguage(code: string)
      requires languageData.Some?
      modifies this
      ensures code in old(languageData).value ==> State() == old(State()).(currentLanguage := code)
      ensures code !in old(languageData).value ==> State() == old(State())
      ensures Valid() == old(Valid())
    {
      if code in languageData.value {
        currentLanguage := code;
      }
    }

    /** `startTutTextTween()`. */
    method StartTutTextTween()
      modifies this
      ensures State() == old(State()).(tutTextTween := true)
      ensures Valid() == old(Valid())
    {
      tutTextTween := true;
    }

    /** `stopTutTextTween()`: afterwards no tween runs; with none running it changes nothing. */
    method StopTutTextTween()
      modifies this
      ensures State() == old(State()).(tutTextTween := false)
      ensures !old(tutTextTween) ==> State() == old(State())
      ensures Valid() == old(Valid())
    {
      if tutTextTween {
        tutTextTween := false;
      }
    }

    /**
     * `gameOverMan()`: the end call, and the phase moves on only if there
     * was a click already, the opposite test to the main scene's.
     */
    method GameOverMan()
      modifies this, ads
      ensures ads.Made(EndEvents(ads.adNetwork, ads.globals))
      ensures old(firstClick) ==> State() == old(State()).(gamePhase := old(gamePhase) + 1)
      ensures !old(firstClick) ==> State() == old(State())
    {
      ads.EndGameAd();
      if firstClick {
        gamePhase := gamePhase + 1;
        firstClick := true;
      }
    }

    /**
     * `gameClickCTA()`: the network's click-out, and before the end card the
     * game ends at phase 3 after the end call of `gameOverMan`.
     */
    method GameClickCTA()
      requires Consistent(State().(ctaClicked := gameOver && ctaClicked))
      modifies this, ads
      ensures old(gamePhase) < 3 ==>
        && ads.Made(CtaEvents(ads.adNetwork, ads.globals) + EndEvents(ads.adNetwork, ads.globals))
        && State() == old(State()).(gameOver := true, gamePhase := 3)
      ensures old(gamePhase) >= 3 ==> ads.Made(CtaEvents(ads.adNetwork, ads.globals)) && State() == old(State())
      ensures Valid()
    {
      ghost var t0 := ads.trace;
      ads.ClickCTA();
      if gamePhase < 3 {
        ghost var t1 := ads.trace;
        gameOver := true;
        GameOverMan();
        gamePhase := 3;
        TraceJoin(t0, t1, ads.trace, CtaEvents(ads.adNetwork, ads.globals), EndEvents(ads.adNetwork, ads.globals));
      }
    }

    /**
     * `handleCTAClick()`: acts once, before the game is over: the end call,
     * the click-out, and the end call of `gameOverMan` a second time.
     */
    method HandleCTAClick()
      requires Valid()
      modifies this, ads
      ensures Valid()
      ensures !old(ctaClicked) && !old(gameOver) ==>
        var end := EndEvents(ads.adNetwork, ads.globals);
        && ads.Made(end + CtaEvents(ads.adNetwork, ads.globals) + end)
        && State() == old(State()).(ctaClicked := true, gameOver := true, gamePhase := 3)
      ensures old(ctaClicked) || old(gameOver) ==> ads.Made([]) && State() == old(State())
    {
      if !ctaClicked && !gameOver {
        ctaClicked := true;
        ghost var t0 := ads.trace;
        ghost var end := EndEvents(ads.adNetwork, ads.globals);
        ghost var click := CtaEvents(ads.adNetwork, ads.globals);
        ads.EndGameAd();
        ghost var t1 := ads.trace;
        GameClickCTA();
        TraceJoin(t0, t1, ads.trace, end, click + end);
        assert end + (click + end) == end + click + end;
      }
    }

    /** `inactivityTimer()`: the timer is cleared; outside the end state the delay is reset. */
    method InactivityTimer()
      modifies this
      ensures EndState(old(State())) ==> State() == old(State()).(inactivityEvent := None, isInactivity := false)
      ensures !EndState(old(State())) ==>
        State() == old(State()).(inactivityEvent := None, isInactivity := false, inactiveTime := InactiveTime)
      ensures Valid() == old(Valid())
    {
      if gameOver && gamePhase > 2 {
        inactivityEvent := None;
        isInactivity := false;
      } else {
        isInactivity := false;
        inactivityEvent := None;
        inactiveTime := InactiveTime;
      }
    }

    /** `resetInactivityTimer()`: a new timer with the current delay replaces the old one. */
    method ResetInactivityTimer()
      modifies this
      ensures State() == old(State()).(inactivityEvent := Some(old(inactiveTime)), isInactivity := true)
      ensures Valid() == old(Valid())
    {
      inactivityEvent := Some(inactiveTime);
      isInactivity := true;
    }

    /**
     * `resize()`: the pause, the ember emitter and the layout are engine
     * calls; a game still in play that has gone inactive gets its
     * inactivity timer reset.
     */
    method Resize()
      modifies this
      ensures !old(gameOver) && old(isInactivity) ==>
        State() == old(State()).(inactivityEvent := None, isInactivity := false, inactiveTime := InactiveTime)
      ensures old(gameOver) || !old(isInactivity) ==> State() == old(State())
      ensures !gameOver ==> !isInactivity
      ensures Valid() == old(Valid())
    {
      if !gameOver && isInactivity {
        InactivityTimer();
        isInactivity := false;
      }
    }

    /**
     * `handleGlobalClick()`: on the end card, the first tap clicks out; the
     * first tap of the game is itself the click-out, which ends the game,
     * and counts a Bigabid interaction; any other tap does nothing.
     */
    method HandleGlobalClick()
      requires Valid()
      modifies this, ads
      ensures Valid()
      ensures EndState(old(State())) && !old(ctaClicked) ==>
        ads.Made(CtaEvents(ads.adNetwork, ads.globals)) && State() == old(State()).(ctaClicked := true)
      ensures !EndState(old(State())) && !old(firstClick) && !old(gameOver) ==>
        && State() == old(State()).(firstClick := true, ctaClicked := true, gameOver := true, gamePhase := 3)
        && ads.isAdVisible == old(ads.isAdVisible) && ads.gameStarted == old(ads.gameStarted)
        && (ads.adNetwork != "bigabid" ==>
              ads.Made(CtaEvents(ads.adNetwork, ads.globals) + EndEvents(ads.adNetwork, ads.globals)))
        && (ads.adNetwork == "bigabid" ==>
              var (e, fired) := Engage(old(ads.EngagementState()));
              && ads.EngagementState() == e
              && ads.trace == old(ads.trace) + (CtaEvents(ads.adNetwork, ads.globals) + EndEvents(ads.adNetwork, ads.globals))
                 + FireMacros(ads.globals.macros, fired))
      ensures (EndState(old(State())) && old(ctaClicked)) || (!EndState(old(State())) && (old(firstClick) || old(gameOver)))
        ==> ads.Made([]) && State() == old(State())
    {
      if gameOver && gamePhase > 2 {
        if !ctaClicked {
          ctaClicked := true;
          GameClickCTA();
        }
      } else if !firstClick && !gameOver {
        FirstTap();
      }
    }

    /** The first tap of the game: it is the click-out, and a Bigabid interaction. */
    method FirstTap()
      requires Valid() && !firstClick && !gameOver
      modifies this, ads
      ensures Valid()
      ensures State() == old(State()).(firstClick := true, ctaClicked := true, gameOver := true, gamePhase := 3)
      ensures ads.isAdVisible == old(ads.isAdVisible) && ads.gameStarted == old(ads.gameStarted)
      ensures ads.adNetwork != "bigabid" ==>
        ads.Made(CtaEvents(ads.adNetwork, ads.globals) + EndEvents(ads.adNetwork, ads.globals))
      ensures ads.adNetwork == "bigabid" ==>
        var (e, fired) := Engage(old(ads.EngagementState()));
        && ads.EngagementState() == e
        && ads.trace == old(ads.trace) + (CtaEvents(ads.adNetwork, ads.globals) + EndEvents(ads.adNetwork, ads.globals))
           + FireMacros(ads.globals.macros, fired)
    {
      firstClick := true;
      ctaClicked := true;
      ghost var t0 := ads.trace;
      GameClickCTA();
      ghost var s1, t1 := State(), ads.trace;
      ads.HandleBigabidEngagement();
      assert State() == s1;
      if ads.adNetwork == "bigabid" {
        var fired := Engage(old(ads.EngagementState())).1;
        TraceJoin(t0, t1, ads.trace, CtaEvents(ads.adNetwork, ads.globals) + EndEvents(ads.adNetwork, ads.globals),
                  FireMacros(ads.globals.macros, fired));
      }
    }

    /**
     * `update()`, once per frame: the phase moves on by the rule of
     * `NextPhase`; entering phase 1 starts the ad, entering phase 3 ends it.
     */
    method Update()
      requires Valid()
      modifies this, ads
      ensures Valid()
      ensures State() == Updated(old(State()))
      ensures old(gamePhase) == 0 && !old(gameOver) ==> ads.Started()
      ensures old(gamePhase) == 2 && old(gameOver) ==> ads.Made(EndEvents(ads.adNetwork, ads.globals))
      ensures !(old(gamePhase) == 0 && !old(gameOver)) && !(old(gamePhase) == 2 && old(gameOver)) ==> ads.Made([])
    {
      if gamePhase == 0 && !gameOver {
        ads.StartGameAd();
        gamePhase := gamePhase + 1;
      } else if gamePhase == 1 && !gameOver {
        if firstClick {
          startGame := true;
          gamePhase := gamePhase + 1;
        }
      } else if gamePhase == 2 && gameOver {
        ads.EndGameAd();
        gamePhase := gamePhase + 1;
      } else if gamePhase == 3 && gameOver {
        if ctaClicked {
          gamePhase := gamePhase + 1;
        }
      }
    }
  }
}
