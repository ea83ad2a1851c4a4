/**
 * What the two main-scene variants share: the per-frame phase rule and the
 * localisation lookup with its fall-back to the key.
 */
module Scenes {
  import opened Wrappers

  /** Language code to (text key to text). */
  type LanguageData = map<string, map<string, string>>

  /** The language a scene starts in. */
  const DefaultLanguage := "en-us"

  /** The idle delay, in milliseconds, before the inactivity callback runs. */
  const InactiveTime := 4000

  /** The fields of a main scene that its handlers read and write. */
  datatype SceneState = SceneState(
    gamePhase: nat,
    startGame: bool,
    firstClick: bool,
    gameOver: bool,
    ctaClicked: bool,
    /** The delay of the next inactivity timer. */
    inactiveTime: int,
    isInactivity: bool,
    /** The pending inactivity timer, by its delay; `None` for `null`. */
    inactivityEvent: Option<int>,
    /** Whether the tutorial-text tween is running (not `null`). */
    tutTextTween: bool,
    currentLanguage: string,
    /** `None` until the scene's `create` loaded the table. */
    languageData: Option<LanguageData>)

  /** The state the constructor leaves. */
  const Initial := SceneState(0, false, false, false, false, InactiveTime, false, None, false, DefaultLanguage, None)

  /**
   * What every reachable state of both scenes satisfies: the phase stays
   * within 0..4, phases 3 and 4 belong to a finished game, phase 4 follows
   * a CTA click, a clicked CTA ends the game, and the game starts only
   * after the first click.
   */
  predicate Consistent(s: SceneState) {
    && s.gamePhase <= 4
    && (s.gamePhase >= 3 ==> s.gameOver)
    && (s.gamePhase == 4 ==> s.ctaClicked)
    && (s.ctaClicked ==> s.gameOver)
    && (s.startGame ==> s.firstClick)
  }

  /** The end state in which the handlers stop the game logic. */
  predicate EndState(s: SceneState) {
    s.gameOver && s.gamePhase > 2
  }

  /** The state `update` leaves, apart from the ad calls it makes. */
  function Updated(s: SceneState): SceneState {
    s.(gamePhase := NextPhase(s.gamePhase, s.gameOver, s.firstClick, s.ctaClicked),
       startGame := s.startGame || (s.gamePhase == 1 && !s.gameOver && s.firstClick))
  }

  /** `update` keeps a consistent state consistent. */
  lemma UpdatedConsistent(s: SceneState)
    requires Consistent(s)
    ensures Consistent(Updated(s))
  {
  }

  /**
   * The phase after one `update`: 0 → 1 while the game is not over,
   * 1 → 2 once the first click happened, 2 → 3 once the game is over and
   * 3 → 4 once the CTA was clicked.
   */
  function NextPhase(phase: nat, gameOver: bool, firstClick: bool, ctaClicked: bool): nat {
    if phase == 0 && !gameOver then 1
    else if phase == 1 && !gameOver then (if firstClick then 2 else 1)
    else if phase == 2 && gameOver then 3
    else if phase == 3 && gameOver then (if ctaClicked then 4 else 3)
    else phase
  }

  /** The condition of `update` under which the phase moves on. */
  predicate Advances(phase: nat, gameOver: bool, firstClick: bool, ctaClicked: bool) {
    || (phase == 0 && !gameOver)
    || (phase == 1 && !gameOver && firstClick)
    || (phase == 2 && gameOver)
    || (phase == 3 && gameOver && ctaClicked)
  }

  /** An update moves the phase by exactly one step when its condition holds, and leaves it otherwise. */
  lemma PhaseStep(phase: nat, gameOver: bool, firstClick: bool, ctaClicked: bool)
    ensures Advances(phase, gameOver, firstClick, ctaClicked) ==> NextPhase(phase, gameOver, firstClick, ctaClicked) == phase + 1
    ensures !Advances(phase, gameOver, firstClick, ctaClicked) ==> NextPhase(phase, gameOver, firstClick, ctaClicked) == phase
  {
  }

  /** While the game is not over, updates alone never take the phase past 2. */
  lemma PlayingStaysBelowGameOver(phase: nat, firstClick: bool, ctaClicked: bool)
    requires phase <= 2
    ensures NextPhase(phase, false, firstClick, ctaClicked) <= 2
  {
  }

  /** Updates never take the phase past 4. */
  lemma PhaseBounded(phase: nat, gameOver: bool, firstClick: bool, ctaClicked: bool)
    requires phase <= 4
    ensures NextPhase(phase, gameOver, firstClick, ctaClicked) <= 4
  {
  }

  /** `getLocalizedText(key)`: the translation when there is a non-empty one, else the key. */
  function Localized(data: LanguageData, language: string, key: string): (text: string)
    ensures text == key || (language in data && key in data[language] && text == data[language][key])
  {
    if language in data && key in data[language] && data[language][key] != "" then data[language][key] else key
  }

  /** The lookup finds a non-empty translation, and falls back to the key otherwise. */
  lemma LocalizedCases(data: LanguageData, language: string, key: string)
    ensures language in data && key in data[language] && data[language][key] != ""
      ==> Localized(data, language, key) == data[language][key]
    ensures !(language in data && key in data[language]) ==> Localized(data, language, key) == key
  {
  }
}
