/**
 * The language tables of the game: the texts of every supported language
 * and the lookup that falls back to American English.
 */
module Languages {
  import opened Wrappers

  /** A language's texts by key. */
  type Texts = map<string, string>

  /** The keys every language defines. */
  const Keys: set<string> := {"play_now", "game_tut", "test_text", "fontSize"}

  /** The language used when the requested one is not defined. */
  const FallbackLanguage := "en-us"

  /** The constant table `getLanguageData` installs. */
  const Table: map<string, Texts> := map[
    "en-us" := map["play_now" := "PLAY NOW", "game_tut" := "TUTORIAL MESSAGE!",
                   "test_text" := "WEB FONT TEXT", "fontSize" := "48px"],
    "es-es" := map["play_now" := "JUEGA\nAHORA", "game_tut" := "¡MENSAJE TUTORIAL!",
                   "test_text" := "TEXTO DE PRUEBA", "fontSize" := "48px"],
    "es-mx" := map["play_now" := "JUEGA\nAHORA", "game_tut" := "¡MENSAJE TUTORIAL!",
                   "test_text" := "TEXTO DE PRUEBA", "fontSize" := "48px"],
    "fr-fr" := map["play_now" := "JOUER\nMAINTENANT", "game_tut" := "MESSAGE DU TUTORIEL !",
                   "test_text" := "TEXTO DE PRUEBA", "fontSize" := "48px"],
    "it-it" := map["play_now" := "GIOCA ORA", "game_tut" := "MESSAGGIO DEL TUTORIAL!",
                   "test_text" := "TEXTO DE PRUEBA", "fontSize" := "48px"],
    "pt-br" := map["play_now" := "JOGUE AGORA", "game_tut" := "MENSAGEM DO TUTORIAL!",
                   "test_text" := "TEXTO DE PRUEBA", "fontSize" := "48px"],
    "ru-ru" := map["play_now" := "ИГРАТЬ СЕЙЧАС", "game_tut" := "ОБУЧАЮЩЕЕ СООБЩЕНИЕ!",
                   "test_text" := "TEXTO DE PRUEBA", "fontSize" := "48px"],
    "tr-tr" := map["play_now" := "ŞİMDİ OYNA", "game_tut" := "ÖĞRETICI MESAJ!",
                   "test_text" := "TEXTO DE PRUEBA", "fontSize" := "48px"],
    "ja-jp" := map["play_now" := "今すぐプレイ", "game_tut" := "チュートリアルメッセージ!",
                   "test_text" := "TEXTO DE PRUEBA", "fontSize" := "48px"],
    "ko-kr" := map["play_now" := "지금 플레이", "game_tut" := "튜토리얼 메시지!",
                   "test_text" := "TEXTO DE PRUEBA", "fontSize" := "48px"]
  ]

  /** The table's lookup with its fall-back. */
  function Lookup(language: string): Texts {
    if language in Table then Table[language] else Table[FallbackLanguage]
  }

  /** A defined language gets exactly its own texts; any other code gets the fallback's. */
  lemma LookupCases(language: string)
    ensures language in Table ==> Lookup(language) == Table[language]
    ensures language !in Table ==> Lookup(language) == Table[FallbackLanguage]
    ensures Lookup(language) in Table.Values
  {
  }

  /** Every language defines all the keys, and sets the font size to 48px. */
  lemma TableComplete(language: string)
    requires language in Table
    ensures Table[language].Keys == Keys
    ensures Table[language]["fontSize"] == "48px"
  {
    var texts := Table[language];
    assert texts in Table.Values;
  }

  /** Whatever the code, the texts returned define every key, with a 48px font size. */
  lemma LookupComplete(language: string)
    ensures Lookup(language).Keys == Keys
    ensures Lookup(language)["fontSize"] == "48px"
  {
    TableComplete(if language in Table then language else FallbackLanguage);
  }

  class Languages {
    var currentLanguage: string
    /** `None` until the first lookup installs the table. */
    var languageData: Option<map<string, Texts>>

    constructor ()
      ensures currentLanguage == FallbackLanguage && languageData == None
    {
      currentLanguage := FallbackLanguage;
      languageData := None;
    }

    /**
     * `getLanguageData(language)`: installs the table, overwriting whatever
     * was there, and returns the language's texts, so equal codes give equal
     * answers.
     */
    method GetLanguageData(language: string) returns (texts: Texts)
      modifies this
      ensures languageData == Some(Table) && currentLanguage == old(currentLanguage)
      ensures texts == Lookup(language)
    {
      languageData := Some(Table);
      if language in languageData.value {
        return languageData.value[language];
      }
      return languageData.value[FallbackLanguage];
    }
  }
}
