/**
 * The language switcher: the button shows the entry for the current
 * language code (English when the code is unknown), and a click moves to
 * the next code of the list, wrapping at the end.
 */
module LanguageSwitcher {
  import opened Wrappers
  import opened Lists
  import TerminalManager

  datatype Language = Language(code: string, name: string, flag: string)

  /** English with the US flag, Chinese with the Chinese flag. */
  const Languages: seq<Language> := [
    Language("en", "English", "\U{1F1FA}\U{1F1F8}"),
    Language("zh", "\U{4E2D}\U{6587}", "\U{1F1E8}\U{1F1F3}")
  ]

  /** The codes in list order; `findIndex` on the entries by code is `indexOf` on this list. */
  const Codes: seq<string> := ["en", "zh"]

  lemma CodesMatchLanguages()
    ensures |Codes| == |Languages|
    ensures forall i :: 0 <= i < |Codes| ==> Codes[i] == Languages[i].code
  {
  }

  /** `currentLanguage`: the entry whose code is the current one, otherwise the first entry. */
  function CurrentLanguage(code: string): (r: Language)
    ensures r in Languages
    ensures (exists i :: 0 <= i < |Languages| && Languages[i].code == code) ==> r.code == code
    ensures (forall i :: 0 <= i < |Languages| ==> Languages[i].code != code) ==> r == Languages[0]
  {
    match FirstWhere(Languages, (l: Language) => l.code == code)
    case Some(i) => Languages[i]
    case None => Languages[0]
  }

  /** The click handler: the code after the current one, cyclically; an unknown code gives the first. */
  function NextLanguage(code: string): (r: string)
    ensures r in Codes
    ensures code == "en" ==> r == "zh"
    ensures code == "zh" ==> r == "en"
    ensures code !in Codes ==> r == "en"
  {
    NextCyclicAt(Codes, 0);
    NextCyclicAt(Codes, 1);
    NextCyclic(Codes, code).value
  }

  /** The switcher and the app-level language toggle agree on every code. */
  lemma SwitcherAgreesWithToggle(code: string)
    ensures NextLanguage(code) == TerminalManager.ToggledLanguage(code)
  {
  }

  /** Two clicks from a listed code come back to it. */
  lemma TwoClicksReturn(code: string)
    requires code in Codes
    ensures NextLanguage(NextLanguage(code)) == code
  {
  }

  /** More generally, as many clicks as there are languages return to the start. */
  lemma FullRoundOfClicks(i: nat)
    requires i < |Codes|
    ensures Iterate(Codes, Codes[i], |Codes|) == Codes[i]
  {
    FullRoundReturns(Codes, i);
  }
}
