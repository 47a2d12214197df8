/**
 * The app's language: the language setting (or "auto", the device's
 * language) reduced to a base language code the app has translations
 * for, the current language it is stored as, and the formatting of dates
 * with an empty text for a missing date. Lower-casing is ASCII.
 */
module Locale {
  import opened Base
  import opened Strings

  /** The codes the switch of getActualLanguage renames: cs to cz, jp to ja, lv to la; others stay. */
  function Rename(code: string): (r: string)
    ensures code == "cs" ==> r == "cz"
    ensures code == "jp" ==> r == "ja"
    ensures code == "lv" ==> r == "la"
    ensures code !in {"cs", "jp", "lv"} ==> r == code
  {
    match code
    case "en" => "en"
    case "cs" => "cz"
    case "jp" => "ja"
    case "kr" => "kr"
    case "lv" => "la"
    case _ => code
  }

  /** getActualLanguage: "auto" is the device language; the part before the first "-", lower-cased and renamed. */
  function GetActualLanguage(language: string, deviceLanguage: string): (r: string)
    ensures IsLowerCase(r)
  {
    var tag := if language == "auto" then deviceLanguage else language;
    Rename(Lower(Split(tag, "-")[0]))
  }

  /**
   * A tag with a region is its language part: "cs-CZ" is "cz", and "auto"
   * is whatever the device language gives.
   */
  lemma {:induction false} ActualLanguageOfTag(head: string, rest: string, deviceLanguage: string)
    requires !ContainsChar(head, '-')
    ensures GetActualLanguage(head + "-" + rest, deviceLanguage) == Rename(Lower(head))
    ensures head != "auto" ==> GetActualLanguage(head, deviceLanguage) == Rename(Lower(head))
    ensures GetActualLanguage("auto", deviceLanguage) == GetActualLanguage(deviceLanguage, deviceLanguage)
  {
    assert "-"[0] == '-';
    SplitAfterHead(head, rest, "-");
    SplitWithoutSeparatorStart(head, "-");
    assert forall i :: 0 <= i < |"auto"| ==> "auto"[i] != '-';
    assert (head + "-" + rest)[|head|] == '-';
    if deviceLanguage == "auto" {
      assert GetActualLanguage(deviceLanguage, deviceLanguage) == Rename(Lower(Split(deviceLanguage, "-")[0]));
    }
  }

  /** "cs-CZ" is "cz", and "auto" on a "pt-BR" device is "pt". */
  lemma ActualLanguageExamples(deviceLanguage: string)
    ensures GetActualLanguage("cs-CZ", deviceLanguage) == "cz"
    ensures GetActualLanguage("auto", "pt-BR") == "pt"
  {
    assert !ContainsChar("cs", '-') && !ContainsChar("pt", '-');
    assert "cs-CZ" == "cs" + "-" + "CZ";
    assert "pt-BR" == "pt" + "-" + "BR";
    ActualLanguageOfTag("cs", "CZ", deviceLanguage);
    ActualLanguageOfTag("pt", "BR", "pt-BR");
    assert Lower("cs") == "cs";
    assert Lower("pt") == "pt";
  }

  /** The language setLang settles on: the actual language when it is supported, else "en". */
  function ChosenLanguage(newLang: string, deviceLanguage: string, supportedLanguages: seq<string>): (r: string)
    ensures r in supportedLanguages || r == "en"
    ensures GetActualLanguage(newLang, deviceLanguage) in supportedLanguages ==> r == GetActualLanguage(newLang, deviceLanguage)
    ensures GetActualLanguage(newLang, deviceLanguage) !in supportedLanguages ==> r == "en"
  {
    var actual := GetActualLanguage(newLang, deviceLanguage);
    if actual in supportedLanguages then actual else "en"
  }

  /**
   * The language state: the $lang store and the lang variable its
   * subscriber keeps equal to it, and the "language" events notified.
   * SUPPORTED_LOCALES and Device.language are constants of the store.
   */
  class LanguageStore {
    const supportedLanguages: seq<string>
    const deviceLanguage: string
    /** The store's value; None is its initial null. */
    var lang: Option<string>
    var events: seq<string>

    predicate Valid()
      reads this
    {
      lang.Some? ==> lang.value in supportedLanguages || lang.value == "en"
    }

    /** Module load: the store starts at null, then setLang(getString('language', DEFAULT_LOCALE)). */
    constructor(supportedLanguages: seq<string>, deviceLanguage: string, storedLanguage: string)
      ensures Valid()
      ensures this.supportedLanguages == supportedLanguages && this.deviceLanguage == deviceLanguage
      ensures lang == Some(ChosenLanguage(storedLanguage, deviceLanguage, supportedLanguages))
      ensures events == (if lang.value != [] then [lang.value] else [])
    {
      this.supportedLanguages := supportedLanguages;
      this.deviceLanguage := deviceLanguage;
      lang := None;
      events := [];
      new;
      SetLang(storedLanguage);
    }

    /**
     * setLang. A svelte store runs its subscribers only when the value
     * changes, and the subscriber notifies a "language" event only for a
     * non-empty language.
     */
    method SetLang(newLang: string)
      requires Valid()
      modifies this`lang, this`events
      ensures Valid()
      ensures lang == Some(ChosenLanguage(newLang, deviceLanguage, supportedLanguages))
      ensures events == old(events) + (if old(lang) != lang && lang.value != [] then [lang.value] else [])
    {
      var actual := GetActualLanguage(newLang, deviceLanguage);
      if actual !in supportedLanguages {
        actual := "en";
      }
      if lang != Some(actual) {
        lang := Some(actual);
        if actual != [] {
          events := events + [actual];
        }
      }
    }

    /** The listener on the language setting: nothing when it equals the current language, else setLang. */
    method OnLanguageSetting(newLanguage: string)
      requires Valid()
      modifies this`lang, this`events
      ensures Valid()
      ensures old(lang) == Some(newLanguage) ==> lang == old(lang) && events == old(events)
      ensures old(lang) != Some(newLanguage) ==> lang == Some(ChosenLanguage(newLanguage, deviceLanguage, supportedLanguages))
      ensures old(lang) != Some(newLanguage) ==>
        events == old(events) + (if old(lang) != lang && lang.value != [] then [lang.value] else [])
    {
      if lang == Some(newLanguage) {
        return;
      }
      SetLang(newLanguage);
    }
  }

  /** A date argument of convertTime: a timestamp, a date text or a dayjs date. */
  datatype DateArg<T> = Millis(millis: int) | Text(text: string) | Day(day: T)

  /** The falsy dates are 0 and the empty text; a dayjs date is an object. */
  predicate Truthy<T>(date: DateArg<T>)
  {
    match date
    case Millis(n) => n != 0
    case Text(s) => s != []
    case Day(_) => true
  }

  /** capitalize: the first character upper-cased. */
  function Capitalize(s: string): (r: string)
    ensures |r| == |s|
    ensures s != [] ==> r[0] == UpperChar(s[0]) && r[1..] == s[1..]
  {
    if s == [] then [] else [UpperChar(s[0])] + s[1..]
  }

  /**
   * convertTime: '' for a falsy date; else the date (parsed by dayjs when
   * it is not one already, the parameter toDay) formatted and capitalized.
   */
  function ConvertTime<T>(date: DateArg<T>, formatStr: string, toDay: DateArg<T> -> T, format: (T, string) -> string): (r: string)
    ensures !Truthy(date) ==> r == []
    ensures Truthy(date) ==>
      var formatted := format(if date.Day? then date.day else toDay(date), formatStr);
      |r| == |formatted| && (formatted != [] ==> r[0] == UpperChar(formatted[0]) && r[1..] == formatted[1..])
  {
    if !Truthy(date) then []
    else Capitalize(format(if date.Day? then date.day else toDay(date), formatStr))
  }
}
