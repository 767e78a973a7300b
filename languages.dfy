/** The language catalog (src/config/languages.ts). */
module Languages {
  import opened Wrappers
  import Seqs
  import Strings
  import opened I18n

  /** `LanguageOption`; `icon` is `None` when the object omits it. */
  datatype LanguageOption = LanguageOption(
    value: Language,
    caption: string,  // the `label` field (`label` is a Dafny keyword)
    nativeName: string,
    icon: Option<string>)

  /** The string a `Language` stands for. */
  function Code(l: Language): string {
    match l
    case Zh => "zh"
    case En => "en"
  }

  /** `availableLanguages`: Chinese, then English, each with its flag. */
  const AvailableLanguages: seq<LanguageOption> := [
    LanguageOption(Zh, "Chinese", "简体中文", Some("\U{1F1E8}\U{1F1F3}")),
    LanguageOption(En, "English", "English", Some("\U{1F1FA}\U{1F1F8}"))
  ]

  /** The catalog lists 'zh' then 'en', so no two entries share a value. */
  lemma CatalogValues()
    ensures |AvailableLanguages| == 2
    ensures AvailableLanguages[0].value == Zh && AvailableLanguages[1].value == En
    ensures forall i, j :: 0 <= i < j < |AvailableLanguages| ==> AvailableLanguages[i].value != AvailableLanguages[j].value
  {
  }

  /** `navigator.language.split('-')[0]`: the primary language subtag. */
  function PrimarySubtag(browserLanguage: string): (tag: string)
    ensures '-' !in tag
    ensures tag <= browserLanguage
    ensures tag == browserLanguage || browserLanguage[|tag|] == '-'
  {
    Strings.FirstSegmentIsPrefix(browserLanguage, '-');
    Strings.Split(browserLanguage, '-')[0]
  }

  /**
   * `getDefaultLanguage()`, with `navigator.language` as a parameter: the
   * first catalog entry whose code is the browser's primary subtag, else the
   * first entry.
   */
  function GetDefaultLanguage(browserLanguage: string): (r: LanguageOption)
    ensures r in AvailableLanguages
    ensures Code(r.value) == PrimarySubtag(browserLanguage) ||
      (r == AvailableLanguages[0] &&
       forall i :: 0 <= i < |AvailableLanguages| ==> Code(AvailableLanguages[i].value) != PrimarySubtag(browserLanguage))
  {
    var tag := PrimarySubtag(browserLanguage);
    match Seqs.FindFirst(AvailableLanguages, (l: LanguageOption) => Code(l.value) == tag)
    case Some(l) => l
    case None => AvailableLanguages[0]
  }

  /** A browser language `code-REGION` (or a bare code) selects that language, whatever the region. */
  lemma DefaultLanguageIgnoresRegion(l: Language, region: string)
    ensures GetDefaultLanguage(Code(l) + "-" + region).value == l
    ensures GetDefaultLanguage(Code(l)).value == l
  {
    Strings.SplitAtFirstSeparator(Code(l), region, '-');
    assert Code(l) + "-" + region == Code(l) + ['-'] + region;
    Strings.SplitWithoutSeparator(Code(l), '-');
  }

  /** `getLanguageByValue(value)`: the first entry with that value, which always exists. */
  function GetLanguageByValue(value: Language): (r: Option<LanguageOption>)
    ensures r.Some? && r.value in AvailableLanguages && r.value.value == value
  {
    Seqs.FindFirst(AvailableLanguages, (l: LanguageOption) => l.value == value)
  }

  /**
   * `getLanguageDisplayText(lang)`: the native name, preceded by the icon
   * and a space when the icon is present and non-empty.
   */
  function GetLanguageDisplayText(lang: LanguageOption): (r: string)
    ensures |lang.nativeName| <= |r| && r[|r| - |lang.nativeName|..] == lang.nativeName
    ensures lang.icon.Some? && lang.icon.value != "" ==>
      |r| == |lang.icon.value| + 1 + |lang.nativeName| &&
      r[..|lang.icon.value|] == lang.icon.value && r[|lang.icon.value|] == ' '
    ensures r == lang.nativeName <==> lang.icon.None? || lang.icon.value == ""
  {
    (if lang.icon.Some? && lang.icon.value != "" then lang.icon.value + " " else "") + lang.nativeName
  }
}
