/**
 * Dotted-key translation lookup (src/i18n/index.ts). The locale files are
 * nested records whose leaves are strings; a key such as
 * `errors.unknown` names a path through them.
 */
module I18n {
  import opened Wrappers
  import Strings

  /** The `Language` union type: `'zh' | 'en'`. */
  datatype Language = Zh | En

  /** A value of a locale record: a string leaf or a nested record. */
  datatype Entry = Text(text: string) | Table(fields: map<string, Entry>)

  /** The `translations` object: one locale record per language. */
  datatype Translations = Translations(zh: Entry, en: Entry) {
    /** `translations[language]`. */
    function Root(language: Language): Entry {
      match language
      case Zh => zh
      case En => en
    }
  }

  /**
   * Consumes the path left to right: each segment must name a field of a
   * record reached so far; a string leaf or a missing field ends the walk.
   */
  function Walk(e: Entry, path: seq<string>): (r: Option<Entry>)
    ensures r.None? ==> |path| > 0
    ensures |path| > 0 && r.Some? ==> e.Table? && path[0] in e.fields
    ensures |path| == 1 ==> r == if e.Table? && path[0] in e.fields then Some(e.fields[path[0]]) else None
    decreases |path|
  {
    if |path| == 0 then Some(e)
    else if e.Table? && path[0] in e.fields then Walk(e.fields[path[0]], path[1..])
    else None
  }

  /** `String(value)`: a string is itself, a plain object prints as `[object Object]`. */
  function Render(e: Entry): (s: string)
    ensures e.Text? ==> s == e.text
    ensures e.Table? ==> s == "[object Object]"
  {
    match e
    case Text(s) => s
    case Table(_) => "[object Object]"
  }

  /** What `translate` returns: the rendered value the key reaches, or the key itself. */
  function Lookup(tables: Translations, key: string, language: Language): (r: string)
    ensures Walk(tables.Root(language), Strings.Split(key, '.')).None? ==> r == key
    ensures forall s :: Walk(tables.Root(language), Strings.Split(key, '.')) == Some(Text(s)) ==> r == s
  {
    match Walk(tables.Root(language), Strings.Split(key, '.'))
    case Some(e) => Render(e)
    case None => key
  }

  /** Walking a concatenated path is walking the first part, then the second from where it ended. */
  lemma {:induction false} WalkAppend(e: Entry, a: seq<string>, b: seq<string>)
    ensures Walk(e, a + b) == match Walk(e, a) case Some(m) => Walk(m, b) case None => None
    decreases |a|
  {
    if |a| == 0 {
      assert a + b == b;
    } else if e.Table? && a[0] in e.fields {
      assert (a + b)[1..] == a[1..] + b;
      WalkAppend(e.fields[a[0]], a[1..], b);
    }
  }

  /**
   * `translate(key, language)`: splits the key on '.', then steps through the
   * language's record one segment at a time, returning the key as soon as a
   * segment cannot be followed.
   */
  method Translate(tables: Translations, key: string, language: Language) returns (r: string)
    ensures r == Lookup(tables, key, language)
  {
    var keys := Strings.Split(key, '.');
    var root := tables.Root(language);
    var result := root;
    var i := 0;
    while i < |keys|
      invariant 0 <= i <= |keys|
      invariant Walk(root, keys[..i]) == Some(result)
    {
      var k := keys[i];
      if result.Table? && k in result.fields {
        WalkAppend(root, keys[..i], [k]);
        assert keys[..i + 1] == keys[..i] + [k];
        result := result.fields[k];
      } else {
        WalkAppend(root, keys[..i], keys[i..]);
        assert keys == keys[..i] + keys[i..];
        return key;
      }
      i := i + 1;
    }
    assert keys[..i] == keys;
    r := Render(result);
  }

  /**
   * If some segment cannot be followed (the record lacks it, or a string was
   * reached before the last segment), the lookup gives the key unchanged.
   */
  lemma UnresolvedSegmentGivesKey(tables: Translations, key: string, language: Language, i: nat, reached: Entry)
    requires i < |Strings.Split(key, '.')|
    requires Walk(tables.Root(language), Strings.Split(key, '.')[..i]) == Some(reached)
    requires reached.Text? || Strings.Split(key, '.')[i] !in reached.fields
    ensures Lookup(tables, key, language) == key
  {
    var keys := Strings.Split(key, '.');
    WalkAppend(tables.Root(language), keys[..i], keys[i..]);
    assert keys == keys[..i] + keys[i..];
  }

  /** A key without '.' reads only the top level of the language's record. */
  lemma SingleSegmentReadsTopLevel(tables: Translations, key: string, language: Language)
    requires '.' !in key
    ensures var root := tables.Root(language);
      Lookup(tables, key, language) ==
        if root.Table? && key in root.fields then Render(root.fields[key]) else key
  {
    Strings.SplitWithoutSeparator(key, '.');
    var root := tables.Root(language);
    if root.Table? && key in root.fields {
      assert Walk(root, [key]) == Walk(root.fields[key], [key][1..]);
    }
  }

  /**
   * A key `seg.rest` whose first segment names a field descends into that
   * field and looks `rest` up there.
   */
  lemma DottedKeyDescends(e: Entry, seg: string, rest: string)
    requires '.' !in seg && e.Table? && seg in e.fields
    ensures Walk(e, Strings.Split(seg + "." + rest, '.')) == Walk(e.fields[seg], Strings.Split(rest, '.'))
  {
    Strings.SplitAtFirstSeparator(seg, rest, '.');
  }
}
