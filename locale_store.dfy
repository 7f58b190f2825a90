/** The interface-language store: the chosen language, the message lookup
    `t` over nested locale tables, the language fallbacks, the language
    lists shown in the picker, and the path rewrite that follows a language
    change. */
module LocaleStore {
  import opened Common

  /** A locale value: a message, or a table of further values by name. */
  datatype Entry = Text(text: string) | Table(entries: map<string, Entry>)

  /** The locale modules by code, in the order `Object.keys` lists them. */
  datatype Catalog = Catalog(codes: seq<string>, tables: map<string, Entry>)

  /** Truthiness of a locale value: every table is, a message is unless it
      is empty. */
  predicate Truthy(e: Entry) {
    e.Table? || e.text != ""
  }

  // ---------------------------------------------------------------------
  // Locale and lookup

  /** `locales[language] || locales.it`; `None` when both are missing. */
  function CurrentLocale(c: Catalog, language: string): (r: Option<Entry>)
    ensures language in c.tables && Truthy(c.tables[language]) ==> r == Some(c.tables[language])
    ensures !(language in c.tables && Truthy(c.tables[language])) ==>
      r == if "it" in c.tables then Some(c.tables["it"]) else None
  {
    if language in c.tables && Truthy(c.tables[language]) then Some(c.tables[language])
    else if "it" in c.tables then Some(c.tables["it"])
    else None
  }

  /** One step of `t`: `text && text[k]` must both be truthy. */
  function Step(cur: Option<Entry>, k: string): Option<Entry> {
    match cur
    case Some(Table(m)) => if k in m && Truthy(m[k]) then Some(m[k]) else None
    case _ => None
  }

  /** The value a path of segments reaches, segment by segment from the
      front; `None` as soon as a segment is missing or falsy. */
  function Resolve(cur: Option<Entry>, keys: seq<string>): Option<Entry>
    decreases |keys|
  {
    if |keys| == 0 then cur else Resolve(Step(cur, keys[0]), keys[1..])
  }

  /** `t(key)`: the value the dotted key reaches, or the key itself. */
  function Translate(locale: Option<Entry>, key: string): Entry {
    match Resolve(locale, Split(key, '.'))
    case None => Text(key)
    case Some(v) => v
  }

  /** Paths compose: resolving `a + b` resolves `b` from where `a` ends. */
  lemma {:induction false} ResolveConcat(cur: Option<Entry>, a: seq<string>, b: seq<string>)
    ensures Resolve(cur, a + b) == Resolve(Resolve(cur, a), b)
    decreases |a|
  {
    if |a| > 0 {
      assert (a + b)[0] == a[0];
      assert (a + b)[1..] == a[1..] + b;
      ResolveConcat(Step(cur, a[0]), a[1..], b);
    } else {
      assert a + b == b;
    }
  }

  /** Once a step fails, the rest of the path fails too. */
  lemma {:induction false} ResolveFailed(keys: seq<string>)
    ensures Resolve(None, keys) == None
    decreases |keys|
  {
    if |keys| > 0 {
      ResolveFailed(keys[1..]);
    }
  }

  /** A found value is truthy, and every prefix of its path was found
      too. */
  lemma TranslateFound(locale: Option<Entry>, key: string, i: nat)
    requires i < |Split(key, '.')|
    requires Resolve(locale, Split(key, '.')).Some?
    ensures var keys := Split(key, '.');
      Resolve(locale, keys[..i]).Some? && Truthy(Resolve(locale, keys).value)
  {
    var keys := Split(key, '.');
    assert keys == keys[..i] + keys[i..];
    ResolveConcat(locale, keys[..i], keys[i..]);
    if Resolve(locale, keys[..i]).None? {
      ResolveFailed(keys[i..]);
    }
    var last := |keys| - 1;
    assert keys == keys[..last] + [keys[last]];
    ResolveConcat(locale, keys[..last], [keys[last]]);
  }

  /** A segment missing or falsy anywhere makes `t` answer with the key
      itself. */
  lemma TranslateMissing(locale: Option<Entry>, key: string, i: nat)
    requires i < |Split(key, '.')|
    requires Step(Resolve(locale, Split(key, '.')[..i]), Split(key, '.')[i]).None?
    ensures Translate(locale, key) == Text(key)
  {
    var keys := Split(key, '.');
    assert keys == keys[..i] + [keys[i]] + keys[i + 1..];
    ResolveConcat(locale, keys[..i] + [keys[i]], keys[i + 1..]);
    ResolveConcat(locale, keys[..i], [keys[i]]);
    ResolveFailed(keys[i + 1..]);
  }

  /** A two-level key reaches the message inside the nested table. */
  lemma TranslateNested(outer: string, inner: string, msg: string)
    requires '.' !in outer && '.' !in inner && msg != ""
    ensures Translate(Some(Table(map[outer := Table(map[inner := Text(msg)])])),
                      outer + "." + inner) == Text(msg)
  {
    var locale := Some(Table(map[outer := Table(map[inner := Text(msg)])]));
    SplitJoin([outer, inner], '.');
    assert Join([outer, inner], '.') == outer + "." + inner by {
      assert Join([inner], '.') == inner;
    }
    var mid := Step(locale, outer);
    assert mid == Some(Table(map[inner := Text(msg)]));
    assert Resolve(locale, [outer, inner]) == Resolve(mid, [inner]) by {
      assert [outer, inner][1..] == [inner];
    }
    assert Resolve(mid, [inner]) == Resolve(Some(Text(msg)), []) by {
      assert [inner][1..] == [];
    }
  }

  /** `setLanguage(lang)`: `lang` when the catalog has a truthy locale for
      it, Italian otherwise. */
  function ChosenLanguage(c: Catalog, lang: string): (r: string)
    ensures r == lang <==> (lang in c.tables && Truthy(c.tables[lang])) || lang == "it"
    ensures r != lang ==> r == "it"
  {
    if lang in c.tables && Truthy(c.tables[lang]) then lang else "it"
  }

  // ---------------------------------------------------------------------
  // The path rewrite of the language watcher

  /** The route the watcher pushes for `newLang`: segment 1 of the path
      replaced, when there is one and it differs; `None` for no navigation. */
  function Rewritten(path: string, newLang: string): Option<string> {
    var parts := Split(path, '/');
    if |parts| > 1 && parts[1] != newLang then Some(Join(parts[1 := newLang], '/')) else None
  }

  /** The rewritten path has the same segments but the language one, which
      is now `newLang`; nothing is pushed when the path has no language
      segment or already shows `newLang`. */
  lemma RewrittenSegments(path: string, newLang: string)
    requires '/' !in newLang
    ensures var parts := Split(path, '/');
      && (Rewritten(path, newLang).None? <==> |parts| <= 1 || parts[1] == newLang)
      && (Rewritten(path, newLang).Some? ==>
            var np := Split(Rewritten(path, newLang).value, '/');
            |np| == |parts| && np[1] == newLang &&
            forall i :: 0 <= i < |parts| && i != 1 ==> np[i] == parts[i])
  {
    var parts := Split(path, '/');
    if |parts| > 1 && parts[1] != newLang {
      SplitJoin(parts[1 := newLang], '/');
    }
  }

  // ---------------------------------------------------------------------
  // Language lists

  /** An entry of a language list: `{code, name}`. */
  datatype LanguageName = LanguageName(code: string, name: Entry)

  /** The built-in display names of `getSupportedLanguages`. */
  function BuiltInName(code: string): Option<string> {
    if code == "it" then Some("Italiano")
    else if code == "en" then Some("English")
    else if code == "nl" then Some("Nederlands")
    else if code == "fr" then Some("Français")
    else if code == "es" then Some("Español")
    else if code == "de" then Some("Deutsch")
    else if code == "et" then Some("Eesti")
    else if code == "pt" then Some("Português")
    else if code == "sahibba" then Some("Sahibba")
    else None
  }

  /** `getSupportedLanguages()`: each code in catalog order, named by the
      built-in table or by the code itself. */
  function SupportedLanguages(c: Catalog): (r: seq<LanguageName>)
    ensures |r| == |c.codes|
  {
    seq(|c.codes|, i requires 0 <= i < |c.codes| =>
      LanguageName(c.codes[i], Text(BuiltInName(c.codes[i]).GetOr(c.codes[i]))))
  }

  /** The built-in list names every code, in catalog order, and falls back
      to the code exactly for codes without a built-in name (no built-in
      name is its own code). */
  lemma SupportedLanguagesListing(c: Catalog)
    ensures var r := SupportedLanguages(c);
      forall i :: 0 <= i < |r| ==>
        && r[i].code == c.codes[i] && r[i].name.Text?
        && (r[i].name.text != "" <==> c.codes[i] != "" || BuiltInName(c.codes[i]).Some?)
        && (BuiltInName(c.codes[i]).None? <==> r[i].name == Text(c.codes[i]))
  {
  }

  /** `locale.value.languages[code]`, when every link is truthy. */
  function LocalName(locale: Option<Entry>, code: string): Option<Entry> {
    Resolve(locale, ["languages", code])
  }

  /** `getLocalizedLanguageNames()`: the current locale's names when it has
      one for every code, the built-in list otherwise. */
  function LocalizedLanguageNames(c: Catalog, locale: Option<Entry>): seq<LanguageName> {
    if forall i :: 0 <= i < |c.codes| ==> LocalName(locale, c.codes[i]).Some? then
      seq(|c.codes|, i requires 0 <= i < |c.codes| =>
        LanguageName(c.codes[i], LocalName(locale, c.codes[i]).GetOr(Text(c.codes[i]))))
    else SupportedLanguages(c)
  }

  /** The localized list is used exactly when every code has a local name;
      either way it lists the catalog's codes in order. */
  lemma LocalizedNamesChoice(c: Catalog, locale: Option<Entry>)
    ensures var r := LocalizedLanguageNames(c, locale);
      && |r| == |c.codes| && (forall i :: 0 <= i < |r| ==> r[i].code == c.codes[i])
      && ((forall i :: 0 <= i < |c.codes| ==> LocalName(locale, c.codes[i]).Some?) ==>
            forall i :: 0 <= i < |r| ==> Some(r[i].name) == LocalName(locale, c.codes[i]))
      && (!(forall i :: 0 <= i < |c.codes| ==> LocalName(locale, c.codes[i]).Some?) ==>
            r == SupportedLanguages(c))
  {
  }

  /** A local name is whatever truthy value the locale's `languages` table
      holds for the code. */
  lemma LocalNameMeaning(locale: Option<Entry>, code: string)
    ensures LocalName(locale, code).Some? <==>
      locale.Some? && locale.value.Table? && "languages" in locale.value.entries &&
      locale.value.entries["languages"].Table? &&
      code in locale.value.entries["languages"].entries &&
      Truthy(locale.value.entries["languages"].entries[code])
  {
    var tables := Step(locale, "languages");
    assert Resolve(locale, ["languages", code]) == Resolve(tables, [code]) by {
      assert ["languages", code][1..] == [code];
    }
    assert Resolve(tables, [code]) == Step(tables, code) by {
      assert [code][1..] == [];
    }
  }

  // ---------------------------------------------------------------------
  // The store object

  class Locale {
    const catalog: Catalog
    var language: string

    constructor (c: Catalog)
      ensures catalog == c && language == "it"
    {
      catalog := c;
      language := "it";
    }

    /** The `locale` getter. */
    function Current(): Option<Entry>
      reads this
    {
      CurrentLocale(catalog, language)
    }

    /** `t(key)`: walks the segments with a cursor, giving up with the key. */
    method T(key: string) returns (r: Entry)
      ensures r == Translate(Current(), key)
    {
      var keys := Split(key, '.');
      var text := Current();
      for i := 0 to |keys|
        invariant text == Resolve(Current(), keys[..i])
        invariant i > 0 ==> text.Some?
      {
        assert keys[..i + 1] == keys[..i] + [keys[i]];
        ResolveConcat(Current(), keys[..i], [keys[i]]);
        assert [keys[i]][1..] == [];
        if text.Some? && text.value.Table? && keys[i] in text.value.entries &&
           Truthy(text.value.entries[keys[i]]) {
          text := Some(text.value.entries[keys[i]]);
        } else {
          assert keys == keys[..i + 1] + keys[i + 1..];
          ResolveConcat(Current(), keys[..i + 1], keys[i + 1..]);
          ResolveFailed(keys[i + 1..]);
          return Text(key);
        }
      }
      assert keys[..|keys|] == keys;
      return text.value;
    }

    /** `setLanguage(lang)`; `navigation` is the route the language watcher
        pushes from `path`, which happens only when the language changed. */
    method SetLanguage(lang: string, path: string) returns (navigation: Option<string>)
      modifies this
      ensures language == ChosenLanguage(catalog, lang)
      ensures navigation == if language != old(language) then Rewritten(path, language) else None
    {
      var previous := language;
      if lang in catalog.tables && Truthy(catalog.tables[lang]) {
        language := lang;
      } else {
        language := "it";
      }
      navigation := None;
      if language != previous {
        var parts := Split(path, '/');
        var currentLangInPath := if |parts| > 1 then Some(parts[1]) else None;
        if currentLangInPath != Some(language) && |parts| > 1 {
          navigation := Some(Join(parts[1 := language], '/'));
        }
      }
    }
  }
}
