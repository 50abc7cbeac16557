/**
 * The status strings of the contact and newsletter forms. The older script
 * shows all six as `translations[currentLanguage]?.a?.b?.c || 'default'`; the
 * newer one does so for the four outcome messages and shows the two loading
 * texts as fixed English.
 */
module StatusText {
  import opened Wrappers
  import opened Values
  import opened KeyPath
  import opened Resolver
  import opened Fallback

  /** The status messages the form handlers show. */
  datatype Status = ContactSending | ContactSuccess | ContactError | Subscribing | Subscribed | SubscribeError

  /** The property chain each message is read from. */
  function PathOf(st: Status): seq<string>
  {
    match st
    case ContactSending => ["contact", "form", "sending"]
    case ContactSuccess => ["contact", "form", "success"]
    case ContactError => ["contact", "form", "error"]
    case Subscribing => ["blog", "subscribe", "subscribing"]
    case Subscribed => ["blog", "subscribe", "subscribed"]
    case SubscribeError => ["blog", "subscribe", "error"]
  }

  /** The hard-coded English text after `||`. */
  function DefaultOf(st: Status): string
  {
    match st
    case ContactSending => "Sending..."
    case ContactSuccess => "Thank you for your message! We'll get back to you soon."
    case ContactError => "Sorry, there was an error sending your message. Please try again later."
    case Subscribing => "Subscribing..."
    case Subscribed => "Subscribed!"
    case SubscribeError => "Error. Please try again."
  }

  /** `o?.a?.b?.c`: stops at the first missing property. */
  function Chain(o: Option<Value>, path: seq<string>): Option<Value>
    decreases |path|
  {
    if path == [] then o else Chain(FieldOf(o, path[0]), path[1..])
  }

  /** `translations[currentLanguage]`. */
  function BundleOf(translations: Table, lang: string): Option<Value>
  {
    if lang in translations then Some(translations[lang]) else None
  }

  /** The text shown for `st`: the localized string when truthy, else the English default. */
  function Message(translations: Table, lang: string, st: Status): (text: string)
  {
    var v := Chain(BundleOf(translations, lang), PathOf(st));
    if Present(v) then ToText(v.value) else DefaultOf(st)
  }

  /** The newer script: `setButtonLoading(button, 'Sending...')` and `'Subscribing...'` are not looked up. */
  function NewerMessage(translations: Table, lang: string, st: Status): string
  {
    if st.ContactSending? || st.Subscribing? then DefaultOf(st) else Message(translations, lang, st)
  }

  /**
   * Optional chaining agrees with the path walk of `getTranslationValue`: a
   * string owns no properties, so stopping at a falsy value changes nothing.
   */
  lemma {:induction false} ChainIsWalk(o: Option<Value>, path: seq<string>)
    ensures Chain(o, path) == Walk(o, path)
    decreases |path|
  {
    if path != [] {
      assert FieldOf(o, path[0]) == Step(o, path[0]);
      ChainIsWalk(FieldOf(o, path[0]), path[1..]);
    }
  }

  /** So a message is the dotted key resolved in the language's bundle, or the default. */
  lemma MessageResolvesDottedKey(translations: Table, lang: string, st: Status)
    requires HasBundle(translations, lang)
    ensures var v := GetTranslationValue(Some(translations[lang]), Join(PathOf(st)));
      Message(translations, lang, st) == if Present(v) then ToText(v.value) else DefaultOf(st)
  {
    var path := PathOf(st);
    assert DotFree(path) by {
      forall i | 0 <= i < |path| ensures '.' !in path[i] { assert path[i] in PathOf(st); }
    }
    ResolveSegments(translations[lang], path);
    ChainIsWalk(Some(translations[lang]), path);
  }

  /**
   * Without a truthy bundle for the current language every message is its
   * English default: a missing bundle stops the chain at once, and an empty
   * string owns no properties.
   */
  lemma MissingBundleShowsDefault(translations: Table, lang: string, st: Status)
    requires !HasBundle(translations, lang)
    ensures Message(translations, lang, st) == DefaultOf(st)
  {
    var bundle := BundleOf(translations, lang);
    ChainIsWalk(bundle, PathOf(st));
    if bundle.None? {
      WalkFromNothing(PathOf(st));
    } else {
      WalkFromLeaf(bundle.value.s, PathOf(st));
    }
  }

  /** A bundle whose `contact` and `blog` sections are the built-in English ones shows the defaults. */
  lemma DefaultsFromSections(bundle: Value, st: Status)
    requires Field(bundle, "contact") == Some(Contact) && Field(bundle, "blog") == Some(Blog)
    ensures Message(map["en" := bundle], "en", st) == DefaultOf(st)
  {
    assert BundleOf(map["en" := bundle], "en") == Some(bundle);
    var path := PathOf(st);
    if st.ContactSending? || st.ContactSuccess? || st.ContactError? {
      assert Chain(Some(bundle), path) == Chain(Some(Contact), path[1..]);
      ContactHoldsDefaults(st);
    } else {
      assert Chain(Some(bundle), path) == Chain(Some(Blog), path[1..]);
      BlogHoldsDefaults(st);
    }
  }

  lemma ChainOfTwo(o: Option<Value>, a: string, b: string)
    ensures Chain(o, [a, b]) == FieldOf(FieldOf(o, a), b)
  {
    assert [a, b][1..] == [b];
    assert Chain(o, [a, b]) == Chain(FieldOf(o, a), [b]);
    assert [b][1..] == [];
    assert Chain(FieldOf(o, a), [b]) == Chain(FieldOf(FieldOf(o, a), b), []);
  }

  lemma ContactHoldsDefaults(st: Status)
    requires st.ContactSending? || st.ContactSuccess? || st.ContactError?
    ensures Chain(Some(Contact), PathOf(st)[1..]) == Some(Str(DefaultOf(st)))
  {
    var last := PathOf(st)[2];
    assert PathOf(st)[1..] == ["form", last];
    ChainOfTwo(Some(Contact), "form", last);
  }

  lemma BlogHoldsDefaults(st: Status)
    requires st.Subscribing? || st.Subscribed? || st.SubscribeError?
    ensures Chain(Some(Blog), PathOf(st)[1..]) == Some(Str(DefaultOf(st)))
  {
    var last := PathOf(st)[2];
    assert PathOf(st)[1..] == ["subscribe", last];
    ChainOfTwo(Some(Blog), "subscribe", last);
  }

  /**
   * When loading fails, the newer script's English table shows each message
   * with exactly the text of its hard-coded default.
   */
  lemma FallbackMatchesDefaults(st: Status)
    ensures NewerMessage(FallbackTranslations(), "en", st) == DefaultOf(st)
  {
    DefaultsFromSections(OptimizedEnglish, st);
  }

  /** So does the older script's English table. */
  lemma LegacyFallbackMatchesDefaults(st: Status)
    ensures Message(LegacyFallbackTranslations(), "en", st) == DefaultOf(st)
  {
    DefaultsFromSections(LegacyEnglish, st);
  }
}
