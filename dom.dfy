/**
 * The part of the page the language engine touches, as element records: the
 * annotated elements, the meta tags, the `#currentLanguage` label, the
 * `.language-option` links, the document title and the `lang` attribute of
 * the root element. Specifications are functions over these records; the
 * `Document` class holds the live page and its loops write the records in place.
 */
module Dom {
  import opened Wrappers
  import opened Values
  import opened Resolver

  /**
   * An element found by `[data-i18n]` or `[data-i18n-placeholder]`. `inputType`
   * is the element's `type` property, which the browser already normalises
   * (an INPUT without a valid type reports "text").
   */
  datatype Element = Element(
    tag: string,
    inputType: string,
    i18nKey: Option<string>,
    placeholderKey: Option<string>,
    text: string,
    placeholder: string)

  /** The placement rule: text and email INPUTs show their translation as placeholder. */
  predicate TakesPlaceholder(e: Element)
  {
    e.tag == "INPUT" && (e.inputType == "email" || e.inputType == "text")
  }

  /** Everything a binding pass never writes. */
  predicate SameShape(a: Element, b: Element)
  {
    a.tag == b.tag && a.inputType == b.inputType
    && a.i18nKey == b.i18nKey && a.placeholderKey == b.placeholderKey
  }

  /** The body of the `[data-i18n]` loop for one element. */
  function TranslateText(e: Element, l: Lookup): Element
  {
    if e.i18nKey.None? then e
    else match Resolve(l, e.i18nKey.value)
      case None => e
      case Some(v) =>
        if TakesPlaceholder(e) then e.(placeholder := ToText(v)) else e.(text := ToText(v))
  }

  /** The body of the `[data-i18n-placeholder]` loop for one element. */
  function TranslatePlaceholder(e: Element, l: Lookup): Element
  {
    if e.placeholderKey.None? then e
    else match Resolve(l, e.placeholderKey.value)
      case None => e
      case Some(v) => e.(placeholder := ToText(v))
  }

  /** The `[data-i18n]` pass over the page, element by element in document order. */
  function TextPass(els: seq<Element>, l: Lookup): (r: seq<Element>)
    ensures |r| == |els|
    ensures forall i :: 0 <= i < |els| ==> r[i] == TranslateText(els[i], l)
  {
    if els == [] then [] else [TranslateText(els[0], l)] + TextPass(els[1..], l)
  }

  /** The `[data-i18n-placeholder]` pass over the page. */
  function PlaceholderPass(els: seq<Element>, l: Lookup): (r: seq<Element>)
    ensures |r| == |els|
    ensures forall i :: 0 <= i < |els| ==> r[i] == TranslatePlaceholder(els[i], l)
  {
    if els == [] then [] else [TranslatePlaceholder(els[0], l)] + PlaceholderPass(els[1..], l)
  }

  /** Both passes, in the order the scripts run them. */
  function Bind(els: seq<Element>, l: Lookup): seq<Element>
  {
    PlaceholderPass(TextPass(els, l), l)
  }

  /**
   * What a binding run leaves in each element: nothing but `text` and
   * `placeholder` can change; `text` takes the `data-i18n` translation only
   * when it resolved and the element is not a text/email INPUT; `placeholder`
   * takes the `data-i18n-placeholder` translation when that resolved, else the
   * `data-i18n` one on a text/email INPUT, else keeps its old value.
   */
  lemma BindAt(els: seq<Element>, l: Lookup, i: nat)
    requires i < |els|
    ensures |Bind(els, l)| == |els|
    ensures var e, r := els[i], Bind(els, l)[i];
      var t := if e.i18nKey.Some? then Resolve(l, e.i18nKey.value) else None;
      var p := if e.placeholderKey.Some? then Resolve(l, e.placeholderKey.value) else None;
      && SameShape(r, e)
      && r.text == (if t.Some? && !TakesPlaceholder(e) then ToText(t.value) else e.text)
      && r.placeholder == (if p.Some? then ToText(p.value)
                           else if t.Some? && TakesPlaceholder(e) then ToText(t.value)
                           else e.placeholder)
  {
  }

  /** Running the binding passes a second time with the same bundle changes nothing. */
  lemma BindIdempotent(els: seq<Element>, l: Lookup)
    ensures Bind(Bind(els, l), l) == Bind(els, l)
  {
    var once := Bind(els, l);
    var twice := Bind(once, l);
    forall i | 0 <= i < |els|
      ensures twice[i] == once[i]
    {
      BindAt(els, l, i);
      BindAt(once, l, i);
    }
  }

  /** A `.language-option` link: its `data-lang` and whether it carries the `active` class. */
  datatype LanguageOption = LanguageOption(dataLang: Option<string>, active: bool)

  /** `classList.toggle('active', option.dataset.lang === lang)` over every option. */
  function MarkActive(options: seq<LanguageOption>, lang: string): (r: seq<LanguageOption>)
    ensures |r| == |options|
    ensures forall i :: 0 <= i < |r| ==>
      r[i].dataLang == options[i].dataLang && (r[i].active <==> options[i].dataLang == Some(lang))
  {
    if options == [] then []
    else [options[0].(active := options[0].dataLang == Some(lang))] + MarkActive(options[1..], lang)
  }

  /** `toUpperCase` on the ASCII letters of a language code. */
  function UpperAscii(s: string): (r: string)
  {
    if s == [] then []
    else [if 'a' <= s[0] <= 'z' then (s[0] as int - 32) as char else s[0]] + UpperAscii(s[1..])
  }

  /** A `<meta>` tag: its `name` and `property` attributes and its `content`. */
  datatype Meta = Meta(name: Option<string>, property: Option<string>, content: string)

  /** The attribute selectors `meta[name="…"]` and `meta[property="…"]`. */
  datatype Selector = ByName(name: string) | ByProperty(property: string)

  predicate Matches(m: Meta, sel: Selector)
  {
    match sel
    case ByName(n) => m.name == Some(n)
    case ByProperty(p) => m.property == Some(p)
  }

  /** `document.querySelector(sel)`: the first match in document order, or null. */
  function QuerySelector(metas: seq<Meta>, sel: Selector): (r: Option<nat>)
    ensures r.Some? ==> r.value < |metas| && Matches(metas[r.value], sel)
    ensures r.Some? ==> forall j :: 0 <= j < r.value ==> !Matches(metas[j], sel)
    ensures r.None? ==> forall j :: 0 <= j < |metas| ==> !Matches(metas[j], sel)
  {
    if metas == [] then None
    else if Matches(metas[0], sel) then Some(0)
    else match QuerySelector(metas[1..], sel)
      case None => None
      case Some(k) => Some(k + 1)
  }

  /** One entry of a metadata update list: where to write and the value read from `site`. */
  datatype MetaUpdate = MetaUpdate(selector: Selector, content: Option<Value>)

  /** `if (element && content) element.content = content`. */
  function ApplyUpdate(metas: seq<Meta>, u: MetaUpdate): seq<Meta>
  {
    match QuerySelector(metas, u.selector)
    case None => metas
    case Some(i) =>
      if Present(u.content) then metas[i := metas[i].(content := ToText(u.content.value))] else metas
  }

  /** The updates applied one after another, the last one last. */
  function ApplyUpdates(metas: seq<Meta>, ups: seq<MetaUpdate>): seq<Meta>
    decreases |ups|
  {
    if ups == [] then metas
    else ApplyUpdate(ApplyUpdates(metas, ups[..|ups| - 1]), ups[|ups| - 1])
  }

  /** The value the last update aimed at tag `j` writes, if any update writes it. */
  function LastWrite(metas: seq<Meta>, ups: seq<MetaUpdate>, j: nat): Option<string>
    decreases |ups|
  {
    if ups == [] then None
    else
      var u := ups[|ups| - 1];
      if QuerySelector(metas, u.selector) == Some(j) && Present(u.content)
      then Some(ToText(u.content.value))
      else LastWrite(metas, ups[..|ups| - 1], j)
  }

  /** Two lists of tags that differ at most in their `content`. */
  predicate SameAttributes(a: seq<Meta>, b: seq<Meta>)
  {
    |a| == |b|
    && forall i :: 0 <= i < |a| ==> a[i].name == b[i].name && a[i].property == b[i].property
  }

  /** Which tag a selector finds does not depend on any tag's content. */
  lemma {:induction false} QuerySelectorStable(a: seq<Meta>, b: seq<Meta>, sel: Selector)
    requires SameAttributes(a, b)
    ensures QuerySelector(a, sel) == QuerySelector(b, sel)
  {
    if a != [] {
      assert SameAttributes(a[1..], b[1..]) by {
        forall i | 0 <= i < |a[1..]|
          ensures a[1..][i].name == b[1..][i].name && a[1..][i].property == b[1..][i].property
        {
          assert a[1..][i] == a[i + 1] && b[1..][i] == b[i + 1];
        }
      }
      QuerySelectorStable(a[1..], b[1..], sel);
    }
  }

  /** Neither does the last writer of a tag. */
  lemma {:induction false} LastWriteStable(a: seq<Meta>, b: seq<Meta>, ups: seq<MetaUpdate>, j: nat)
    requires SameAttributes(a, b)
    ensures LastWrite(a, ups, j) == LastWrite(b, ups, j)
    decreases |ups|
  {
    if ups != [] {
      QuerySelectorStable(a, b, ups[|ups| - 1].selector);
      LastWriteStable(a, b, ups[..|ups| - 1], j);
    }
  }

  /** An update list only writes `content`: names and properties stay, and so does the number of tags. */
  lemma {:induction false} ApplyUpdatesAttributes(metas: seq<Meta>, ups: seq<MetaUpdate>)
    ensures SameAttributes(metas, ApplyUpdates(metas, ups))
    decreases |ups|
  {
    if ups != [] {
      ApplyUpdatesAttributes(metas, ups[..|ups| - 1]);
    }
  }

  /**
   * Each tag ends with the value of the last update that found it with a
   * truthy value; a tag no such update found is left exactly as it was.
   */
  lemma {:induction false} ApplyUpdatesAt(metas: seq<Meta>, ups: seq<MetaUpdate>, j: nat)
    requires j < |metas|
    ensures |ApplyUpdates(metas, ups)| == |metas|
    ensures ApplyUpdates(metas, ups)[j]
         == match LastWrite(metas, ups, j)
            case Some(s) => metas[j].(content := s)
            case None => metas[j]
    decreases |ups|
  {
    ApplyUpdatesAttributes(metas, ups);
    if ups != [] {
      var init := ups[..|ups| - 1];
      var u := ups[|ups| - 1];
      ApplyUpdatesAt(metas, init, j);
      var mid := ApplyUpdates(metas, init);
      ApplyUpdatesAttributes(metas, init);
      QuerySelectorStable(mid, metas, u.selector);
    }
  }

  /** Applying an update list a second time changes nothing. */
  lemma ApplyUpdatesIdempotent(metas: seq<Meta>, ups: seq<MetaUpdate>)
    ensures ApplyUpdates(ApplyUpdates(metas, ups), ups) == ApplyUpdates(metas, ups)
  {
    var once := ApplyUpdates(metas, ups);
    var twice := ApplyUpdates(once, ups);
    ApplyUpdatesAttributes(metas, ups);
    ApplyUpdatesAttributes(once, ups);
    forall j | 0 <= j < |metas|
      ensures twice[j] == once[j]
    {
      ApplyUpdatesAt(metas, ups, j);
      ApplyUpdatesAt(once, ups, j);
      LastWriteStable(metas, once, ups, j);
    }
  }

  /** The page state the engine reads and writes. */
  datatype Page = Page(
    lang: string,
    title: string,
    metas: seq<Meta>,
    elements: seq<Element>,
    languageLabel: Option<string>,
    languageOptions: seq<LanguageOption>)

  /** `updateLanguageDisplay(lang)`: the label shows the code upper-cased, if the label exists. */
  function LanguageShown(p: Page, lang: string): Page
  {
    p.(languageLabel := if p.languageLabel.Some? then Some(UpperAscii(lang)) else None,
       languageOptions := MarkActive(p.languageOptions, lang))
  }

  /** Showing the same code twice is showing it once. */
  lemma LanguageShownIdempotent(p: Page, lang: string)
    ensures LanguageShown(LanguageShown(p, lang), lang) == LanguageShown(p, lang)
  {
    var once := MarkActive(p.languageOptions, lang);
    var twice := MarkActive(once, lang);
    assert forall i :: 0 <= i < |once| ==> twice[i] == once[i];
  }

  /** The live page. Each method is one of the scripts' DOM loops. */
  class Document {
    var lang: string
    var title: string
    var metas: seq<Meta>
    var elements: seq<Element>
    var languageLabel: Option<string>
    var languageOptions: seq<LanguageOption>

    function Snapshot(): Page
      reads this
    {
      Page(lang, title, metas, elements, languageLabel, languageOptions)
    }

    constructor (p: Page)
      ensures Snapshot() == p
    {
      lang, title, metas, elements := p.lang, p.title, p.metas, p.elements;
      languageLabel, languageOptions := p.languageLabel, p.languageOptions;
    }

    /** Sets the label text and toggles `active` on every `.language-option`. */
    method UpdateLanguageDisplay(code: string)
      modifies this
      ensures Snapshot() == LanguageShown(old(Snapshot()), code)
    {
      ghost var before := languageOptions;
      var i := 0;
      while i < |languageOptions|
        invariant 0 <= i <= |languageOptions| == |before|
        invariant forall k :: 0 <= k < i ==>
          languageOptions[k] == before[k].(active := before[k].dataLang == Some(code))
        invariant forall k :: i <= k < |languageOptions| ==> languageOptions[k] == before[k]
        invariant unchanged(`lang, `title, `metas, `elements, `languageLabel)
      {
        languageOptions := languageOptions[i := languageOptions[i].(active := languageOptions[i].dataLang == Some(code))];
        i := i + 1;
      }
      assert languageOptions == MarkActive(before, code);
      if languageLabel.Some? {
        languageLabel := Some(UpperAscii(code));
      }
    }

    /** The `[data-i18n]` loop. */
    method TranslateTextBindings(l: Lookup)
      modifies this
      ensures Snapshot() == old(Snapshot()).(elements := TextPass(old(elements), l))
    {
      ghost var before := elements;
      var i := 0;
      while i < |elements|
        invariant 0 <= i <= |elements| == |before|
        invariant forall k :: 0 <= k < i ==> elements[k] == TranslateText(before[k], l)
        invariant forall k :: i <= k < |elements| ==> elements[k] == before[k]
        invariant unchanged(`lang, `title, `metas, `languageLabel, `languageOptions)
      {
        elements := elements[i := TranslateText(elements[i], l)];
        i := i + 1;
      }
      assert elements == TextPass(before, l);
    }

    /** The `[data-i18n-placeholder]` loop. */
    method TranslatePlaceholderBindings(l: Lookup)
      modifies this
      ensures Snapshot() == old(Snapshot()).(elements := PlaceholderPass(old(elements), l))
    {
      ghost var before := elements;
      var i := 0;
      while i < |elements|
        invariant 0 <= i <= |elements| == |before|
        invariant forall k :: 0 <= k < i ==> elements[k] == TranslatePlaceholder(before[k], l)
        invariant forall k :: i <= k < |elements| ==> elements[k] == before[k]
        invariant unchanged(`lang, `title, `metas, `languageLabel, `languageOptions)
      {
        elements := elements[i := TranslatePlaceholder(elements[i], l)];
        i := i + 1;
      }
      assert elements == PlaceholderPass(before, l);
    }

    /** The `metaUpdates.forEach` loop: each update queries its tag and writes a truthy value. */
    method ApplyMetaUpdates(ups: seq<MetaUpdate>)
      modifies this
      ensures Snapshot() == old(Snapshot()).(metas := ApplyUpdates(old(metas), ups))
    {
      var k := 0;
      while k < |ups|
        invariant 0 <= k <= |ups|
        invariant metas == ApplyUpdates(old(metas), ups[..k])
        invariant unchanged(`lang, `title, `elements, `languageLabel, `languageOptions)
      {
        var found := QuerySelector(metas, ups[k].selector);
        if found.Some? && Present(ups[k].content) {
          metas := metas[found.value := metas[found.value].(content := ToText(ups[k].content.value))];
        }
        assert ups[..k + 1][..k] == ups[..k];
        k := k + 1;
      }
      assert ups[..k] == ups;
    }
  }
}
