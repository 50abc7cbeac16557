/**
 * The language engine of the older script: global `currentLanguage` and
 * `translations`, `setLanguage` doing its page updates synchronously,
 * `updateTranslations` reading each annotation as one property name of the
 * bundle, and `updatePageMetadata` rewriting every Open Graph and Twitter tag.
 */
module LegacyEngine {
  import opened Wrappers
  import opened Values
  import opened Resolver
  import opened Dom
  import opened Fallback
  import opened Session

  /** `updateTranslations()`: both binding passes with the flat lookup. */
  function TranslationsApplied(translations: Table, current: string, p: Page): Page
  {
    if !HasBundle(translations, current) then p
    else p.(elements := Bind(p.elements, Flat(translations[current])))
  }

  /** The body of the `[property^="og:"]` loop for one tag. */
  function OgTag(m: Meta, title: Option<Value>, description: Option<Value>): Meta
  {
    if m.property == Some("og:title") && Present(title) then m.(content := ToText(title.value))
    else if m.property == Some("og:description") && Present(description) then m.(content := ToText(description.value))
    else m
  }

  /** The body of the `[name^="twitter:"]` loop for one tag. */
  function TwitterTag(m: Meta, title: Option<Value>, description: Option<Value>): Meta
  {
    if m.name == Some("twitter:title") && Present(title) then m.(content := ToText(title.value))
    else if m.name == Some("twitter:description") && Present(description) then m.(content := ToText(description.value))
    else m
  }

  /** The description and keywords tags: the first match of each selector only. */
  function FirstMatchUpdates(site: Value): seq<MetaUpdate>
  {
    [ MetaUpdate(ByName("description"), Field(site, "description")),
      MetaUpdate(ByName("keywords"), Field(site, "keywords")) ]
  }

  /** All tag writes of `updatePageMetadata`, in the script's order. */
  function MetasRewritten(metas: seq<Meta>, site: Value): (r: seq<Meta>)
    ensures SameAttributes(metas, r)
  {
    var title, description := Field(site, "title"), Field(site, "description");
    var a := ApplyUpdates(metas, FirstMatchUpdates(site));
    ApplyUpdatesAttributes(metas, FirstMatchUpdates(site));
    var b := seq(|a|, i requires 0 <= i < |a| => OgTag(a[i], title, description));
    seq(|b|, i requires 0 <= i < |b| => TwitterTag(b[i], title, description))
  }

  /** `updatePageMetadata(lang)` given the bundle of `lang`. */
  function MetadataApplied(bundle: Value, p: Page): Page
  {
    var site := Field(bundle, "site");
    if !Present(site) then p
    else
      var title := Field(site.value, "title");
      p.(title := if Present(title) then ToText(title.value) else p.title,
         metas := MetasRewritten(p.metas, site.value))
  }

  /** Everything an accepted `setLanguage(lang)` does to the page. */
  function PageForLanguage(translations: Table, lang: string, p: Page): Page
    requires HasBundle(translations, lang)
  {
    MetadataApplied(translations[lang], TranslationsApplied(translations, lang, LanguageShown(p, lang)).(lang := lang))
  }

  /** `setLanguage(lang)`: an unknown code changes nothing. */
  function SetLanguageSpec(s: State, lang: string): State
  {
    if !HasBundle(s.translations, lang) then s
    else State(lang, s.translations, Some(lang), PageForLanguage(s.translations, lang, s.page))
  }

  /**
   * Every tag whose `property` is exactly "og:title" takes the site title, not
   * only the first, unless the same tag is named "twitter:description".
   */
  lemma EveryOgTitleRewritten(metas: seq<Meta>, site: Value, j: nat)
    requires j < |metas| && metas[j].property == Some("og:title")
    requires metas[j].name != Some("twitter:description")
    requires Present(Field(site, "title"))
    ensures MetasRewritten(metas, site)[j].content == ToText(Field(site, "title").value)
  {
    MetasRewrittenAt(metas, site, j);
  }

  /**
   * A tag that is not the first `description` or `keywords` tag and whose
   * `property` and `name` are not one of the four Open Graph and Twitter
   * targets keeps its content.
   */
  lemma OtherTagsUntouched(metas: seq<Meta>, site: Value, j: nat)
    requires j < |metas|
    requires QuerySelector(metas, ByName("description")) != Some(j)
    requires QuerySelector(metas, ByName("keywords")) != Some(j)
    requires metas[j].property != Some("og:title") && metas[j].property != Some("og:description")
    requires metas[j].name != Some("twitter:title") && metas[j].name != Some("twitter:description")
    ensures MetasRewritten(metas, site)[j] == metas[j]
  {
    var ups := FirstMatchUpdates(site);
    MetasRewrittenAt(metas, site, j);
    assert ups[..1][..0] == [];
    assert LastWrite(metas, ups[..1], j) == None;
  }

  /** One tag after the three rewrites, given what the first-match updates wrote there. */
  lemma {:induction false} MetasRewrittenAt(metas: seq<Meta>, site: Value, j: nat)
    requires j < |metas|
    ensures var title, description := Field(site, "title"), Field(site, "description");
      var first := match LastWrite(metas, FirstMatchUpdates(site), j)
        case Some(s) => metas[j].(content := s)
        case None => metas[j];
      MetasRewritten(metas, site)[j] == TwitterTag(OgTag(first, title, description), title, description)
  {
    ApplyUpdatesAt(metas, FirstMatchUpdates(site), j);
  }

  /** Rewriting the tags a second time changes nothing. */
  lemma MetasRewrittenIdempotent(metas: seq<Meta>, site: Value)
    ensures MetasRewritten(MetasRewritten(metas, site), site) == MetasRewritten(metas, site)
  {
    var once := MetasRewritten(metas, site);
    var twice := MetasRewritten(once, site);
    forall j | 0 <= j < |metas|
      ensures twice[j] == once[j]
    {
      MetasRewrittenAt(metas, site, j);
      MetasRewrittenAt(once, site, j);
      LastWriteStable(metas, once, FirstMatchUpdates(site), j);
    }
  }

  /**
   * `setLanguage` rejects an unknown code with nothing changed; a known code
   * becomes the current language, the stored preference and `<html lang>`,
   * and marks exactly the options whose `data-lang` equals it.
   */
  lemma SetLanguageOutcome(s: State, lang: string)
    ensures var r := SetLanguageSpec(s, lang);
      && (!HasBundle(s.translations, lang) ==> r == s)
      && (HasBundle(s.translations, lang) ==>
            && r.currentLanguage == lang
            && r.preferredLanguage == Some(lang)
            && r.translations == s.translations
            && r.page.lang == lang
            && r.page.languageLabel == (if s.page.languageLabel.Some? then Some(UpperAscii(lang)) else None)
            && |r.page.languageOptions| == |s.page.languageOptions|
            && (forall i :: 0 <= i < |r.page.languageOptions| ==>
                  (r.page.languageOptions[i].active <==> s.page.languageOptions[i].dataLang == Some(lang))))
  {
  }

  /** Switching to the same language twice gives the state of switching once. */
  lemma SetLanguageIdempotent(s: State, lang: string)
    ensures SetLanguageSpec(SetLanguageSpec(s, lang), lang) == SetLanguageSpec(s, lang)
  {
    if HasBundle(s.translations, lang) {
      var b := s.translations[lang];
      LanguageShownIdempotent(s.page, lang);
      BindIdempotent(s.page.elements, Flat(b));
      var site := Field(b, "site");
      if Present(site) {
        MetasRewrittenIdempotent(s.page.metas, site.value);
      }
    }
  }

  /**
   * At startup the stored code is passed on as it is: a code the table lacks
   * is rejected and the page stays untranslated, even when English is there.
   */
  lemma StartupWithUnknownStoredCode(s: State)
    requires !HasBundle(s.translations, SavedLanguage(s.preferredLanguage))
    ensures SetLanguageSpec(s, SavedLanguage(s.preferredLanguage)) == s
  {
  }

  /** The older script's globals, with the page they render into. */
  class Globals {
    var currentLanguage: string
    var translations: Table
    /** The `preferredLanguage` entry of `localStorage`. */
    var preferredLanguage: Option<string>
    const doc: Document

    /** `let currentLanguage = 'en'; let translations = {};` on a page whose storage holds `stored`. */
    constructor (page: Document, stored: Option<string>)
      ensures currentLanguage == "en" && translations == map[]
      ensures preferredLanguage == stored && doc == page
    {
      currentLanguage := "en";
      translations := map[];
      preferredLanguage := stored;
      doc := page;
    }

    function Snapshot(): State
      reads this, doc
    {
      State(currentLanguage, translations, preferredLanguage, doc.Snapshot())
    }

    /**
     * `loadTranslations()`, with the outcome of the fetch given: a fetched
     * table is installed; a failed fetch installs the built-in English table.
     */
    method LoadTranslations(fetched: Option<Table>) returns (ok: bool)
      modifies this
      ensures currentLanguage == old(currentLanguage) && preferredLanguage == old(preferredLanguage)
      ensures ok <==> fetched.Some?
      ensures translations == if fetched.Some? then fetched.value else LegacyFallbackTranslations()
    {
      if fetched.Some? {
        translations := fetched.value;
        ok := true;
      } else {
        translations := LegacyFallbackTranslations();
        ok := false;
      }
    }

    /** `updateTranslations()`. */
    method UpdateTranslations()
      modifies doc
      ensures doc.Snapshot() == TranslationsApplied(translations, currentLanguage, old(doc.Snapshot()))
    {
      if !HasBundle(translations, currentLanguage) {
        return;
      }
      var langData := translations[currentLanguage];
      doc.TranslateTextBindings(Flat(langData));
      doc.TranslatePlaceholderBindings(Flat(langData));
    }

    /** `updatePageMetadata(lang)`; reading `.site` of a missing bundle would throw. */
    method UpdatePageMetadata(lang: string)
      requires lang in translations
      modifies doc
      ensures doc.Snapshot() == MetadataApplied(translations[lang], old(doc.Snapshot()))
    {
      var langData := translations[lang];
      var site := Field(langData, "site");
      if !(site.Some? && Truthy(site.value)) {
        return;
      }
      var title := Field(site.value, "title");
      var description := Field(site.value, "description");
      if title.Some? && Truthy(title.value) {
        doc.title := ToText(title.value);
      }
      doc.ApplyMetaUpdates(FirstMatchUpdates(site.value));
      ghost var before := doc.metas;
      ghost var rest := doc.Snapshot();
      var i := 0;
      while i < |doc.metas|
        invariant 0 <= i <= |doc.metas| == |before|
        invariant forall k :: 0 <= k < i ==> doc.metas[k] == OgTag(before[k], title, description)
        invariant forall k :: i <= k < |before| ==> doc.metas[k] == before[k]
        invariant doc.Snapshot() == rest.(metas := doc.metas)
      {
        doc.metas := doc.metas[i := OgTag(doc.metas[i], title, description)];
        i := i + 1;
      }
      ghost var middle := doc.metas;
      rest := doc.Snapshot();
      i := 0;
      while i < |doc.metas|
        invariant 0 <= i <= |doc.metas| == |middle|
        invariant forall k :: 0 <= k < i ==> doc.metas[k] == TwitterTag(middle[k], title, description)
        invariant forall k :: i <= k < |middle| ==> doc.metas[k] == middle[k]
        invariant doc.Snapshot() == rest.(metas := doc.metas)
      {
        doc.metas := doc.metas[i := TwitterTag(doc.metas[i], title, description)];
        i := i + 1;
      }
    }

    /** `setLanguage(lang)`. */
    method SetLanguage(lang: string)
      modifies this, doc
      ensures Snapshot() == SetLanguageSpec(old(Snapshot()), lang)
      ensures !HasBundle(old(translations), lang) ==> unchanged(this) && unchanged(doc)
    {
      if !HasBundle(translations, lang) {
        return;
      }
      currentLanguage := lang;
      preferredLanguage := Some(lang);
      doc.UpdateLanguageDisplay(lang);
      UpdateTranslations();
      doc.lang := lang;
      UpdatePageMetadata(lang);
    }

    /** The end of `initializeApp`: the stored code, or "en" when nothing is stored. */
    method Startup()
      modifies this, doc
      ensures Snapshot() == SetLanguageSpec(old(Snapshot()), SavedLanguage(old(preferredLanguage)))
    {
      var savedLanguage := SavedLanguage(preferredLanguage);
      SetLanguage(savedLanguage);
    }
  }
}
