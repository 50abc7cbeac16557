/**
 * The language engine of the newer script: the `FastFunRC` state object,
 * `setLanguage` and the three page updates it schedules, the startup choice of
 * language and `loadTranslations` with its cache. The page updates that the
 * script batches into one animation frame run here immediately, in the same order.
 */
module OptimizedEngine {
  import opened Wrappers
  import opened Values
  import opened Resolver
  import opened Dom
  import opened Fallback
  import opened Session

  /** `updateTranslations()`: both binding passes with the path walk, then `<html lang>`. */
  function TranslationsApplied(translations: Table, current: string, p: Page): Page
  {
    if !HasBundle(translations, current) then p
    else p.(elements := Bind(p.elements, Nested(translations[current])), lang := current)
  }

  /** The six `metaUpdates` of `updatePageMetadata`, in the script's order. */
  function MetaUpdatesFor(site: Value): seq<MetaUpdate>
  {
    [ MetaUpdate(ByName("description"), Field(site, "description")),
      MetaUpdate(ByName("keywords"), Field(site, "keywords")),
      MetaUpdate(ByProperty("og:title"), Field(site, "title")),
      MetaUpdate(ByProperty("og:description"), Field(site, "description")),
      MetaUpdate(ByName("twitter:title"), Field(site, "title")),
      MetaUpdate(ByName("twitter:description"), Field(site, "description")) ]
  }

  /** `updatePageMetadata(lang)` given the bundle of `lang`. */
  function MetadataApplied(bundle: Value, p: Page): Page
  {
    var site := Field(bundle, "site");
    if !Present(site) then p
    else
      var title := Field(site.value, "title");
      p.(title := if Present(title) then ToText(title.value) else p.title,
         metas := ApplyUpdates(p.metas, MetaUpdatesFor(site.value)))
  }

  /** Everything an accepted `setLanguage(lang)` does to the page. */
  function PageForLanguage(translations: Table, lang: string, p: Page): Page
    requires HasBundle(translations, lang)
  {
    MetadataApplied(translations[lang], TranslationsApplied(translations, lang, LanguageShown(p, lang)))
  }

  /** `setLanguage(lang)`: an unknown code changes nothing. */
  function SetLanguageSpec(s: State, lang: string): State
  {
    if !HasBundle(s.translations, lang) then s
    else State(lang, s.translations, Some(lang), PageForLanguage(s.translations, lang, s.page))
  }

  /** The code the startup handler passes to `setLanguage`. */
  function StartupChoice(stored: Option<string>, translations: Table): string
  {
    var saved := SavedLanguage(stored);
    if HasBundle(translations, saved) then saved else "en"
  }

  /**
   * `setLanguage` rejects an unknown code with nothing changed; a known code
   * becomes the current language and the stored preference, is shown
   * upper-cased, marks exactly the options whose `data-lang` equals it, and
   * becomes `<html lang>`. The table is never touched.
   */
  lemma SetLanguageOutcome(s: State, lang: string)
    ensures var r := SetLanguageSpec(s, lang);
      && (!HasBundle(s.translations, lang) ==> r == s)
      && (HasBundle(s.translations, lang) ==>
            && r.currentLanguage == lang
            && r.preferredLanguage == Some(lang)
            && r.translations == s.translations
            && r.page.lang == lang
            && r.page.languageLabel == (if s.page.languageLabel.Some? then Some(UpperAscii(lang)) else None)
            && |r.page.languageOptions| == |s.page.languageOptions|
            && (forall i :: 0 <= i < |r.page.languageOptions| ==>
                  (r.page.languageOptions[i].active <==> s.page.languageOptions[i].dataLang == Some(lang))))
  {
  }

  /** The page update of an accepted switch is idempotent. */
  lemma PageForLanguageIdempotent(translations: Table, lang: string, p: Page)
    requires HasBundle(translations, lang)
    ensures PageForLanguage(translations, lang, PageForLanguage(translations, lang, p))
         == PageForLanguage(translations, lang, p)
  {
    var b := translations[lang];
    LanguageShownIdempotent(p, lang);
    BindIdempotent(p.elements, Nested(b));
    var site := Field(b, "site");
    if Present(site) {
      ApplyUpdatesIdempotent(p.metas, MetaUpdatesFor(site.value));
    }
  }

  /** Switching to the same language twice gives the state of switching once. */
  lemma SetLanguageIdempotent(s: State, lang: string)
    ensures SetLanguageSpec(SetLanguageSpec(s, lang), lang) == SetLanguageSpec(s, lang)
  {
    if HasBundle(s.translations, lang) {
      PageForLanguageIdempotent(s.translations, lang, s.page);
    }
  }

  /**
   * Starting from the initial `currentLanguage` "en", startup ends on the
   * stored preference when the table has it and on "en" otherwise; a missing
   * or empty stored value counts as "en".
   */
  lemma StartupLanguage(s: State)
    requires s.currentLanguage == "en"
    ensures var saved := SavedLanguage(s.preferredLanguage);
      SetLanguageSpec(s, StartupChoice(s.preferredLanguage, s.translations)).currentLanguage
        == if HasBundle(s.translations, saved) then saved else "en"
  {
  }

  /**
   * Whatever startup chose is what it stores, so the next page load makes the
   * same choice.
   */
  lemma StartupChoiceStable(s: State)
    requires HasBundle(s.translations, StartupChoice(s.preferredLanguage, s.translations))
    ensures var choice := StartupChoice(s.preferredLanguage, s.translations);
      var r := SetLanguageSpec(s, choice);
      r.preferredLanguage == Some(choice)
      && StartupChoice(r.preferredLanguage, r.translations) == choice
  {
  }

  /** The newer script's state object, with the page it renders into. */
  class FastFunRC {
    var currentLanguage: string
    var translations: Table
    /** The `translations` entry of the `cache` Map, if set. */
    var cache: Option<Table>
    /** The `preferredLanguage` entry of `localStorage`. */
    var preferredLanguage: Option<string>
    const doc: Document

    /** The object literal at the top of the script, on a page whose storage holds `stored`. */
    constructor (page: Document, stored: Option<string>)
      ensures currentLanguage == "en" && translations == map[] && cache == None
      ensures preferredLanguage == stored && doc == page
    {
      currentLanguage := "en";
      translations := map[];
      cache := None;
      preferredLanguage := stored;
      doc := page;
    }

    function Snapshot(): State
      reads this, doc
    {
      State(currentLanguage, translations, preferredLanguage, doc.Snapshot())
    }

    /**
     * `loadTranslations()`, with the outcome of the fetch given: a cached table
     * wins; a fetched table is installed and cached; a failed fetch installs
     * the built-in English table and is not cached.
     */
    method LoadTranslations(fetched: Option<Table>) returns (ok: bool)
      modifies this
      ensures currentLanguage == old(currentLanguage) && preferredLanguage == old(preferredLanguage)
      ensures old(cache).Some? ==> ok && translations == old(cache).value && cache == old(cache)
      ensures old(cache).None? && fetched.Some? ==>
        ok && translations == fetched.value && cache == fetched
      ensures old(cache).None? && fetched.None? ==>
        !ok && translations == FallbackTranslations() && cache == None
    {
      if cache.Some? {
        translations := cache.value;
        return true;
      }
      if fetched.Some? {
        translations := fetched.value;
        cache := fetched;
        ok := true;
      } else {
        translations := FallbackTranslations();
        ok := false;
      }
    }

    /** `updateTranslations()`. */
    method UpdateTranslations()
      modifies doc
      ensures doc.Snapshot() == TranslationsApplied(translations, currentLanguage, old(doc.Snapshot()))
    {
      if !HasBundle(translations, currentLanguage) {
        return;
      }
      var langData := translations[currentLanguage];
      doc.TranslateTextBindings(Nested(langData));
      doc.TranslatePlaceholderBindings(Nested(langData));
      doc.lang := currentLanguage;
    }

    /** `updatePageMetadata(lang)`; reading `.site` of a missing bundle would throw. */
    method UpdatePageMetadata(lang: string)
      requires lang in translations
      modifies doc
      ensures doc.Snapshot() == MetadataApplied(translations[lang], old(doc.Snapshot()))
    {
      var langData := translations[lang];
      var site := Field(langData, "site");
      if !(site.Some? && Truthy(site.value)) {
        return;
      }
      var title := Field(site.value, "title");
      if title.Some? && Truthy(title.value) {
        doc.title := ToText(title.value);
      }
      doc.ApplyMetaUpdates(MetaUpdatesFor(site.value));
    }

    /** `setLanguage(lang)`. */
    method SetLanguage(lang: string)
      modifies this, doc
      ensures Snapshot() == SetLanguageSpec(old(Snapshot()), lang)
      ensures cache == old(cache)
      ensures !HasBundle(old(translations), lang) ==> unchanged(this) && unchanged(doc)
    {
      if !HasBundle(translations, lang) {
        return;
      }
      currentLanguage := lang;
      preferredLanguage := Some(lang);
      doc.UpdateLanguageDisplay(lang);
      UpdateTranslations();
      UpdatePageMetadata(lang);
    }

    /** The startup handler: the stored preference if the table has it, else "en". */
    method Startup()
      modifies this, doc
      ensures Snapshot()
           == SetLanguageSpec(old(Snapshot()), StartupChoice(old(preferredLanguage), old(translations)))
      ensures cache == old(cache)
    {
      var savedLanguage := SavedLanguage(preferredLanguage);
      if HasBundle(translations, savedLanguage) {
        SetLanguage(savedLanguage);
      } else {
        SetLanguage("en");
      }
    }
  }
}
