/**
 * The built-in English bundles each script installs when `translations.json`
 * cannot be loaded. The newer script returns its bundle from
 * `getFallbackTranslations`; the older one assigns a slightly larger bundle
 * (it also has `products`) inline.
 */
module Fallback {
  import opened Wrappers
  import opened Values
  import opened Resolver

  const SiteTitle: string := "FastFun Remote Control"
  const SiteDescription: string :=
    "Professional RF remote replacement and Wi-Fi switch solutions. Compatible with LiftMaster, Chamberlain, and 80% of garage door brands."
  const SiteKeywords: string :=
    "RF remote replacement, Wi-Fi switch, car remote control, garage door remote, LiftMaster compatible, Chamberlain remote, universal RF controller"

  const Site: Value := Node(map[
    "title" := Str(SiteTitle),
    "description" := Str(SiteDescription),
    "keywords" := Str(SiteKeywords)])

  const Nav: Value := Node(map[
    "home" := Str("Home"),
    "about" := Str("About"),
    "products" := Str("Products"),
    "blog" := Str("Blog"),
    "contact" := Str("Contact"),
    "getQuote" := Str("Get Quote")])

  const Loading: Value := Node(map["message" := Str("Loading...")])

  const Home: Value := Node(map[
    "heroTitle" := Str("Professional RF Remote Control Solutions"),
    "heroSubtitle" := Str("14+ Years Manufacturing Excellence | 20+ Brand Compatibility | ODM/OEM Available"),
    "heroCtaPrimary" := Str("Get Quote Now"),
    "heroCtaSecondary" := Str("Download Catalog")])

  const Products: Value := Node(map[
    "title" := Str("Our Products"),
    "subtitle" := Str("Professional remote control solutions for every application"),
    "rfRemote" := Node(map[
      "title" := Str("RF Remote"),
      "description" := Str("High-performance RF remote controls with reliable signal transmission and long battery life."),
      "cta" := Str("Get Quote")])])

  const Contact: Value := Node(map[
    "form" := Node(map[
      "sending" := Str("Sending..."),
      "success" := Str("Thank you for your message! We'll get back to you soon."),
      "error" := Str("Sorry, there was an error sending your message. Please try again later.")])])

  const Blog: Value := Node(map[
    "subscribe" := Node(map[
      "subscribing" := Str("Subscribing..."),
      "subscribed" := Str("Subscribed!"),
      "error" := Str("Error. Please try again.")])])

  const Footer: Value := Node(map["copyright" := Str("\U{00A9} 2025 FastFun Remote. All rights reserved.")])

  /** The English bundle of `getFallbackTranslations`. */
  const OptimizedEnglish: Value := Node(map[
    "site" := Site, "nav" := Nav, "loading" := Loading, "home" := Home,
    "contact" := Contact, "blog" := Blog, "footer" := Footer])

  /** The English bundle the older script assigns when loading fails. */
  const LegacyEnglish: Value := Node(map[
    "site" := Site, "nav" := Nav, "loading" := Loading, "home" := Home,
    "products" := Products, "contact" := Contact, "blog" := Blog, "footer" := Footer])

  /** `getFallbackTranslations()`: English only. */
  function FallbackTranslations(): (t: Table)
    ensures t.Keys == {"en"} && HasBundle(t, "en")
  {
    map["en" := OptimizedEnglish]
  }

  /** The table the older script falls back to: English only. */
  function LegacyFallbackTranslations(): (t: Table)
    ensures t.Keys == {"en"} && HasBundle(t, "en")
  {
    map["en" := LegacyEnglish]
  }

  /** Every top-level entry of the older fallback bundle is a nested object. */
  lemma LegacyTopLevelIsNested(key: string)
    requires HasOwn(LegacyEnglish, key)
    ensures LegacyEnglish.children[key].Node?
  {
  }

  /**
   * As written, the older script's flat lookup can never produce a string from
   * its own fallback bundle: it misses, or it finds a whole object, which
   * would be shown as "[object Object]".
   */
  lemma FlatLookupNeverYieldsText(key: string)
    ensures FlatLookup(LegacyEnglish, key).None? || FlatLookup(LegacyEnglish, key).value.Node?
  {
    if HasOwn(LegacyEnglish, key) {
      LegacyTopLevelIsNested(key);
    }
  }

  /** The dotted key "nav.home" misses under the flat lookup and resolves under the path walk. */
  lemma NavHomeCounterexample()
    ensures FlatLookup(LegacyEnglish, "nav.home").None?
    ensures GetTranslationValue(Some(LegacyEnglish), "nav.home") == Some(Str("Home"))
  {
    NoDottedTopLevelKey();
    assert "nav" + "." + "home" == "nav.home";
    ResolveDotted(Some(LegacyEnglish), "nav", "home");
    NavResolves();
    HomeResolves();
  }

  lemma NoDottedTopLevelKey()
    ensures "nav.home" !in LegacyEnglish.children
  {
  }

  lemma NavResolves()
    ensures GetTranslationValue(Some(LegacyEnglish), "nav") == Some(Nav)
  {
    ResolveSegment(LegacyEnglish.children, "nav");
  }

  lemma HomeResolves()
    ensures GetTranslationValue(Some(Nav), "home") == Some(Str("Home"))
  {
    ResolveSegment(Nav.children, "home");
  }
}
