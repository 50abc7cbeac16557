# FastFun Remote Control: the language engine, in Dafny

The FastFun Remote Control site ships two versions of its client script.
`script-optimized.js` is the newer one and `script.js` the older. Both load a
translation table from `translations.json`. The table maps a language code to a
nested bundle of strings. Switching language does four things:

- it records the code as the current language and in `localStorage`;
- it shows the code in the language selector;
- it fills every element annotated with `data-i18n` or `data-i18n-placeholder`;
- it copies the bundle's `site` title, description and keywords into the
  document title and the `<meta>` tags.

This project models that engine in both versions, together with the small rules
beside it:

- the newsletter e-mail check;
- the "validate every required input" loop;
- the scroll rule that picks the active navigation link;
- the "localized text or English default" status messages.

Module by module:

- `Values` is the translation table. A bundle is a `Value`, which is a string or
  an object. The module also states the JavaScript notions the scripts rely on:
  - truthiness;
  - own-property lookup;
  - the string a DOM property holds after an assignment.
- `KeyPath` is `split('.')` and its inverse `join('.')`.
- `Resolver` holds the two key resolvers:
  - the newer one walks a dotted path, one own property per segment
    (`getTranslationValue`);
  - the older one reads the annotation as one property name and keeps only a
    truthy result.
- `Dom` is the part of the page the engine touches:
  - it describes the elements, meta tags, language options and label as records;
  - it specifies each DOM loop as a function;
  - its `Document` class holds the live page, and its methods run the loops in place.
- `Fallback` holds the built-in English tables of both scripts.
- `Session` holds the state both scripts keep, and the read of the stored preference.
- `OptimizedEngine` models the newer script. Its class `FastFunRC` has `setLanguage`,
  `updateTranslations`, `updatePageMetadata`, `loadTranslations` with its cache,
  and the startup handler.
- `LegacyEngine` models the older script. Its class `Globals` holds the module-level
  variables and has the same operations. The lookup is flat, and the Open Graph and
  Twitter loops rewrite every matching tag.
- `EmailCheck` is `validateEmail`. The function is proved equal to the language of
  its regular expression.
- `FormValidation` is `validateInput` and `validateForm`.
- `ScrollNav` is the active-link part of `handleScroll`.
- `StatusText` covers the form status messages. The older script looks up all six
  in the current bundle, with an English default. The newer one looks up the four
  outcome messages and shows the two loading texts as fixed English.

Each state-changing method is proved against a function:
`Snapshot() == SetLanguageSpec(old(Snapshot()), lang)` for `setLanguage`, and
`doc.Snapshot() == TranslationsApplied(...)` for the binding passes. The
properties the scripts promise are then lemmas about those functions:

- rejection with nothing changed;
- presence-gated writes;
- idempotent switching;
- the startup choice.

## Model

| member | source | states |
|---|---|---|
| KeyPath.JoinSplit | script-optimized.js:218 | splitting a key path on "." loses nothing: joining the segments gives the path back |
| KeyPath.SplitJoin | script-optimized.js:218 | splitting the join of dot-free segments gives exactly those segments |
| KeyPath.SplitConcat | script-optimized.js:218 | the segments of `p.q` are the segments of `p` followed by those of `q` |
| Resolver.GetTranslationValue | script-optimized.js:216-217 | a missing or falsy root, or an empty key path, resolves to null |
| Resolver.WalkFromNothing | script-optimized.js:218-223 | once a segment has missed, the walk stays at null to the end |
| Resolver.WalkFromLeaf | script-optimized.js:219 | a string owns no key, so any further segment gives null |
| Resolver.WalkAppend | script-optimized.js:218-223 | walking `a + b` is walking `b` from where walking `a` ended |
| Resolver.ResolveSegment | script-optimized.js:216-224 | a dot-free key is one own-property lookup, and a nested mapping is returned as it is (no leaf-only check) |
| Resolver.ResolveSegments | script-optimized.js:216-224 | a path of dot-free segments does exactly one lookup per segment |
| Resolver.ResolveDotted | script-optimized.js:216-224 | resolving `p.q` is resolving `q` in whatever `p` resolved to |
| Resolver.FlatAgreesOnSegments | script.js:141 | on a dot-free key the flat lookup is the path walk with falsy results dropped |
| Dom.TextPass | script-optimized.js:234-246 | the `[data-i18n]` pass rewrites each element by the per-element rule and keeps the element count |
| Dom.PlaceholderPass | script-optimized.js:249-255 | the `[data-i18n-placeholder]` pass rewrites each element by the per-element rule and keeps the element count |
| Dom.BindAt | script.js:139-158 | after both passes an element changes only in text and placeholder; text and email INPUTs take the `data-i18n` value as placeholder, every other element takes it as text; a `data-i18n-placeholder` value wins for the placeholder; an unresolved key leaves the element as it was |
| Dom.BindIdempotent | script-optimized.js:226-259 | running both binding passes twice with one bundle gives the result of running them once |
| Dom.MarkActive | script-optimized.js:211-213 | every option keeps its `data-lang`, and is active exactly when its `data-lang` equals the code |
| Dom.QuerySelector | script-optimized.js:281 | `querySelector` gives the first matching tag in document order, or null when no tag matches |
| Dom.QuerySelectorStable | script-optimized.js:281 | which tag a selector finds does not depend on any tag's content |
| Dom.ApplyUpdatesAt | script-optimized.js:280-285 | each tag ends with the value of the last update that found it with a truthy value; a tag no such update found is unchanged |
| Dom.ApplyUpdatesIdempotent | script-optimized.js:280-285 | applying the meta updates a second time changes nothing |
| Dom.LanguageShownIdempotent | script-optimized.js:204-214 | showing the same code twice in the selector is showing it once |
| Dom.Document.UpdateLanguageDisplay | script-optimized.js:204-214 | the label, if present, shows the upper-cased code; the options are marked by `MarkActive`; nothing else changes |
| Dom.Document.TranslateTextBindings | script-optimized.js:234-246 | the loop leaves the elements equal to `TextPass` of the old elements; nothing else changes |
| Dom.Document.TranslatePlaceholderBindings | script-optimized.js:249-255 | the loop leaves the elements equal to `PlaceholderPass` of the old elements; nothing else changes |
| Dom.Document.ApplyMetaUpdates | script-optimized.js:280-285 | the loop leaves the tags equal to the updates applied in order; nothing else changes |
| Fallback.FallbackTranslations | script-optimized.js:90-132 | the newer built-in table holds English only, with a truthy bundle |
| Fallback.LegacyFallbackTranslations | script.js:48-97 | the older built-in table holds English only, with a truthy bundle |
| Fallback.FlatLookupNeverYieldsText | script.js:141 | on the older built-in English bundle the flat lookup misses or finds a whole object, never a string |
| Fallback.NavHomeCounterexample | script.js:141 | "nav.home" misses under the flat lookup and resolves to "Home" under the path walk |
| OptimizedEngine.SetLanguageOutcome | script-optimized.js:187-202 | an unknown or falsy code changes nothing; a known code becomes the current language, the stored preference and `<html lang>`; the label shows it upper-cased; exactly the options with that `data-lang` are active; the table is untouched |
| OptimizedEngine.PageForLanguageIdempotent | script-optimized.js:197-201 | the page updates of an accepted switch, done twice, give the page of doing them once |
| OptimizedEngine.SetLanguageIdempotent | script-optimized.js:187-202 | calling `setLanguage` twice with the same code gives the state of calling it once |
| OptimizedEngine.StartupLanguage | script-optimized.js:935-947 | startup ends on the stored code when the table has it, and on "en" otherwise; a missing or empty stored value counts as "en" |
| OptimizedEngine.StartupChoiceStable | script-optimized.js:935-947 | the code startup chooses is the one it stores, so the next load makes the same choice |
| OptimizedEngine.FastFunRC.constructor | script-optimized.js:4-10 | the state starts on "en" with an empty table and an empty cache |
| OptimizedEngine.FastFunRC.LoadTranslations | script-optimized.js:56-87 | a cached table wins; a fetched table is installed and cached; a failed fetch installs the built-in English table, is not cached, and reports false |
| OptimizedEngine.FastFunRC.UpdateTranslations | script-optimized.js:226-259 | without a truthy bundle the page is unchanged; otherwise both binding passes run with the path walk and `<html lang>` becomes the current language |
| OptimizedEngine.FastFunRC.UpdatePageMetadata | script-optimized.js:261-286 | without a truthy `site` the page is unchanged; otherwise a truthy title is set and the six meta updates are applied to the first match of each selector |
| OptimizedEngine.FastFunRC.SetLanguage | script-optimized.js:187-202 | the new state is `SetLanguageSpec` of the old state; the cache is kept; an unknown code changes no field of the state or the page |
| OptimizedEngine.FastFunRC.Startup | script-optimized.js:935-947 | the new state is `setLanguage` of the startup choice, applied to the old state |
| LegacyEngine.SetLanguageOutcome | script.js:103-131 | an unknown or falsy code changes nothing; a known code becomes the current language, the stored preference and `<html lang>`; the label shows it upper-cased; exactly the options with that `data-lang` are active |
| LegacyEngine.SetLanguageIdempotent | script.js:103-131 | calling `setLanguage` twice with the same code gives the state of calling it once |
| LegacyEngine.MetasRewritten | script.js:170-200 | the metadata writes change no tag's `name` or `property` and keep the tag count |
| LegacyEngine.MetasRewrittenAt | script.js:170-200 | each tag gets the first-match description and keywords write, then the Open Graph rule, then the Twitter rule |
| LegacyEngine.EveryOgTitleRewritten | script.js:183-200 | every tag whose `property` is "og:title" takes a truthy site title, not only the first such tag, unless the same tag is named "twitter:description" |
| LegacyEngine.OtherTagsUntouched | script.js:170-200 | a tag that is neither the first description nor the first keywords tag, nor one of the four Open Graph and Twitter targets, keeps its content |
| LegacyEngine.MetasRewrittenIdempotent | script.js:170-200 | rewriting the tags a second time changes nothing |
| LegacyEngine.StartupWithUnknownStoredCode | script.js:29-30 | a stored code the table lacks is rejected, so the state stays as it was, with current language "en" and the page untranslated |
| LegacyEngine.Globals.constructor | script.js:4-5 | the globals start on "en" with an empty table |
| LegacyEngine.Globals.LoadTranslations | script.js:37-100 | a fetched table is installed; a failed fetch installs the built-in English table; the result says which happened |
| LegacyEngine.Globals.UpdateTranslations | script.js:133-159 | without a truthy bundle the page is unchanged; otherwise both binding passes run with the flat lookup |
| LegacyEngine.Globals.UpdatePageMetadata | script.js:161-201 | without a truthy `site` the page is unchanged; otherwise a truthy title is set and the tags become `MetasRewritten` of the old tags |
| LegacyEngine.Globals.SetLanguage | script.js:103-131 | the new state is `SetLanguageSpec` of the old state; an unknown code changes no field of the state or the page |
| LegacyEngine.Globals.Startup | script.js:29-30 | the new state is `setLanguage` of the stored code (or "en") applied to the old state, with no fall-back to "en" |
| EmailCheck.ValidateEmail | script-optimized.js:582-585 | true exactly when the address is a run, "@", a run, ".", a run, where a run is one or more characters that are neither whitespace nor "@" |
| EmailCheck.PatternIffCheck | script-optimized.js:583 | a string matches the pattern exactly when its first "@" is preceded by a run, and is followed by plain characters with a "." that has a character on each side |
| EmailCheck.RejectsMissingDot | script-optimized.js:583 | "a@b" is rejected |
| EmailCheck.RejectsDoubleAt | script-optimized.js:583 | "a@@b.c" is rejected |
| EmailCheck.AcceptsShortest | script-optimized.js:583 | "a@b.c" is accepted |
| EmailCheck.RejectsSpace | script-optimized.js:583 | any string with a whitespace character is rejected |
| FormValidation.ValidateInput | script-optimized.js:426-438 | returns the input's verdict, and sets `error` and `aria-invalid` to match it |
| FormValidation.ValidateForm | script-optimized.js:569-580 | true exactly when every required input is valid, and every input is marked, since the loop does not stop early |
| ScrollNav.NoSectionReached | script.js:596-603 | when no section has been reached, `current` is "" |
| ScrollNav.LastSectionReached | script.js:596-603 | otherwise `current` is the id of the last reached section in document order |
| ScrollNav.ActiveSection | script.js:596-603 | the loop computes `current` as specified |
| ScrollNav.Navigation.HandleScroll | script.js:587-610 | the navbar is `scrolled` exactly past 50 pixels, and exactly the links whose `href` is "#" followed by `current` are active |
| ScrollNav.AboveAllSections | script.js:605-610 | above every section the links whose `href` is exactly "#" become active |
| StatusText.ChainIsWalk | script.js:304 | the optional chain `a?.b?.c` gives the same result as the path walk of `getTranslationValue` |
| StatusText.MessageResolvesDottedKey | script-optimized.js:483-484 | a status message is the resolved dotted key when that value is truthy, and the English default otherwise |
| StatusText.MissingBundleShowsDefault | script.js:304 | without a truthy bundle for the current language (none, or the empty string), every message is its English default |
| StatusText.FallbackMatchesDefaults | script-optimized.js:113-126 | with the newer built-in English table, the newer script shows every status message with exactly its hard-coded default |
| StatusText.LegacyFallbackMatchesDefaults | script.js:79-92 | with the older built-in English table, the older script shows every status message with exactly its hard-coded default |

## Left out

- Fetching `translations.json` and the contact and newsletter posts are not modelled. `LoadTranslations` takes the outcome of the fetch, a table or a failure, as a parameter. The posts, analytics and performance metrics are out.
- `requestAnimationFrame` is not modelled: the page updates of `setLanguage` run at once, in the script's order. The frame actually runs later. If `setLanguage` is called twice before the frame, the frame reads the newer `currentLanguage`; the model does not capture that.
- The 100 ms startup timer is not modelled: the startup handler runs on whatever table is loaded when it runs.
- The button loading and restore states and the message-hiding timers are out. Only the text of the status messages is modelled.
- JSON numbers, booleans, null and arrays are not modelled: a bundle value is a string or an object.
- String own properties are not modelled: `hasOwnProperty` on a string finds `length` and the index properties, but here a string has no own keys. So `"nav.home.length"` resolves to null here, not to a number.
- The prototype chain is not modelled: a code or key such as `constructor` or `toString` finds an inherited member in JavaScript, and is absent here.
- Dom.UpperAscii: `toUpperCase` is modelled on ASCII letters only. Language codes are ASCII.
- Strings are sequences of Unicode scalar values, not UTF-16 code units. This makes no difference to `validateEmail`: both halves of a surrogate pair are characters of `[^\s@]`.
- Nesting among the page's elements is not modelled. The annotated elements are taken to be neither nested in one another nor the `#currentLanguage` label or a `.language-option`. In the browser, assigning `textContent` detaches annotated descendants, which the pass still writes. A label or option that also carried `data-i18n` would be overwritten by the text pass, which runs after the language display is updated.
- `checkValidity()` is not modelled: each input carries its verdict as a given constant.
- Which controls `input[required], textarea[required], select[required]` selects is not modelled: `validateForm` receives them as a sequence.
- `window.scrollY` is a real number and `offsetTop` an integer. A missing `#navbar`, which makes `handleScroll` throw, is not modelled.
- URL-prefix language switching, alternate-language links and history updates are in neither script, so they are not modelled.
- Everything else in the two scripts is out because it is not part of the language engine: the mobile menu, animations and counters, smooth scrolling, lazy loading, the product URL parameter, throttling and debouncing.
- `interactions-enhanced.js` is not part of this model.

## Findings

| source | as written | input that shows it | evidently intended | confidence | as-written member | corrected member |
|---|---|---|---|---|---|---|
| script.js:141 | `updateTranslations` reads `langData[key]` with the whole annotation as one property name | the built-in English bundle with an element annotated `data-i18n="nav.home"`: `langData["nav.home"]` is undefined, so the element keeps its static text; an annotation naming a top-level key such as `nav` finds an object and shows "[object Object]" | resolve the annotation as a dotted path through the nested bundle, as `getTranslationValue` does in script-optimized.js:216-224 and as the older script's own status messages do with `?.` chains | medium, not executed | Fallback.NavHomeCounterexample | Resolver.ResolveDotted |
