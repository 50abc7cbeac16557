/**
 * What both scripts keep between calls: the current language, the loaded
 * table, the `preferredLanguage` entry of `localStorage`, and the page.
 */
module Session {
  import opened Wrappers
  import opened Values
  import opened Dom

  datatype State = State(
    currentLanguage: string,
    translations: Table,
    preferredLanguage: Option<string>,
    page: Page)

  /** `localStorage.getItem('preferredLanguage') || 'en'`: a missing or empty entry reads as "en". */
  function SavedLanguage(stored: Option<string>): (lang: string)
    ensures lang != ""
    ensures stored.Some? && stored.value != "" ==> lang == stored.value
    ensures stored.None? || stored.value == "" ==> lang == "en"
  {
    if stored.Some? && stored.value != "" then stored.value else "en"
  }
}
