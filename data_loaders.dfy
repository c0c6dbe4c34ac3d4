/**
 * The later copy of the loader helpers (`data/crawler/loaders.py`). Its
 * `extract_id`, `determine_gender`, `extract_scheduled_rounds` and
 * `convert_seconds` are the same code as the older crawler's and are the
 * `Loaders` definitions; `clean_na` is restructured and `check_title`
 * returns a `bool`, and each is shown to agree with the older one.
 */
module DataLoaders {
  import opened Wrappers
  import opened PyText
  import Loaders

  /** `clean_na` of the later copy: falsy input first, then the placeholders, then strip. */
  function CleanNa(text: Option<string>): (r: Option<string>)
    ensures r.Some? ==> text.Some? && r.value == Strip(text.value) && !Loaders.NotAvailable(text.value)
    ensures text.Some? && text.value != [] && !Loaders.NotAvailable(text.value) ==> r.Some?
  {
    if text.None? || text.value == [] then None
    else if Loaders.NotAvailable(text.value) then None
    else Some(Strip(text.value))
  }

  /** The restructured `clean_na` cleans every input exactly as the older one. */
  lemma {:induction false} CleanNaAgrees(text: Option<string>)
    ensures CleanNa(text) == Loaders.CleanNa(text)
  {
  }

  /** `check_title` of the later copy: True when the text mentions a title, in any letter case. */
  function CheckTitle(text: string): (r: bool)
    ensures r <==> exists i :: OccursAt(Lower(text), "title", i)
  {
    ContainsAt(Lower(text), "title");
    Contains(Lower(text), "title")
  }

  /** The flag is True exactly when the older loader stores 1 (Python's `True == 1`). */
  lemma {:induction false} CheckTitleAgrees(text: string)
    ensures CheckTitle(text) <==> Loaders.CheckTitle(text) == 1
    ensures !CheckTitle(text) <==> Loaders.CheckTitle(text) == 0
  {
  }
}
