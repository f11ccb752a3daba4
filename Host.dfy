/**
 * What the plugin receives from its host CMS on each request: optional
 * stored options and the page-type conditionals of the current query.
 */
module Host {

  datatype Option<T> = None | Some(value: T)

  /** `get_option(name, default)`: the stored value, or the default when the option does not exist. */
  function GetOption(stored: Option<string>, default: string): (r: string)
    ensures stored.Some? ==> r == stored.value
    ensures stored.None? ==> r == default
  {
    match stored
    case Some(v) => v
    case None => default
  }

  /**
   * The page-type conditionals (`is_singular()`, `is_front_page()`, ...).
   * They are independent inputs: the host may report several at once
   * (a category page is also an archive).
   */
  datatype Page = Page(
    singular: bool,
    frontPage: bool,
    single: bool,
    page: bool,
    category: bool,
    tag: bool,
    archive: bool,
    date: bool,
    author: bool)
}
