/** Small failure-aware wrappers shared by the scraper model.

    The scraper talks to three foreign systems (a headless browser, a
    language-model API and an HTTP client).  Each call into them is modelled
    as an oracle value: either it passes, or it raises an exception whose
    `str(e)` is the carried message. */
module Common {

  datatype Option<T> = None | Some(value: T)

  /** Outcome of a foreign call that returns nothing useful. */
  datatype Outcome = Pass | Fail(msg: string)

  /** Outcome of a foreign call that returns a value. */
  datatype Fallible<T> = Ok(value: T) | Err(msg: string)
}
