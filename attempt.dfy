/** One pass through the `try` block of `scrape_product` (webscraper.py,
    lines 134-150): launch a browser, open a page, navigate, handle pop-ups,
    extract the content, close the browser, ask the language model.

    Every foreign call is an oracle in `World`.  The first call that raises
    ends the attempt with its message; later calls are not made. */
module Attempt {
  import opened Common
  import opened Text
  import opened Popups
  import opened Summarizer

  /** The page's full HTML and its visible text. */
  datatype Snapshot = Snapshot(html: string, text: string)

  /** What the foreign systems do during one attempt. */
  datatype World = World(
    launch: Outcome,                  // launch(headless=True, ...)
    newPage: Outcome,                 // browser.newPage()
    navigate: Outcome,                // page.goto(url, networkidle2, 60 s)
    page: Page,                       // what handle_popups finds on the page
    extraction: Fallible<Snapshot>,   // extract_raw_content(page)
    close: Outcome,                   // browser.close()
    completion: Fallible<string>)     // the model's reply content, before strip()

  /** What became of the attempt's browser session. */
  datatype Session = NotLaunched | Leaked | Closed

  datatype AttemptResult = Succeeded(text: string) | Failed(error: string)

  /** Everything one attempt did: its result, its browser session, the
      pop-up report (once navigation succeeded), the model request (once the
      browser was closed), and whether the term check logged a warning. */
  datatype AttemptRun = AttemptRun(
    result: AttemptResult,
    session: Session,
    popups: Option<PopupReport>,
    request: Option<seq<Message>>,
    termWarning: bool)

  /** The browser calls up to `page.goto` all went through. */
  predicate Navigated(w: World)
  {
    w.launch.Pass? && w.newPage.Pass? && w.navigate.Pass?
  }

  /** The browser calls up to `browser.close()` all went through. */
  predicate Released(w: World)
  {
    Navigated(w) && w.extraction.Ok? && w.close.Pass?
  }

  /** The log-only check of line 148: the output does not mention the term,
      compared case-insensitively.  An output that contains the term as it
      is, and in particular any output for an empty term, is never flagged. */
  predicate MissesTerm(output: string, term: string): (r: bool)
    ensures ContainsInfix(output, term) ==> !r
    ensures term == "" ==> !r
  {
    InfixSurvivesLower(output, term);
    assert term == "" ==> Lower(term) <= Lower(output)[0..];
    !ContainsInfix(Lower(output), Lower(term))
  }

  /** One attempt.  The browser is closed only after a successful extraction,
      so a failure in `newPage`, `goto`, extraction or `close` leaves the
      launched session open; a model failure comes after the close. */
  function RunAttempt(w: World, term: string): (run: AttemptRun)
    ensures run.result.Succeeded? <==> Released(w) && w.completion.Ok?
    ensures run.result.Succeeded? ==> run.result.text == Strip(w.completion.value)
    ensures w.launch.Fail? ==> run.result == Failed(w.launch.msg)
    ensures w.launch.Pass? && w.newPage.Fail? ==> run.result == Failed(w.newPage.msg)
    ensures w.launch.Pass? && w.newPage.Pass? && w.navigate.Fail? ==> run.result == Failed(w.navigate.msg)
    ensures Navigated(w) && w.extraction.Err? ==> run.result == Failed(w.extraction.msg)
    ensures Navigated(w) && w.extraction.Ok? && w.close.Fail? ==> run.result == Failed(w.close.msg)
    ensures Released(w) && w.completion.Err? ==> run.result == Failed(w.completion.msg)
    ensures run.session == NotLaunched <==> w.launch.Fail?
    ensures run.session == Closed <==> Released(w)
    ensures run.session == Leaked <==> w.launch.Pass? && !Released(w)
    ensures run.popups.Some? <==> Navigated(w)
    ensures run.popups.Some? ==> run.popups.value == HandlePopupsSpec(w.page)
    ensures run.request.Some? <==> Released(w)
    ensures run.request.Some? ==>
              run.request.value
              == BuildMessages(w.extraction.value.html, w.extraction.value.text, term)
    ensures run.termWarning <==> run.result.Succeeded? && MissesTerm(run.result.text, term)
  {
    if w.launch.Fail? then
      AttemptRun(Failed(w.launch.msg), NotLaunched, None, None, false)
    else if w.newPage.Fail? then
      AttemptRun(Failed(w.newPage.msg), Leaked, None, None, false)
    else if w.navigate.Fail? then
      AttemptRun(Failed(w.navigate.msg), Leaked, None, None, false)
    else
      var popups := HandlePopupsSpec(w.page);
      if w.extraction.Err? then
        AttemptRun(Failed(w.extraction.msg), Leaked, Some(popups), None, false)
      else if w.close.Fail? then
        AttemptRun(Failed(w.close.msg), Leaked, Some(popups), None, false)
      else
        var snapshot := w.extraction.value;
        var request := BuildMessages(snapshot.html, snapshot.text, term);
        if w.completion.Err? then
          AttemptRun(Failed(w.completion.msg), Closed, Some(popups), Some(request), false)
        else
          var output := Strip(w.completion.value);
          AttemptRun(Succeeded(output), Closed, Some(popups), Some(request), MissesTerm(output, term))
  }

  /** The pop-ups on the page never decide an attempt: whatever the page
      shows, the result and the fate of the session are the same. */
  lemma PopupsNeverDecideAttempt(w: World, other: Page, term: string)
    ensures RunAttempt(w.(page := other), term).result == RunAttempt(w, term).result
    ensures RunAttempt(w.(page := other), term).session == RunAttempt(w, term).session
  {
  }

  /** A sign-in wall is detected and logged, yet the attempt goes on to
      extraction and ends exactly as it would on a page without pop-ups. */
  lemma SignInWallDoesNotStopAttempt(w: World, term: string, sel: Selector)
    requires Navigated(w) && sel in SignInSelectors && sel in w.page.visible
    ensures var run := RunAttempt(w, term);
            run.popups.Some? && sel in run.popups.value.signInDetected
            && run.result == RunAttempt(w.(page := Page({}, {})), term).result
            && (w.extraction.Ok? && w.close.Pass? ==> run.request.Some?)
  {
  }

  /** The term check only logs: the attempt's result does not depend on the
      term at all, whether or not the output mentions it. */
  lemma TermCheckNeverRejects(w: World, term: string, other: string)
    ensures RunAttempt(w, term).result == RunAttempt(w, other).result
  {
  }

  /** The attempts `scrape_product(url, term)` makes when its `i`-th attempt
      (counting from 0) meets `worlds(i)`. */
  function Runs(worlds: nat -> World, term: string): nat -> AttemptRun
  {
    (i: nat) => RunAttempt(worlds(i), term)
  }
}
