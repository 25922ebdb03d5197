/** `scrape_and_post`: the endpoint that runs the scrape with the default
    retry budget and forwards the result to the collector.

    The HTTP layer is left out; the request's fields arrive as a value, the
    collector's answer to `requests.post(...).raise_for_status()` is an
    oracle, and the response is a value. */
module Delivery {
  import opened Common
  import opened Popups
  import opened Attempt
  import opened Retry

  /** `scrape_and_post` calls `scrape_product` without `max_retries`. */
  const DefaultMaxRetries: nat := 3

  const PostedMessage: string := "Scrape completed and data posted successfully"

  /** The request fields the model reads.  The URL reaches only `page.goto`,
      whose outcome is part of each attempt's `World`. */
  datatype ScrapeRequest = ScrapeRequest(id: string, term: string)

  /** The JSON body posted to the collector.  `primary_text` is whatever
      `scrape_product` returned, so it is `None` (JSON `null`) when that
      returned `None`. */
  datatype Payload = Payload(id: string, primaryText: Option<string>, secondaryText: string)

  /** The endpoint's answer: a success body, or an `HTTPException`. */
  datatype Response = Completed(message: string, payload: Payload) | HttpError(status: nat, detail: string)

  /** What the endpoint did: its answer, and the body it posted, if any. */
  datatype Reply = Reply(response: Response, posted: Option<Payload>)

  /** The body posted for a scrape's return value: the secondary text is
      always empty. */
  function MakePayload(id: string, scraped: Option<string>): (p: Payload)
    ensures p.id == id && p.primaryText == scraped && p.secondaryText == ""
  {
    Payload(id, scraped, "")
  }

  /** What `scrape_and_post` does once the scrape has ended with `outcome`,
      when the collector's answer to the post is `post`.  A raised scrape
      becomes a 500 carrying its message and nothing is posted; a returned
      value is posted, and a failed post becomes a 500 of its own. */
  function Deliver(id: string, outcome: ScrapeOutcome, post: Outcome): (d: Reply)
    ensures d.posted.Some? <==> !outcome.Raised?
    ensures outcome.Returned? ==> d.posted == Some(MakePayload(id, Some(outcome.text)))
    ensures outcome.ReturnedNone? ==> d.posted == Some(MakePayload(id, None))
    ensures outcome.Raised? ==> d.response == HttpError(500, outcome.msg)
    ensures !outcome.Raised? && post.Fail? ==> d.response == HttpError(500, "Error posting result: " + post.msg)
    ensures d.response.Completed? <==> !outcome.Raised? && post.Pass?
    ensures d.response.Completed? ==> d.response == Completed(PostedMessage, d.posted.value)
  {
    match outcome
    case Raised(e) => Reply(HttpError(500, e), None)
    case ReturnedNone => Post(MakePayload(id, None), post)
    case Returned(text) => Post(MakePayload(id, Some(text)), post)
  }

  /** Posting `payload` when the collector answers `post`. */
  function Post(payload: Payload, post: Outcome): Reply
  {
    if post.Fail? then Reply(HttpError(500, "Error posting result: " + post.msg), Some(payload))
    else Reply(Completed(PostedMessage, payload), Some(payload))
  }

  /** `scrape_and_post(req)`: the scrape with the default retry budget, then
      the post.  The budget of three attempts means the scrape never returns
      `None` here: it returns a text or raises. */
  method ScrapeAndPost(req: ScrapeRequest, worlds: nat -> World, post: Outcome)
    returns (response: Response, posted: Option<Payload>)
    ensures var outcome := Expected(Runs(worlds, req.term), DefaultMaxRetries).outcome;
            Reply(response, posted) == Deliver(req.id, outcome, post)
            && !outcome.ReturnedNone?
  {
    var outcome, _, _, _ := ScrapeProduct(Runs(worlds, req.term), DefaultMaxRetries);
    match outcome {
      case Raised(e) =>
        response, posted := HttpError(500, e), None;
      case ReturnedNone =>
        assert false;
      case Returned(text) =>
        var payload := MakePayload(req.id, Some(text));
        posted := Some(payload);
        if post.Fail? {
          response := HttpError(500, "Error posting result: " + post.msg);
        } else {
          response := Completed(PostedMessage, payload);
        }
    }
  }

  /** A page without pop-ups whose browser and model calls all succeed. */
  function CleanWorld(html: string, text: string, reply: string): World
  {
    World(Pass, Pass, Pass, Page({}, {}), Ok(Snapshot(html, text)), Pass, Ok(reply))
  }

  /** The end-to-end scenario: for request id "1" and term "Widget", a clean
      page rendering "Widget XL, $19.99" and a model reply "Widget XL - $19.99"
      (with an em dash) take one attempt and no sleep, and when the collector
      accepts the post, the endpoint posts and answers with the body
      {id "1", that reply, ""}. */
  lemma WidgetScenario(req: ScrapeRequest, worlds: nat -> World, html: string)
    requires req.id == "1" && req.term == "Widget"
    requires worlds(0) == CleanWorld(html, "Widget XL, $19.99", "Widget XL \U{2014} $19.99")
    ensures var reply := "Widget XL \U{2014} $19.99";
            var run := Expected(Runs(worlds, req.term), DefaultMaxRetries);
            var body := Payload("1", Some(reply), "");
            run == ScrapeRun(Returned(reply), 1, [])
            && Deliver(req.id, run.outcome, Pass) == Reply(Completed(PostedMessage, body), Some(body))
  {
    var reply := "Widget XL \U{2014} $19.99";
    assert !Text.IsSpace(reply[0]) && !Text.IsSpace(reply[|reply| - 1]);
    Text.StripKeeps(reply);
    assert Released(worlds(0));
    assert RunAttempt(worlds(0), "Widget").result == Succeeded(reply);
    assert Runs(worlds, "Widget")(0) == RunAttempt(worlds(0), "Widget");
    StopsAtFirstSuccess(Runs(worlds, "Widget"), DefaultMaxRetries, 0);
  }

  /** A sign-in wall does not fail the job: when the first attempt's page
      shows every sign-in selector and all other browser and model calls go
      through, that attempt succeeds with no sleep, and when the collector
      accepts the post, the stripped reply is posted and the success body is
      returned. */
  lemma SignInWallStillSucceeds(id: string, worlds: nat -> World, html: string, text: string, reply: string, term: string)
    requires worlds(0) == CleanWorld(html, text, reply).(page := Page(set s | s in SignInSelectors, {}))
    ensures var run := Expected(Runs(worlds, term), DefaultMaxRetries);
            var body := Payload(id, Some(Text.Strip(reply)), "");
            run == ScrapeRun(Returned(Text.Strip(reply)), 1, [])
            && Deliver(id, run.outcome, Pass) == Reply(Completed(PostedMessage, body), Some(body))
  {
    assert Runs(worlds, term)(0) == RunAttempt(worlds(0), term);
    StopsAtFirstSuccess(Runs(worlds, term), DefaultMaxRetries, 0);
  }
}
