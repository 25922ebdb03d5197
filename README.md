# A verified model of the webscraper's control logic

The webscraper (`webscraper.py`) fetches one product page with a headless
browser, dismisses pop-ups, extracts the page's HTML and visible text, asks a
language model to write up the product named by a search term, and posts the
answer to a collector endpoint. Its own logic is the control flow around three
foreign systems: the browser, the language-model API and the HTTP client. This
project models that control flow in Dafny and proves what it does. Each call
into a foreign system is an oracle value: it passes, or it raises with a
message.

Modules, one per component of `webscraper.py`:

- `Common`: `Option`, and `Outcome`/`Fallible` for oracle results.
- `Text`: `truncate_text`. It also holds the Python string builtins the results
  depend on: `s[:k]`, `str.strip()`, ASCII `str.lower()`, substring `in`, and
  `str(n)`.
- `Popups`: `handle_popups`. Its two selector loops are methods over a `Page`
  oracle. A `Page` says which selectors `waitForSelector` finds and which
  clicks go through.
- `Summarizer`: the two-message request `analyze_with_llm` builds.
- `Attempt`: one pass through the `try` block of `scrape_product`, as a
  function of a `World` oracle. It tracks the fate of the browser session.
- `Retry`: the `while` loop of `scrape_product`, as a method. It is proved equal
  to a specification function, `Expected`, built on the index of the first
  successful attempt (`FirstSuccess`).
- `Delivery`: `scrape_and_post`, as a method proved equal to the specification
  function `Deliver`. The payload is built and posted only when the scrape
  does not raise.

Three behaviours of the code differ from what its comments and names suggest.
The model follows the code:

- The sign-in scan does not abort, although the comment at webscraper.py:57
  says "if one appears, abort" and line 66 logs "aborting extraction". The
  `raise` at webscraper.py:67 sits inside
  the `try` whose `except Exception: continue` (line 68) catches it. A sign-in
  wall is logged and the attempt goes on to extraction
  (`Attempt.SignInWallDoesNotStopAttempt`). When the first attempt's page
  shows a sign-in wall and every other browser and model call passes, the
  scrape succeeds after one attempt with no sleep, and if the post succeeds
  the reply is delivered (`Delivery.SignInWallStillSucceeds`).
- The browser is closed only on one path: after a successful extraction
  (line 145). A failure in `newPage`, `goto` or extraction skips `close()` and
  leaves the launched session open (`Session.Leaked`). So a launched browser
  is not released on every exit path of an attempt (`Attempt.RunAttempt`,
  `Retry.ScrapeProduct`'s `sessions`).
- With `max_retries <= 0` the loop never runs and `scrape_product` returns
  `None` (`Retry.NoRetriesReturnsNone`).

## Model

| member | source | states |
|---|---|---|
| Text.PyPrefix | webscraper.py:36 | `text[:max_chars]` is a prefix of the text. For `max_chars >= 0` it has `min(max_chars, len)` characters. A negative `max_chars` drops that many characters from the end, leaving at least none. |
| Text.TruncateText | webscraper.py:33-37 | A text no longer than `max_chars` is returned unchanged. With `max_chars >= 0`, a longer text becomes exactly its first `max_chars` characters followed by the 18-character marker, so the result is at most `max_chars + 18` long and starts with the kept prefix. With a negative `max_chars`, the result is the text without its last `-max_chars` characters, followed by the marker; the `max_chars + 18` bound does not hold then. |
| Text.Strip | webscraper.py:119 | `strip()` returns the infix of the reply between its leading and trailing whitespace. Everything it drops is whitespace, and the result has no whitespace at either end. |
| Text.StripIdempotent | webscraper.py:119 | Stripping an already stripped reply changes nothing. |
| Text.Lower | webscraper.py:148 | `.lower()` keeps the length, maps each character by `LowerChar`, and leaves no ASCII capital letter. |
| Text.InfixSurvivesLower | webscraper.py:148 | If the term occurs in the output, its lower-cased form occurs in the lower-cased output. |
| Text.NatToDecimal | webscraper.py:155 | `{max_retries}` renders a count as one or more decimal digits, with no leading zero unless the count is 0. |
| Text.DecimalRoundTrip | webscraper.py:155 | The decimal rendering of `max_retries` in the failure message reads back as the same number. |
| Popups.ScanCookies | webscraper.py:48-55 | The cookie loop's specification: it clicks only listed selectors that `waitForSelector` finds. When it dismisses a pop-up, the selector used is found and clickable, and it is the last one clicked. |
| Popups.VisibleAmong | webscraper.py:63-69 | The sign-in loop's specification: the listed selectors the page shows, in list order. A selector is in the result iff it is listed and shown. |
| Popups.ScanCookiesNone | webscraper.py:43-55 | The cookie loop dismisses nothing exactly when no selector is both found and clickable. In that case it has clicked every found selector, in list order. |
| Popups.ScanCookiesFirst | webscraper.py:48-55 | When `sels[k]` is the first selector that is found and clickable, the cookie loop dismisses with it and stops (`break`). It has clicked the found selectors before it, then it. |
| Popups.ScanCookiesClicksFirstVisible | webscraper.py:48-55 | When every found button can be clicked, the cookie loop clicks at most one selector, and dismisses with it. That selector appears on the page, and no selector before it in list order appears. It clicks nothing iff none appears. |
| Popups.DismissCookies | webscraper.py:48-55 | The cookie `for` loop with `break` and `except: continue` computes exactly the clicks and the dismissal that `ScanCookies` specifies. |
| Popups.ProbeSignIn | webscraper.py:64-67 | The body of the sign-in `try` raises on every path. `waitForSelector` fails when the selector is absent. The sign-in exception is raised exactly when it is present. |
| Popups.ProbeSignInWalls | webscraper.py:63-69 | The sign-in loop probes every selector. It detects exactly the selectors the page shows, in list order, and swallows the exception of each. |
| Popups.HandlePopupsSpec | webscraper.py:39-69 | What one run of `handle_popups` does: it clicks only listed cookie selectors the page shows, dismisses only with a listed selector that is shown and clickable, and detects exactly the listed sign-in selectors the page shows. |
| Popups.HandlePopups | webscraper.py:39-69 | `handle_popups` composes the two loops and returns exactly the report `HandlePopupsSpec` specifies. It detects exactly the sign-in selectors present. It returns normally by construction: each loop's `except Exception` catches whatever its `try` raises, so the report has no error part. |
| Summarizer.UserContent | webscraper.py:103-108 | The user message opens with `"Product term: "`, the term and the HTML heading, and ends with the fixed closing instruction. |
| Summarizer.BuildMessages | webscraper.py:92-110 | The request has two messages: first the fixed system prompt, then the user message with role `user`. |
| Summarizer.UserContentLayout | webscraper.py:89-108 | The user message holds `"Product term: " + term`, then the truncated HTML, then the truncated visible text. Each sits at its own offset, in that order, without overlap. Both bodies went through `truncate_text` with 10000. |
| Summarizer.UserContentBounded | webscraper.py:84-90 | Whatever the page's size, the user message is at most the term's length plus 2 x (10000 + 18) plus the fixed labels. |
| Summarizer.ShortBodiesVerbatim | webscraper.py:89-90 | HTML and text within 10000 characters reach the model verbatim. |
| Attempt.MissesTerm | webscraper.py:148 | The case-insensitive term check never flags an output that contains the term as it is, nor any output when the term is empty. |
| Attempt.RunAttempt | webscraper.py:134-150 | An attempt succeeds iff every browser call up to `close()` and the model call pass, and it then returns the stripped reply. Otherwise it fails with the message of the first call that raised. The session is closed iff extraction and `close()` went through. It is leaked iff the browser launched and a later call up to `close()` failed (for a failed `close()` this is an assumption, see below). The model request is built from the extracted page and the term. The term warning is raised only for a successful reply that does not mention the term. |
| Attempt.PopupsNeverDecideAttempt | webscraper.py:143 | Whatever pop-ups the page shows, the attempt's result and the fate of its session are the same. |
| Attempt.SignInWallDoesNotStopAttempt | webscraper.py:63-69 | A sign-in selector on the page is detected, yet the attempt reaches extraction. It ends exactly as on a page without pop-ups. |
| Attempt.TermCheckNeverRejects | webscraper.py:147-150 | The term check only logs. For the same browser and model outcomes, the attempt's result does not depend on the term. |
| Retry.FailureMessage | webscraper.py:155 | The final exception's message opens with `"Scraping failed after "` and ends with the last attempt's error. |
| Retry.FirstSuccess | webscraper.py:133-150 | Gives the index of the first successful attempt among the first `n`, or `n`. Every attempt before it failed. |
| Retry.Backoff | webscraper.py:156 | The delays slept after the first `k` failures are 2^1, ..., 2^k, in that order. |
| Retry.BackoffDoubles | webscraper.py:156 | Each backoff delay is twice the one before it. |
| Retry.Expected | webscraper.py:126-156 | `scrape_product` returns `None` iff `max_retries <= 0`, and then makes no attempt. It never makes more than `max_retries` attempts. It sleeps exactly once between consecutive attempts and never after the last one. |
| Retry.NoRetriesReturnsNone | webscraper.py:132-133 | With `max_retries <= 0`: no attempt, no sleep, and `None` is returned. |
| Retry.PersistentFailure | webscraper.py:151-156 | When every attempt fails: exactly `n` attempts, sleeps of 2^1 .. 2^(n-1) in order, and an exception whose message is built from `n` and the last attempt's error. |
| Retry.StopsAtFirstSuccess | webscraper.py:147-150 | When attempt `k` is the first success, its output is returned unchanged. No further attempt or sleep follows: `k + 1` attempts and `k` sleeps. |
| Retry.ThreeAttemptsBackoff | webscraper.py:126-156 | With the default of three attempts and persistent failure, there are 3 attempts and the delays are [2, 4]. |
| Retry.FailureMessageEmbeds | webscraper.py:155 | The composed error carries `max_retries` as a decimal that reads back to the same number. It ends with the last attempt's error. |
| Retry.ScrapeProduct | webscraper.py:126-156 | The `while` loop computes exactly the outcome, attempt count and delays of `Expected`. It also reports each started attempt's browser session. |
| Delivery.MakePayload | webscraper.py:169-173 | The posted body carries the request id, the scrape's return value as `primary_text`, and an empty `secondary_text`. |
| Delivery.Deliver | webscraper.py:164-179 | A payload is posted iff the scrape did not raise. A scrape exception becomes a 500 with the scrape error, and a post failure a 500 with "Error posting result: ". The success body, carrying the posted payload, is returned iff the scrape did not raise and the post succeeded. |
| Delivery.ScrapeAndPost | webscraper.py:158-179 | With the default budget of three attempts the scrape never returns `None`. The endpoint's answer and the posted body are exactly those `Deliver` gives for the scrape's outcome. |
| Delivery.WidgetScenario | webscraper.py:158-179 | For request id "1" and term "Widget", a clean page and the model reply "Widget XL — $19.99" give one attempt and no sleep. When the post succeeds, the endpoint posts {id "1", that reply, ""} and answers with the success body carrying it. |
| Delivery.SignInWallStillSucceeds | webscraper.py:58-69 | When the first attempt's page shows every sign-in selector and every other browser and model call passes, the scrape returns the stripped reply after one attempt with no sleep. When the post then succeeds, that reply is posted with the request id and the success body carrying it is returned. |

## Left out

- Browser automation (`launch`, `newPage`, `goto`, `waitForSelector`, `click`, `content`, `evaluate`, `close`) is left out. These are foreign calls, modelled only as pass/raise oracles in `World` and `Page`.
- `extract_raw_content` (lines 71-82) is one oracle. Its three calls are not told apart, because any failure among them ends the attempt the same way.
- A `Page` is fixed for the whole attempt. Clicking a cookie button does not change which sign-in selectors appear. A selector that does not appear within 5 seconds counts as absent.
- The OpenAI client, the chat-completion call and its response parsing are left out. They are foreign, so the reply content, or the failure, is an oracle. The model parameters (`temperature`, `top_p`, `max_tokens`, model name) are passed through to it and are not modelled.
- The URL reaches only `page.goto`, which is an oracle, so it is not a model parameter and `ScrapeRequest` has no `url` field.
- The collector's address (`POST_ENDPOINT`, line 25) is not modelled. The post is one pass/raise oracle, so the address plays no part in any result.
- `asyncio.sleep`, `nest_asyncio` and event-loop scheduling are not performed. The delays are returned as values.
- Logging, the `OPENAI_API_KEY` environment variable and the fixed Chrome path are left out. They have no behaviour to state.
- The FastAPI app, pydantic validation of the request, and JSON serialisation are left out. `requests.post` and `raise_for_status` are one pass/raise oracle.
- Text.Lower: maps only ASCII letters. Python's `str.lower()` also maps non-ASCII letters. This affects only the log-only term check.
- A failing `browser.close()` (line 145) is modelled as leaving the session open (`Session.Leaked`). The source does not say what a `close()` that raises leaves behind; the attempt only makes no further call to release it.
