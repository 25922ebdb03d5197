/** `handle_popups`: two scans of a rendered page for obstruction UI.

    The browser is an oracle here.  A `Page` says which selectors
    `page.waitForSelector(selector, {'timeout': 5000})` finds in time
    (`visible`) and on which of them `page.click(selector)` succeeds
    (`clickable`).  Every other outcome of those two calls raises, and the
    `except Exception: continue` of both loops catches it. */
module Popups {
  import opened Common

  type Selector = string

  datatype Page = Page(visible: set<Selector>, clickable: set<Selector>)

  /** The cookie-consent buttons, tried in this order. */
  const CookieSelectors: seq<Selector> :=
    ["button#accept-cookies", "button.cookie-accept", "button[aria-label='Accept Cookies']"]

  /** The sign-in-wall close buttons, probed in this order. */
  const SignInSelectors: seq<Selector> :=
    ["button#sign-in-close", "button.signin-close", "button[aria-label='Close Sign In']"]

  /** The message of the exception the sign-in loop raises on a detection. */
  const SignInMessage: string := "Sign-in popup detected; manual intervention required."

  /** What one run of `handle_popups` did: the selectors it clicked (a click
      that raises is still attempted), the cookie selector whose click went
      through, and the sign-in selectors it detected.  Every exception raised
      inside either loop is caught by that loop's `except Exception`, so the
      call itself always returns normally and the report has no error part. */
  datatype PopupReport = PopupReport(
    clicked: seq<Selector>,
    dismissed: Option<Selector>,
    signInDetected: seq<Selector>)

  datatype CookieScan = CookieScan(clicked: seq<Selector>, dismissed: Option<Selector>)

  /** The cookie loop over `sels`: each visible selector is clicked; the first
      click that succeeds ends the loop (`break`). */
  function ScanCookies(sels: seq<Selector>, page: Page): (scan: CookieScan)
    ensures forall s :: s in scan.clicked ==> s in sels && s in page.visible
    ensures scan.dismissed.Some? ==>
              Dismissable(scan.dismissed.value, page)
              && scan.clicked != [] && scan.clicked[|scan.clicked| - 1] == scan.dismissed.value
  {
    if sels == [] then CookieScan([], None)
    else if sels[0] !in page.visible then ScanCookies(sels[1..], page)
    else if sels[0] in page.clickable then CookieScan([sels[0]], Some(sels[0]))
    else
      var rest := ScanCookies(sels[1..], page);
      CookieScan([sels[0]] + rest.clicked, rest.dismissed)
  }

  /** The selector in `sels` that is both visible and clickable. */
  predicate Dismissable(s: Selector, page: Page)
  {
    s in page.visible && s in page.clickable
  }

  /** The cookie loop dismisses nothing exactly when no selector in the list
      is dismissable, and then it has clicked every visible selector. */
  lemma {:induction false} ScanCookiesNone(sels: seq<Selector>, page: Page)
    ensures var scan := ScanCookies(sels, page);
            (scan.dismissed.None? <==> forall j :: 0 <= j < |sels| ==> !Dismissable(sels[j], page))
            && (scan.dismissed.None? ==> scan.clicked == VisibleAmong(sels, page))
  {
    if sels != [] {
      ScanCookiesNone(sels[1..], page);
      if !Dismissable(sels[0], page) {
        assert forall j :: 1 <= j < |sels| ==> sels[j] == sels[1..][j - 1];
      }
    }
  }

  /** When `sels[k]` is the first dismissable selector, the cookie loop
      dismisses with it, having clicked the visible selectors before it and
      then it. */
  lemma {:induction false} ScanCookiesFirst(sels: seq<Selector>, page: Page, k: nat)
    requires k < |sels| && Dismissable(sels[k], page)
    requires forall j :: 0 <= j < k ==> !Dismissable(sels[j], page)
    ensures ScanCookies(sels, page)
            == CookieScan(VisibleAmong(sels[..k], page) + [sels[k]], Some(sels[k]))
  {
    if k > 0 {
      assert !Dismissable(sels[0], page);
      ScanCookiesFirst(sels[1..], page, k - 1);
      assert sels[..k][1..] == sels[1..][..k - 1];
    }
  }

  /** The selectors of `sels` that `waitForSelector` finds, in order. */
  function VisibleAmong(sels: seq<Selector>, page: Page): (r: seq<Selector>)
    ensures |r| <= |sels|
    ensures forall s :: s in r <==> s in sels && s in page.visible
  {
    if sels == [] then []
    else if sels[0] in page.visible then [sels[0]] + VisibleAmong(sels[1..], page)
    else VisibleAmong(sels[1..], page)
  }

  /** When every visible selector can be clicked, the cookie loop clicks at
      most one selector: the first visible one. */
  lemma {:induction false} ScanCookiesClicksFirstVisible(sels: seq<Selector>, page: Page)
    requires page.visible <= page.clickable
    ensures var scan := ScanCookies(sels, page);
            |scan.clicked| <= 1
            && (scan.clicked == [] <==> forall j :: 0 <= j < |sels| ==> sels[j] !in page.visible)
            && (scan.clicked != [] ==> scan.dismissed == Some(scan.clicked[0]) && scan.clicked[0] in page.visible)
            && (forall j :: 0 <= j < |sels| && sels[j] in page.visible ==>
                  exists k :: 0 <= k <= j && scan.clicked == [sels[k]])
  {
    if sels != [] {
      ScanCookiesClicksFirstVisible(sels[1..], page);
      if sels[0] !in page.visible {
        var scan := ScanCookies(sels, page);
        forall j | 0 <= j < |sels| && sels[j] in page.visible
          ensures exists k :: 0 <= k <= j && scan.clicked == [sels[k]]
        {
          assert sels[1..][j - 1] == sels[j];
          var k :| 0 <= k <= j - 1 && scan.clicked == [sels[1..][k]];
          assert scan.clicked == [sels[k + 1]];
        }
      }
    }
  }

  /** The exceptions the body of the sign-in loop's `try` can raise. */
  datatype ProbeError = WaitFailed(selector: Selector) | SignInWall(msg: string)

  /** The body of the sign-in loop's `try` for one selector.  It raises in
      both cases: `waitForSelector` fails when the selector is absent, and the
      sign-in exception follows when it is present.  The result type holds
      only exceptions, for no path through the body ends normally. */
  function ProbeSignIn(sel: Selector, page: Page): (e: ProbeError)
    ensures e.SignInWall? <==> sel in page.visible
    ensures e.SignInWall? ==> e.msg == SignInMessage
  {
    if sel in page.visible then SignInWall(SignInMessage) else WaitFailed(sel)
  }

  /** The report `handle_popups` produces on `page`. */
  function HandlePopupsSpec(page: Page): (report: PopupReport)
    ensures forall s :: s in report.clicked ==> s in CookieSelectors && s in page.visible
    ensures report.dismissed.Some? ==> report.dismissed.value in CookieSelectors
                                       && Dismissable(report.dismissed.value, page)
    ensures forall s :: s in report.signInDetected <==> s in SignInSelectors && s in page.visible
  {
    var scan := ScanCookies(CookieSelectors, page);
    PopupReport(scan.clicked, scan.dismissed, VisibleAmong(SignInSelectors, page))
  }

  /** The cookie loop of `handle_popups` over the selectors `sels`. */
  method DismissCookies(sels: seq<Selector>, page: Page)
    returns (clicked: seq<Selector>, dismissed: Option<Selector>)
    ensures CookieScan(clicked, dismissed) == ScanCookies(sels, page)
  {
    clicked := [];
    dismissed := None;
    var i := 0;
    while i < |sels|
      invariant 0 <= i <= |sels|
      invariant ScanCookies(sels, page)
                == CookieScan(clicked + ScanCookies(sels[i..], page).clicked,
                              ScanCookies(sels[i..], page).dismissed)
    {
      var sel := sels[i];
      assert sels[i..][1..] == sels[i + 1..];
      if sel in page.visible {
        clicked := clicked + [sel];
        if sel in page.clickable {
          dismissed := Some(sel);
          break;
        }
      }
      i := i + 1;
    }
  }

  /** The sign-in loop of `handle_popups` over the selectors `sels`: it
      returns the selectors it detected. */
  method ProbeSignInWalls(sels: seq<Selector>, page: Page) returns (detected: seq<Selector>)
    ensures detected == VisibleAmong(sels, page)
  {
    detected := [];
    for j := 0 to |sels|
      invariant detected + VisibleAmong(sels[j..], page) == VisibleAmong(sels, page)
    {
      var sel := sels[j];
      assert sels[j..][1..] == sels[j + 1..];
      var raised := ProbeSignIn(sel, page);
      if raised.SignInWall? {
        detected := detected + [sel];
      }
      // `raised` reaches the loop's own `except Exception: continue`, which drops it.
    }
  }

  /** `handle_popups(page)`.  The sign-in exception is raised inside the `try`
      whose `except Exception: continue` catches it, so a detected sign-in
      wall is only logged and the call returns its report normally. */
  method HandlePopups(page: Page) returns (report: PopupReport)
    ensures report == HandlePopupsSpec(page)
    ensures forall s :: s in report.signInDetected <==> s in SignInSelectors && s in page.visible
  {
    var clicked, dismissed := DismissCookies(CookieSelectors, page);
    var detected := ProbeSignInWalls(SignInSelectors, page);
    report := PopupReport(clicked, dismissed, detected);
  }
}
