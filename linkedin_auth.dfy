/** The login-session state machine of `LinkedInAuth`: a Playwright browser,
    its context and page, a "session valid" flag and a cookie file, driven
    through `ensure_logged_in` -> `load_cookies` -> `verify_session` ->
    `login_with_credentials`, with `save_cookies`, `get_page` and `close`.
    The browser and the site are an oracle (`Site`) that answers each
    question the code asks: is the navigation bar visible, is a password
    prompt shown, what is the URL now, did an action raise. */
module LinkedInAuth {
  import opened Wrappers
  import opened Text

  datatype Cookie = Cookie(name: string, value: string, domain: string, path: string)

  /** The cookie file `linkedin_cookies.json`. */
  datatype CookieFile =
    | Missing                       // there is no file
    | Unparseable                   // the file does not hold valid JSON
    | Stored(cookies: seq<Cookie>)  // the file holds a cookie list, possibly empty

  /** A Playwright page: whether it has been closed, and its current URL. */
  datatype Page = Page(closed: bool, url: string)

  const HomeUrl := "https://www.linkedin.com/"
  const FeedUrl := "https://www.linkedin.com/feed/"
  const LoginUrl := "https://www.linkedin.com/login"
  /** The URL of a page Playwright has just opened. */
  const BlankUrl := "about:blank"

  /** The answers of the browser and of the site during one call. */
  datatype Site = Site(
    launchFails: bool,            // starting the persistent browser context raises
    launchUrl: string,            // URL of the first page of a fresh context
    profileCookies: seq<Cookie>,  // cookies the persistent profile directory brings along
    cookiesRejected: bool,        // `add_cookies` raises on the cookies read from the file
    homeUrl: string,              // URL reached when navigating to the home page
    homeUnreachable: bool,        // navigating to the home page raises, and so does the retry on a fresh page
    feedUrl: string,              // URL after trying to open the feed (navigation errors are ignored)
    checkRaises: bool,            // checking for the navigation bar raises a non-Playwright error
    navVisible: bool,             // `#global-nav` is visible on the feed
    welcomeBackVisible: bool,     // the "Welcome Back" heading is visible
    passwordVisible: bool,        // `input#password` is visible
    passwordFillFails: bool,      // filling in the password raises a Playwright error
    navAfterPassword: bool,       // `#global-nav` is visible after submitting the password
    loginPageFails: bool,         // opening the login page or filling its form raises
    navAfterLogin: bool,          // `#global-nav` appears before the wait after login times out
    signedInUrl: string,          // URL once a sign-in has succeeded
    issuedCookies: seq<Cookie>,   // cookies the site sets on a successful sign-in
    writeFails: bool,             // opening the cookie file for writing raises
    dumpFails: bool)              // writing into the opened, already emptied, file raises

  /** What the session manager did, in order. */
  datatype Event =
    | Launch
    | LoadCookies(loaded: bool)
    | VisitFeed
    | FillPassword
    | FillEmail
    | Submit
    | Verify(valid: bool)
    | Login(success: bool)
    | SaveCookies
    | CloseBrowser

  /** A credential login in `seg` only ever follows a verification that failed. */
  ghost predicate LoginFollowsFailedVerify(seg: seq<Event>) {
    forall i :: 0 <= i < |seg| && seg[i].Login? ==>
      exists j :: 0 <= j < i && seg[j] == Verify(false)
  }

  /** `seg` holds browser actions only: no verdict of a verification or a login. */
  ghost predicate Actions(seg: seq<Event>) {
    forall i :: 0 <= i < |seg| ==> !seg[i].Verify? && !seg[i].Login?
  }

  /** The site re-prompts for the password and accepts it. */
  predicate PasswordRepromptSucceeds(site: Site) {
    site.passwordVisible && !site.passwordFillFails && site.navAfterPassword
  }

  /** What `verify_session` reports, given whether the page is open. The
      "Welcome Back" heading alone changes nothing: the password field is
      looked up again before anything is filled in. */
  predicate VerifyOutcome(open: bool, site: Site) {
    open && !site.checkRaises && (site.navVisible || PasswordRepromptSucceeds(site))
  }

  /** The browser actions of one `verify_session` call, before its verdict. */
  ghost function VerifySteps(open: bool, site: Site): seq<Event> {
    if !open then []
    else if site.checkRaises || site.navVisible then [VisitFeed]
    else if site.passwordVisible && !site.passwordFillFails then
      if site.navAfterPassword then [VisitFeed, FillPassword, Submit, SaveCookies]
      else [VisitFeed, FillPassword, Submit]
    else [VisitFeed]
  }

  /** The events of one `verify_session` call. */
  ghost function VerifyEvents(open: bool, site: Site): seq<Event> {
    VerifySteps(open, site) + [Verify(VerifyOutcome(open, site))]
  }

  /** Verification never types the e-mail address, fills the password only
      on a password prompt, and saves cookies only after a successful
      password re-prompt (never when the navigation bar was there at once). */
  lemma VerifyEventsShape(open: bool, site: Site)
    ensures Actions(VerifySteps(open, site))
    ensures FillEmail !in VerifyEvents(open, site)
    ensures FillPassword in VerifyEvents(open, site) <==>
      open && !site.checkRaises && !site.navVisible && site.passwordVisible && !site.passwordFillFails
    ensures SaveCookies in VerifyEvents(open, site) <==> VerifyOutcome(open, site) && !site.navVisible
  {
  }

  /** What `login_with_credentials` reports, given whether the page is open. */
  predicate LoginOutcome(open: bool, site: Site) {
    open && !site.loginPageFails && site.navAfterLogin
  }

  /** The browser actions of one `login_with_credentials` call, before its verdict. */
  ghost function LoginSteps(open: bool, site: Site): seq<Event> {
    if !open || site.loginPageFails then []
    else if site.navAfterLogin then [FillEmail, FillPassword, Submit, SaveCookies]
    else [FillEmail, FillPassword, Submit]
  }

  /** The events of one `login_with_credentials` call. */
  ghost function LoginEvents(open: bool, site: Site): seq<Event> {
    LoginSteps(open, site) + [Login(LoginOutcome(open, site))]
  }

  /** The cookie file after `save_cookies` writes `cookies`: a file that
      cannot be opened stays as it was, and a write that fails after opening
      leaves an emptied or partial file that no longer parses. */
  function SavedFile(f: CookieFile, cookies: seq<Cookie>, site: Site): (r: CookieFile)
    ensures !site.writeFails && !site.dumpFails ==> r == Stored(cookies)
    ensures site.writeFails ==> r == f
    ensures !site.writeFails && site.dumpFails ==> r.Unparseable?
  {
    if site.writeFails then f else if site.dumpFails then Unparseable else Stored(cookies)
  }

  /** The cookie file after `load_cookies` with a context: an unparseable
      file is deleted. */
  function LoadedFile(f: CookieFile): (r: CookieFile)
    ensures f.Unparseable? ==> r == Missing
    ensures !f.Unparseable? ==> r == f
  {
    if f.Unparseable? then Missing else f
  }

  /** The context's cookies after `load_cookies` with a context: a stored,
      non-empty list replaces them (they are cleared first, so a rejected
      list leaves none); otherwise they are kept. */
  function LoadedJar(f: CookieFile, jar: seq<Cookie>, site: Site): (r: seq<Cookie>)
    ensures f.Stored? && f.cookies != [] && !site.cookiesRejected ==> r == f.cookies
    ensures f.Stored? && f.cookies != [] && site.cookiesRejected ==> r == []
    ensures !(f.Stored? && f.cookies != []) ==> r == jar
  {
    if f.Stored? && f.cookies != [] then (if site.cookiesRejected then [] else f.cookies) else jar
  }

  /** A login round ends on the navigation bar of the first verification,
      so the cookies loaded from the file are the ones kept. */
  predicate KeepsLoadedCookies(open: bool, site: Site) {
    VerifyOutcome(open, site) && site.navVisible
  }

  /** The cookie file yields cookies to load, and, when a page is open, the
      home page is reached after loading them. */
  predicate LoadSucceeds(f: CookieFile, open: bool, site: Site) {
    f.Stored? && f.cookies != [] && !site.cookiesRejected && !(open && site.homeUnreachable)
  }

  /** The events of an `ensure_logged_in` call that did not trust the current
      session and had a browser to work with: an optional launch, the cookie
      load, a verification and, only if that failed, a credential login
      followed by one more save when it succeeded. */
  ghost function RoundEvents(launch: bool, loaded: bool, open: bool, site: Site): seq<Event> {
    (if launch then [Launch] else []) + [LoadCookies(loaded)] + VerifyEvents(open, site) +
    (if VerifyOutcome(open, site) then []
     else LoginEvents(open, site) + if LoginOutcome(open, site) then [SaveCookies] else [])
  }

  /** The trace `t` extended by one round, step by step as the round appends. */
  ghost function RoundTrace(t: seq<Event>, launch: bool, loaded: bool, open: bool, site: Site): seq<Event> {
    var afterVerify := (if launch then t + [Launch] else t) + [LoadCookies(loaded)] + VerifyEvents(open, site);
    if VerifyOutcome(open, site) then afterVerify
    else if LoginOutcome(open, site) then afterVerify + LoginEvents(open, site) + [SaveCookies]
    else afterVerify + LoginEvents(open, site)
  }

  lemma RoundTraceEvents(t: seq<Event>, launch: bool, loaded: bool, open: bool, site: Site)
    ensures RoundTrace(t, launch, loaded, open, site) == t + RoundEvents(launch, loaded, open, site)
  {
  }

  lemma ActionsAppend(a: seq<Event>, b: seq<Event>)
    requires Actions(a) && Actions(b)
    ensures Actions(a + b)
  {
    forall i | 0 <= i < |a + b| ensures !(a + b)[i].Verify? && !(a + b)[i].Login? {
      if i >= |a| { assert (a + b)[i] == b[i - |a|]; }
    }
  }

  /** Actions closed by a successful verification: no login at all. */
  lemma {:induction false} VerifiedRound(a: seq<Event>)
    requires Actions(a)
    ensures LoginFollowsFailedVerify(a + [Verify(true)])
    ensures Verify(true) in a + [Verify(true)]
    ensures forall i :: 0 <= i < |a + [Verify(true)]| ==> !(a + [Verify(true)])[i].Login?
  {
    var seg := a + [Verify(true)];
    assert seg[|a|] == Verify(true);
    forall i | 0 <= i < |seg| ensures !seg[i].Login? {
      if i < |a| { assert seg[i] == a[i]; }
    }
  }

  /** Actions, a failed verification, actions, a login, actions: the login
      follows the failed verification, no verification succeeded, and the
      round holds a successful login exactly when this login succeeded. */
  lemma {:induction false} FailedVerifyRound(a: seq<Event>, b: seq<Event>, c: seq<Event>, l: bool)
    requires Actions(a) && Actions(b) && Actions(c)
    ensures LoginFollowsFailedVerify(a + [Verify(false)] + b + [Login(l)] + c)
    ensures Verify(true) !in a + [Verify(false)] + b + [Login(l)] + c
    ensures Login(true) in a + [Verify(false)] + b + [Login(l)] + c <==> l
  {
    var seg := a + [Verify(false)] + b + [Login(l)] + c;
    assert seg[|a|] == Verify(false);
    assert seg[|a| + 1 + |b|] == Login(l);
    forall i | 0 <= i < |seg| && i != |a| + 1 + |b|
      ensures !seg[i].Verify? || seg[i] == Verify(false)
      ensures !seg[i].Login?
    {
      if i < |a| {
        assert seg[i] == a[i];
      } else if |a| < i < |a| + 1 + |b| {
        assert seg[i] == b[i - |a| - 1];
      } else if i > |a| + 1 + |b| {
        assert seg[i] == c[i - |a| - 2 - |b|];
      }
    }
    forall i | 0 <= i < |seg| && seg[i].Login?
      ensures exists j :: 0 <= j < i && seg[j] == Verify(false)
    {
    }
  }

  /** Every round: a credential login is only attempted after verification
      failed; a successful verification is never followed by a login; and
      the round contains a successful login exactly when verification failed
      and the login succeeded. */
  lemma {:induction false} RoundOrdering(launch: bool, loaded: bool, open: bool, site: Site)
    ensures LoginFollowsFailedVerify(RoundEvents(launch, loaded, open, site))
    ensures Verify(true) in RoundEvents(launch, loaded, open, site) <==> VerifyOutcome(open, site)
    ensures VerifyOutcome(open, site) ==>
      forall i :: 0 <= i < |RoundEvents(launch, loaded, open, site)| ==>
        !RoundEvents(launch, loaded, open, site)[i].Login?
    ensures Login(true) in RoundEvents(launch, loaded, open, site) <==>
      !VerifyOutcome(open, site) && LoginOutcome(open, site)
  {
    if VerifyOutcome(open, site) {
      VerifiedRoundEvents(launch, loaded, open, site);
    } else {
      FailedRoundEvents(launch, loaded, open, site);
    }
  }

  /** The events before a round's verification verdict are browser actions only. */
  lemma RoundPrefix(launch: bool, loaded: bool, open: bool, site: Site)
    ensures Actions((if launch then [Launch] else []) + [LoadCookies(loaded)] + VerifySteps(open, site))
  {
    VerifyEventsShape(open, site);
    ActionsAppend((if launch then [Launch] else []) + [LoadCookies(loaded)], VerifySteps(open, site));
  }

  lemma VerifiedRoundEvents(launch: bool, loaded: bool, open: bool, site: Site)
    requires VerifyOutcome(open, site)
    ensures LoginFollowsFailedVerify(RoundEvents(launch, loaded, open, site))
    ensures Verify(true) in RoundEvents(launch, loaded, open, site)
    ensures forall i :: 0 <= i < |RoundEvents(launch, loaded, open, site)| ==>
      !RoundEvents(launch, loaded, open, site)[i].Login?
  {
    var a := (if launch then [Launch] else []) + [LoadCookies(loaded)] + VerifySteps(open, site);
    RoundPrefix(launch, loaded, open, site);
    assert RoundEvents(launch, loaded, open, site) == a + [Verify(true)];
    VerifiedRound(a);
  }

  lemma AppendTail(a: seq<Event>, b: seq<Event>, c: seq<Event>, d: seq<Event>)
    ensures a + (b + c + d) == a + b + c + d
  {
  }

  lemma FailedRoundEvents(launch: bool, loaded: bool, open: bool, site: Site)
    requires !VerifyOutcome(open, site)
    ensures LoginFollowsFailedVerify(RoundEvents(launch, loaded, open, site))
    ensures Verify(true) !in RoundEvents(launch, loaded, open, site)
    ensures Login(true) in RoundEvents(launch, loaded, open, site) <==> LoginOutcome(open, site)
  {
    var a := (if launch then [Launch] else []) + [LoadCookies(loaded)] + VerifySteps(open, site);
    var post: seq<Event> := if LoginOutcome(open, site) then [SaveCookies] else [];
    var pre := (if launch then [Launch] else []) + [LoadCookies(loaded)];
    var tail := LoginSteps(open, site) + [Login(LoginOutcome(open, site))] + post;
    RoundPrefix(launch, loaded, open, site);
    assert RoundEvents(launch, loaded, open, site) == pre + VerifyEvents(open, site) + tail;
    assert pre + VerifyEvents(open, site) == a + [Verify(false)];
    AppendTail(a + [Verify(false)], LoginSteps(open, site), [Login(LoginOutcome(open, site))], post);
    FailedVerifyRound(a, LoginSteps(open, site), post, LoginOutcome(open, site));
  }

  class Auth {
    const email: string
    const password: string
    const userAgents: seq<string>

    var sessionValid: bool
    var browser: bool          // a persistent browser context is running
    var context: bool          // the context handle (the same object as the browser)
    var page: Option<Page>
    var jar: seq<Cookie>       // the cookies held by the browser context
    var cookieFile: CookieFile
    ghost var trace: seq<Event>

    /** The context is the browser object itself, a running browser always has
        a page (possibly closed by the user), and a page only exists inside it. */
    ghost predicate Valid()
      reads this
    {
      context == browser && (page.Some? <==> browser) && (!browser ==> jar == [])
    }

    predicate PageOpen()
      reads this
    {
      page.Some? && !page.value.closed
    }

    /** The condition under which `ensure_logged_in` trusts the session without checking. */
    predicate Trusted()
      reads this
    {
      sessionValid && PageOpen() && Contains(page.value.url, "linkedin.com")
    }

    constructor (email: string, password: string, userAgents: seq<string>, onDisk: CookieFile)
      ensures Valid()
      ensures this.email == email && this.password == password && this.userAgents == userAgents
      ensures !sessionValid && !browser && !context && page.None? && jar == []
      ensures cookieFile == onDisk && trace == []
    {
      this.email := email;
      this.password := password;
      this.userAgents := userAgents;
      sessionValid, browser, context, page, jar := false, false, false, None, [];
      cookieFile := onDisk;
      trace := [];
    }

    /** `_launch_browser`: start a persistent context unless one is running;
        on failure close everything (the source then re-raises; here the
        result is false). */
    method LaunchBrowser(site: Site) returns (launched: bool)
      requires Valid()
      modifies this
      ensures Valid() && cookieFile == old(cookieFile)
      ensures old(browser) ==> launched && unchanged(this)
      ensures launched ==> browser
      ensures !old(browser) && site.launchFails ==>
        !launched && !browser && page.None? && !sessionValid && trace == old(trace)
      ensures !old(browser) && !site.launchFails ==>
        launched && browser && page == Some(Page(false, site.launchUrl)) &&
        jar == site.profileCookies && sessionValid == old(sessionValid) &&
        trace == old(trace) + [Launch]
    {
      if browser {
        return true;
      }
      if site.launchFails {
        Close();
        return false;
      }
      browser, context := true, true;
      page := Some(Page(false, site.launchUrl));
      jar := site.profileCookies;
      trace := trace + [Launch];
      launched := true;
    }

    /** `save_cookies`: write the context's cookies to the file; does nothing
        without a context, and swallows a write error (which, once the file
        has been opened for writing, leaves it emptied or partial). */
    method SaveCookiesToFile(site: Site)
      requires Valid()
      modifies this`cookieFile, this`trace
      ensures Valid()
      ensures context ==> cookieFile == SavedFile(old(cookieFile), jar, site)
      ensures !context ==> cookieFile == old(cookieFile)
      ensures trace == old(trace) + if context then [SaveCookies] else []
    {
      if !context {
        return;
      }
      trace := trace + [SaveCookies];
      if !site.writeFails {
        cookieFile := if site.dumpFails then Unparseable else Stored(jar);
      }
    }

    /** `load_cookies`: replace the context's cookies with those in the file.
        Without a context, without a file, or with an empty list it reports
        false and leaves the cookies alone; an unparseable file is deleted.
        An open page is sent to the home page; when that raises, the page is
        replaced by a fresh one and the navigation retried, and when the
        retry raises as well the load reports false with the cookies already
        added and the fresh page left in place. */
    method LoadCookiesFromFile(site: Site) returns (loaded: bool)
      requires Valid()
      modifies this`jar, this`page, this`cookieFile, this`trace
      ensures Valid()
      ensures trace == old(trace) + [LoadCookies(loaded)]
      ensures loaded <==> old(context) && LoadSucceeds(old(cookieFile), old(PageOpen()), site)
      ensures old(context) ==>
        jar == LoadedJar(old(cookieFile), old(jar), site) && cookieFile == LoadedFile(old(cookieFile))
      ensures old(context) && old(cookieFile).Stored? && old(cookieFile).cookies != [] ==>
        jar == if site.cookiesRejected then [] else old(cookieFile).cookies
      ensures !(old(context) && old(cookieFile).Stored? && old(cookieFile).cookies != []) ==>
        jar == old(jar)
      ensures old(context) && old(cookieFile).Unparseable? ==> cookieFile == Missing
      ensures !(old(context) && old(cookieFile).Unparseable?) ==> cookieFile == old(cookieFile)
      ensures loaded && old(PageOpen()) ==> page == Some(Page(false, site.homeUrl))
      ensures var retried := old(context) && old(cookieFile).Stored? && old(cookieFile).cookies != [] &&
                             !site.cookiesRejected && old(PageOpen()) && site.homeUnreachable;
        && (retried ==> !loaded && page == Some(Page(false, BlankUrl)))
        && (!retried && !(loaded && old(PageOpen())) ==> page == old(page))
      ensures PageOpen() == old(PageOpen())
    {
      if !context {
        trace := trace + [LoadCookies(false)];
        return false;
      }
      match cookieFile {
        case Missing =>
          loaded := false;
        case Unparseable =>
          cookieFile := Missing;
          loaded := false;
        case Stored(cookies) =>
          if cookies == [] {
            loaded := false;
          } else {
            jar := [];
            if site.cookiesRejected {
              loaded := false;
            } else {
              jar := cookies;
              if PageOpen() && site.homeUnreachable {
                page := Some(Page(false, BlankUrl));
                loaded := false;
              } else {
                if PageOpen() {
                  page := Some(Page(false, site.homeUrl));
                }
                loaded := true;
              }
            }
          }
      }
      trace := trace + [LoadCookies(loaded)];
    }

    /** `verify_session`: open the feed and decide from what is shown. The
        navigation bar means signed in; a password prompt is answered with
        the password alone; anything else, or an error, means not signed in. */
    method VerifySession(site: Site) returns (ok: bool)
      requires Valid()
      modifies this`sessionValid, this`page, this`jar, this`cookieFile, this`trace
      ensures Valid()
      ensures ok == VerifyOutcome(old(PageOpen()), site)
      ensures trace == old(trace) + VerifyEvents(old(PageOpen()), site)
      ensures !old(PageOpen()) ==>
        sessionValid == old(sessionValid) && page == old(page) && jar == old(jar) &&
        cookieFile == old(cookieFile)
      ensures old(PageOpen()) ==> PageOpen() && sessionValid == ok
      ensures ok && !site.navVisible ==>
        jar == site.issuedCookies &&
        cookieFile == SavedFile(old(cookieFile), jar, site)
      ensures !(ok && !site.navVisible) ==> cookieFile == old(cookieFile) && jar == old(jar)
    {
      if !PageOpen() {
        trace := trace + [Verify(false)];
        return false;
      }
      page := Some(Page(false, site.feedUrl));
      trace := trace + [VisitFeed];
      if site.checkRaises {
        sessionValid := false;
        trace := trace + [Verify(false)];
        return false;
      }
      if site.navVisible {
        sessionValid := true;
        trace := trace + [Verify(true)];
        return true;
      }
      if site.welcomeBackVisible || site.passwordVisible {
        if site.passwordVisible && !site.passwordFillFails {
          trace := trace + [FillPassword, Submit];
          if site.navAfterPassword {
            page := Some(Page(false, site.signedInUrl));
            jar := site.issuedCookies;
            sessionValid := true;
            SaveCookiesToFile(site);
            trace := trace + [Verify(true)];
            return true;
          }
        }
      }
      // Whether or not the URL names the login page or the auth wall, the
      // outcome is the same.
      sessionValid := false;
      trace := trace + [Verify(false)];
      ok := false;
    }

    /** `login_with_credentials`: fill in e-mail and password on the login
        page and wait for the navigation bar. */
    method LoginWithCredentials(site: Site) returns (ok: bool)
      requires Valid()
      modifies this`sessionValid, this`page, this`jar, this`cookieFile, this`trace
      ensures Valid()
      ensures ok == LoginOutcome(old(PageOpen()), site)
      ensures trace == old(trace) + LoginEvents(old(PageOpen()), site)
      ensures ok ==> sessionValid && PageOpen() && jar == site.issuedCookies &&
                     cookieFile == SavedFile(old(cookieFile), jar, site)
      ensures !ok ==> sessionValid == old(sessionValid) && jar == old(jar) &&
                      cookieFile == old(cookieFile)
      ensures old(PageOpen()) ==> PageOpen()
      ensures !old(PageOpen()) ==> page == old(page)
    {
      if !PageOpen() || site.loginPageFails {
        trace := trace + [Login(false)];
        return false;
      }
      page := Some(Page(false, LoginUrl));
      trace := trace + [FillEmail, FillPassword, Submit];
      if site.navAfterLogin {
        page := Some(Page(false, site.signedInUrl));
        jar := site.issuedCookies;
        SaveCookiesToFile(site);
        sessionValid := true;
        trace := trace + [Login(true)];
        return true;
      }
      // A security-challenge URL is only logged.
      trace := trace + [Login(false)];
      ok := false;
    }

    /** The three steps of `ensure_logged_in` once a browser is running:
        clear the flag, load the cookies, verify, and only if that fails log
        in with credentials (saving the cookies once more on success). */
    method LoginRound(site: Site) returns (ok: bool)
      requires Valid() && browser
      modifies this`sessionValid, this`page, this`jar, this`cookieFile, this`trace
      ensures Valid()
      ensures sessionValid == ok
      ensures ok == (VerifyOutcome(old(PageOpen()), site) || LoginOutcome(old(PageOpen()), site))
      ensures trace == RoundTrace(old(trace), false, LoadSucceeds(old(cookieFile), old(PageOpen()), site),
                                  old(PageOpen()), site)
      ensures ok ==> PageOpen()
      ensures !ok || KeepsLoadedCookies(old(PageOpen()), site) ==>
        jar == LoadedJar(old(cookieFile), old(jar), site) && cookieFile == LoadedFile(old(cookieFile))
      ensures ok && !KeepsLoadedCookies(old(PageOpen()), site) ==>
        jar == site.issuedCookies &&
        cookieFile == SavedFile(LoadedFile(old(cookieFile)), site.issuedCookies, site)
    {
      sessionValid := false;
      var _ := LoadCookiesFromFile(site);
      var verified := VerifySession(site);
      if verified {
        sessionValid := true;
        return true;
      }
      var loggedIn := LoginWithCredentials(site);
      if loggedIn {
        sessionValid := true;
        SaveCookiesToFile(site);
      } else {
        sessionValid := false;
      }
      ok := loggedIn;
    }

    /** `ensure_logged_in`: trust a valid session on a LinkedIn page;
        otherwise launch a browser if the page is gone (a failed launch
        reports false) and run a login round. */
    method EnsureLoggedIn(site: Site) returns (ok: bool)
      requires Valid()
      modifies this
      ensures Valid()
      ensures old(Trusted()) ==> ok && unchanged(this)
      ensures !old(Trusted()) ==> sessionValid == ok
      ensures !old(Trusted()) && !old(browser) && site.launchFails ==>
        !ok && trace == old(trace)
      ensures !old(Trusted()) && (old(browser) || !site.launchFails) ==>
        trace == RoundTrace(old(trace), !old(browser),
                            LoadSucceeds(old(cookieFile), old(PageOpen()) || !old(browser), site),
                            old(PageOpen()) || !old(browser), site)
      ensures !old(Trusted()) && (old(browser) || !site.launchFails) ==>
        ok == (VerifyOutcome(old(PageOpen()) || !old(browser), site) ||
               LoginOutcome(old(PageOpen()) || !old(browser), site))
      ensures ok ==> PageOpen()
      ensures old(browser) ==> browser
      ensures !old(Trusted()) && (old(browser) || !site.launchFails) ==>
        var open := old(PageOpen()) || !old(browser);
        var startJar := if old(browser) then old(jar) else site.profileCookies;
        && (!ok || KeepsLoadedCookies(open, site) ==>
              jar == LoadedJar(old(cookieFile), startJar, site) && cookieFile == LoadedFile(old(cookieFile)))
        && (ok && !KeepsLoadedCookies(open, site) ==>
              jar == site.issuedCookies &&
              cookieFile == SavedFile(LoadedFile(old(cookieFile)), site.issuedCookies, site))
    {
      if sessionValid && PageOpen() && Contains(page.value.url, "linkedin.com") {
        return true;
      }
      if !PageOpen() {
        var launched := LaunchBrowser(site);
        if !launched {
          return false;
        }
      }
      ok := LoginRound(site);
    }

    /** `get_page`: make sure a page exists (launching a browser raises on
        failure) and that a login round has run whenever the flag is clear,
        then hand out the page whatever that round decided. */
    method GetPage(site: Site) returns (r: Result<Page>)
      requires Valid()
      modifies this
      ensures Valid()
      ensures r.Ok? ==> page == Some(r.value)
      ensures r.Raised? <==> !old(PageOpen()) && !old(browser) && site.launchFails
      ensures old(PageOpen()) && old(sessionValid) ==> r == Ok(old(page).value) && unchanged(this)
      ensures r.Ok? && !old(sessionValid) ==>
        trace == RoundTrace(old(trace), !old(browser),
                            LoadSucceeds(old(cookieFile), old(PageOpen()) || !old(browser), site),
                            old(PageOpen()) || !old(browser), site)
    {
      if !PageOpen() {
        var launched := LaunchBrowser(site);
        if !launched {
          return Raised;
        }
        if !sessionValid {
          var _ := EnsureLoggedIn(site);
        }
      } else if !sessionValid {
        var _ := EnsureLoggedIn(site);
      }
      r := Ok(page.value);
    }

    /** `close`: shut the browser down and forget browser, context, page and
        the session flag; calling it again changes nothing further. */
    method Close()
      requires Valid()
      modifies this
      ensures Valid()
      ensures !browser && !context && page.None? && !sessionValid
      ensures cookieFile == old(cookieFile)
      ensures trace == old(trace) + if old(browser) then [CloseBrowser] else []
    {
      if browser {
        browser, context, page := false, false, None;
        jar := [];
        trace := trace + [CloseBrowser];
      }
      sessionValid := false;
    }
  }
}
