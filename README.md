# LinkedIn hyper-personalisation outreach: a verified model of its decision logic

This project models, in Dafny, the parts of the LinkedIn outreach tool that make decisions over their inputs. The rest of the tool drives a Playwright browser, calls Gemini, and stores rows in SQLite.

The model covers:

- **The login-session state machine `LinkedInAuth`** (`linkedin_auth.dfy`, class `LinkedInAuth.Auth`).
  - Its fields are the session flag, the browser, context and page, the context's cookie jar and the cookie file.
  - `ensure_logged_in`, `load_cookies`, `verify_session`, `login_with_credentials`, `save_cookies`, `get_page` and `close` are methods that update them.
  - The browser and the site are an oracle (`Site`). It answers every question the code asks: is the navigation bar visible, is a password prompt shown, what is the URL, did an action raise.
  - A ghost event log (`trace`) records what each call did, in order. This is how the ordering rules are stated: a credential login only follows a failed verification, the e-mail is never typed during verification, and cookies are saved only after a re-prompt or a credential login.
- **The profile scraper's post-processing** (`profile_scraper.dfy`): fence stripping of the vision model's reply, the default profile keys, and the termination rule of the scrolling loop.
- **The pipeline's decisions** (`outreach_pipeline.dfy`): the requested message type, the primary company, whether to research it, and the URL filter of the batch CSV.
- **`DatabaseOps` as in-memory tables** (`database_ops.dfy`, class `Database.DatabaseOps`). Each table is a sequence of rows in row-id order, with AUTOINCREMENT counters. The class keeps an invariant: ids increase, founder URLs are unique, and at most one resume is active.
- **`MessageGenerator`** (`message_generator.dfy`): the length guard `_shorten_message`, name and company defaulting, and the fallback messages. Each reply of the language model is a parameter.
- **`ResumeProcessor`** (`resume_processor.dfy`): fence stripping, default resume sections, and `get_tech_stack_summary`.

Support modules:

- `wrappers.dfy`: `Option`, and `Result`, where `Raised` stands for a Python exception that escapes.
- `text.dfy`: Python's `str.strip`, `startswith`/`endswith`, `in`, `find`, `split(sep)[0]`/`[1]`, `split()[0]`, slicing, `join` and ASCII `lower`.
- `pyjson.dfy`: parsed JSON values with Python truthiness, `dict.get`, `setdefault` and `str()`.
- `tables.dfy`: `DELETE … WHERE` as a filter and `UPDATE … WHERE` as a row-wise map.

The session manager in `linkedin_auth.py` does none of the following:

- staleness windows;
- a classifier of challenge pages;
- account-tile reconfirmation;
- a polled wait on security challenges;
- mutual exclusion between callers;
- saving cookies after every successful verification.

Its short-circuit is the session flag plus an open page whose URL contains "linkedin.com" (linkedin_auth.py:221-225). Cookies are not saved when verification succeeds directly on the navigation bar.

## Model

| member | source | states |
|---|---|---|
| LinkedInAuth.Auth.constructor | linkedin_auth.py:14-23 | a new manager has no browser, context or page, an invalid session, and an empty event log |
| LinkedInAuth.Auth.LaunchBrowser | linkedin_auth.py:34-64 | a running browser is kept unchanged; otherwise a persistent context is started with the profile's cookies and its first page, or on failure nothing changes |
| LinkedInAuth.Auth.SaveCookiesToFile | linkedin_auth.py:85-93 | without a context nothing happens; otherwise the file holds the context's cookies (`SavedFile`); a file that cannot be opened stays as it was, and a write that fails after opening leaves a file that no longer parses, which the next load deletes |
| LinkedInAuth.Auth.LoadCookiesFromFile | linkedin_auth.py:95-136 | true exactly when there is a context, the file holds a non-empty cookie list, adding the cookies succeeds, and an open page reaches the home page (directly or on the retry with a fresh page); once added, the cookies replace the jar even when both navigations raise, and the page is then the fresh blank one; an unparseable file is deleted; otherwise the jar is untouched; whether a page is open does not change |
| LinkedInAuth.Auth.VerifySession | linkedin_auth.py:138-188 | the result is `VerifyOutcome`: false for a missing or closed page, with the session flag unchanged; true on the navigation bar; or true after a password re-prompt that brings the navigation bar back. The flag equals the result. Only the password is ever filled, and cookies are saved only after a successful re-prompt |
| LinkedInAuth.VerifyEventsShape | linkedin_auth.py:152-183 | a verification never types the e-mail; it fills the password exactly when the prompt is shown and a page is open; it saves cookies exactly when it succeeds without the navigation bar at first |
| LinkedInAuth.Auth.LoginWithCredentials | linkedin_auth.py:190-217 | the result is `LoginOutcome`: false for a missing or closed page, or when the login page fails; true when the navigation bar appears after submitting, and then the cookies are saved and the session is valid; on failure the flag and the jar are unchanged |
| LinkedInAuth.Auth.LoginRound | linkedin_auth.py:238-259 | clears the flag, loads cookies, then verifies; only when that fails does it log in, saving cookies once more on success; the flag ends equal to the result; a round that fails, or succeeds on the navigation bar at once, ends with the cookies loaded from the file (`LoadedJar`, `LoadedFile`); any other successful round ends with the site's issued cookies in the browser and saved to the file (`SavedFile`) |
| LinkedInAuth.Auth.EnsureLoggedIn | linkedin_auth.py:219-259 | a trusted session (flag set, page open, URL on linkedin.com) returns true and changes nothing; a browser launch failure returns false with no event; otherwise the event log grows by exactly one round (`RoundTrace`), the flag equals the result, and the browser's cookies and the cookie file end as that round leaves them, starting from the profile's cookies when a browser was launched |
| LinkedInAuth.RoundTraceEvents | linkedin_auth.py:231-259 | the step-by-step log of a round equals the old log followed by the round's events |
| LinkedInAuth.RoundOrdering | linkedin_auth.py:247-259 | in every round, a credential login only follows a failed verification; the verification succeeds exactly when `VerifyOutcome` holds, and then no login happens; a successful login appears exactly when verification failed and `LoginOutcome` holds |
| LinkedInAuth.VerifiedRound | linkedin_auth.py:247-249 | actions closed by a successful verification contain no login |
| LinkedInAuth.FailedVerifyRound | linkedin_auth.py:251-259 | actions, a failed verification, actions, a login: the login follows the failed verification, no verification succeeds, and the login's outcome is the round's |
| LinkedInAuth.Auth.GetPage | linkedin_auth.py:75-83 | raises exactly when there is no open page, no browser, and launching fails; otherwise returns the stored page, even one that was closed while the browser still runs; an open page with the session flag set is returned with nothing changed; a cleared flag leads to one login round |
| LinkedInAuth.Auth.Close | linkedin_auth.py:261-278 | browser, context and page are dropped and the session flag is cleared, whatever the state; the cookie file is untouched |
| ProfileScraper.StripProfileFences | main.py:297-307 | the text handed to the JSON parser has no surrounding whitespace and is no longer than the reply |
| ProfileScraper.CutJsonFence | main.py:303-306 | a leading "```json" and a trailing "```" are cut exactly off a fenced payload |
| ProfileScraper.FencedProfileReply | main.py:297-307 | a payload in a ```json fence, with whitespace around it, comes back as the stripped payload |
| ProfileScraper.BareProfileReply | main.py:303-307 | a stripped reply without fences is passed on unchanged |
| ProfileScraper.ApplyProfileDefaults | main.py:313-321 | a non-dict gives None; every key present keeps its value; `full_name` becomes "Unknown" only when absent; the other five keys get '' or [] when absent; nothing else is added; existing entries keep their order |
| ProfileScraper.ProfileDefaultsLookup | main.py:313-321 | after the name default, the five empty defaults give each key its parsed value, or else its default |
| ProfileScraper.ScrollProfilePage | main.py:356-400 | 1 to 25 scrolls; no step before the last ends the loop; fewer than 25 scrolls means the last step stopped it (error, bottom reached, or three unchanged heights in a row); the page is scrolled back to the top exactly when the last step raised no error |
| ProfileScraper.StableHeightStops | main.py:379-386 | on a page that never changes and never reaches the bottom, the loop stops at the third scroll when the height is 0, and at the fourth otherwise |
| ProfileScraper.HeightChangeResets | main.py:382-388 | a height change at step k rules out a stability stop at steps k, k+1 and k+2 |
| OutreachPipeline.RequestedKind | main.py:897-907 | "connection" and "job_inquiry" select their kind, and every other type (or none) stops the run |
| OutreachPipeline.FirstCurrent | main.py:851 | the index of the first experience whose duration mentions "present", no earlier one doing so; None when none does; it raises at the first experience the test cannot be applied to |
| OutreachPipeline.ChoosePrimaryCompany | main.py:846-862 | without experiences the company is "their company"; otherwise the first current experience is chosen, or else the first one; a falsy name becomes "their company", so the name is always truthy; a non-list or a broken experience raises |
| OutreachPipeline.ResearchDecision | main.py:864-876 | a profile without experiences is never researched; a current first experience naming a real company always is |
| OutreachPipeline.CollectProfileUrls | main.py:948-956 | collects exactly `AcceptedUrls(rows)`: the stripped URL of each row whose `linkedin_url`, else `url`, is non-empty and starts with "http", in row order |
| OutreachPipeline.StripKeepsHttp | main.py:952-953 | stripping a URL that starts with "http" keeps that prefix |
| OutreachPipeline.AcceptedUrlsShape | main.py:950-953 | at most one URL per row, and each starts with "http" and has no surrounding whitespace |
| Database.NormalizeSummary | main.py:543-558 | None gives ''; a list of strings is space-joined and a list with a non-string raises; a string is cut to 10000 characters; the stored summary never exceeds 10000 characters |
| Database.NormalizeDescription | main.py:579-599 | a list of strings is space-joined and the join cut to 5000 characters; a string is cut to 5000 characters; any other value, or a list holding a non-string, raises; the result never exceeds 5000 characters |
| Database.ShortTextKept | main.py:558 | a summary or description that fits its bound is stored whole |
| Database.DatabaseOps.constructor | main.py:34-113 | an initialised database has four empty tables and satisfies the table invariant |
| Database.DatabaseOps.SaveFounderData | main.py:533-571 | empty or non-dict data gives None; a bad summary raises; binding name, headline and location in order, a list or dict gives None and no change, and an integer beyond 64 bits raises (OverflowError is not caught); otherwise the row with the same URL is replaced by a new row under a fresh id, which is returned; the invariant (unique URLs, increasing ids) is kept |
| Database.DatabaseOps.SaveCompanyData | main.py:573-611 | a falsy founder id gives None and no change; non-dict data, a bad description, or a founder id beyond 64 bits raises; binding name, title and website in order, a list or dict gives None and no change, and an integer beyond 64 bits raises; an existing founder's rows are all updated and the first one's id is returned; otherwise one row is inserted under a fresh id |
| Database.FirstCompanyOf | main.py:583-584 | the first company row of a founder in id order, or None exactly when the founder has no row |
| Database.DatabaseOps.SaveMessage | main.py:613-630 | a falsy founder id gives None and no change; otherwise an unsent message is appended under a fresh id, which is returned |
| Database.DatabaseOps.MarkMessageAsSent | main.py:660-680 | true exactly when a message has the id; that message is marked sent and nothing else changes |
| Database.DatabaseOps.FindMessage | main.py:711-713 | finds the message with the id, or None exactly when there is none |
| Database.DatabaseOps.DeleteProfile | main.py:706-737 | an unknown message id gives false with nothing deleted; otherwise every message, company row and founder row of that message's founder is deleted, the rest is kept in order, and the invariant is kept |
| Database.DatabaseOps.SaveResumeData | main.py:739-780 | empty data gives None and no change; otherwise every resume is deactivated and the new one is appended active under a fresh id, so `ActiveResumeData()` then returns exactly the new data |
| Database.NewestActive | main.py:792-793 | the content of the newest active resume; None exactly when no resume is active |
| Database.DatabaseOps.ActiveResumeData | main.py:782-809 | None exactly when no resume is active; under the invariant, the result is the content of the one active resume |
| MessageGenerator.ShortenMessage | message_generator.py:120-148 | a message within the target is unchanged; for a target of at least 3 the result never exceeds it; a longer message becomes the stripped reply when that fits, else exactly `target` characters: a prefix of the reply (or of the message, when there is no reply) followed by "..." |
| MessageGenerator.RecipientName | message_generator.py:153 | "there" for a falsy name; otherwise exactly `FirstWord` of the name string (its `split()[0]`), which is non-empty and has no whitespace; a blank name or a non-string raises |
| MessageGenerator.FirstWordOf | message_generator.py:153 | `split()[0]` of leading whitespace, a word and text starting with whitespace is that word |
| MessageGenerator.CompanyName | message_generator.py:154 | the primary company's name, or "their company" when the name is absent; a primary company that is not a dict raises |
| MessageGenerator.GenerateConnectionRequest | message_generator.py:150-207 | a usable name, company and reply give the stripped reply through the 300-character guard; any failure gives the fixed fallback, which greets the raw `full_name`; the result is within 300 characters or is that fallback |
| MessageGenerator.TechStack | message_generator.py:215-217 | an empty tech stack becomes exactly the placeholder "[Your relevant skills and experience area]"; a non-empty one is kept; the result is never empty |
| MessageGenerator.GenerateJobInquiryAsWritten | message_generator.py:209-276 | raises exactly when the record is not a dict or the name or company lookup raised; otherwise, without a reply, the fallback naming the company and the (placeholder-substituted) tech stack, and with a reply, the stripped reply through the 2500-character guard |
| MessageGenerator.BlankNameInquiryRaises | message_generator.py:212-276 | a `full_name` of one space makes the job inquiry as written raise, while the connection request falls back |
| MessageGenerator.GenerateJobInquiry | message_generator.py:209-276 | raises only for a non-dict record; agrees with the as-written version whenever name and company are read; when either lookup fails it gives the fallback naming "your company" and the tech stack as given; the result is within 2500 characters or is a fallback |
| MessageGenerator.BlankNameInquiryFallsBack | message_generator.py:272-276 | on a blank name the corrected job inquiry returns the fallback message naming "your company" |
| ResumeProcessor.StripResumeFences | resume_processor.py:198-206 | the text handed to the JSON parser has no surrounding whitespace and is no longer than the reply |
| ResumeProcessor.FencedResumeReply | resume_processor.py:198-206 | a payload in a ```json fence, with whitespace around it, comes back stripped, provided it holds no "```" and does not end with a backtick |
| ResumeProcessor.CutResumeFences | resume_processor.py:202-205 | the text after "```json" and before the next "```" of a fenced payload is the payload |
| ResumeProcessor.ClosingFenceOnly | resume_processor.py:202-205 | after such a payload, the closing "```" is the first one, and there is no "```json" |
| ResumeProcessor.BareResumeReply | resume_processor.py:198-206 | a reply without any fence is only stripped |
| ResumeProcessor.ApplyResumeDefaults | resume_processor.py:212-220 | a non-dict gives None; `basic_info` and `skills` get {} and `experience` and `education` get [] when absent; present keys keep their values; nothing else is added; order is kept |
| ResumeProcessor.FirstEntry | resume_processor.py:247-252 | a falsy list gives {}; a non-empty list gives exactly its first entry; any other value, or a truthy first entry that is not a dict, raises |
| ResumeProcessor.SkillsLine | resume_processor.py:244-262 | a non-empty skills list of strings is joined with ", " and a non-empty string is used verbatim, after "Technical skills: "; other values give no line; a `skills` that is not a dict raises, and so does a list item that is not a string |
| ResumeProcessor.RoleLine | resume_processor.py:265-269 | the role line appears exactly when the first experience has a truthy company and title, as "Recent role: {title} at {company}" |
| ResumeProcessor.EducationLine | resume_processor.py:272-281 | the education line appears exactly when degree and institution are truthy; " in {field}" is added only for a truthy field |
| ResumeProcessor.GetTechStackSummary | resume_processor.py:229-287 | "" for falsy data; otherwise the lines collected by successive appends joined with newlines, or "" when anything raised |
| ResumeProcessor.SummaryOrder | resume_processor.py:255-283 | the lines come in the fixed order skills, recent role, education; each section appears at most once and each line carries its section's label |

## Left out

- Playwright internals are not modelled: launch arguments, the stealth script and the sleeps. The fresh-page retry inside `load_cookies` (linkedin_auth.py:120-131) is modelled by its outcome only: the site oracle says whether the home page is reached, and when both navigations raise, `load_cookies` reports false with the cookies already added; a first navigation that raises followed by a retry that succeeds is not told apart from a first navigation that succeeds.
- LinkedInAuth.Auth.VerifySession: the login/authwall URL test (linkedin_auth.py:177-179) is not modelled separately, because both of its branches return false with the flag cleared.
- LinkedInAuth.Auth.LoginWithCredentials: the "checkpoint/challenge" URL test only logs, so it is not modelled.
- The security-challenge wait, challenge classification, staleness windows and the mutual-exclusion guard are not modelled, because `linkedin_auth.py` has none of them.
- Gemini calls and prompt text are not modelled. Each reply is an input: a string, or `None` for a missing reply or a call that raised.
- `json.loads` and `json.dumps` are not modelled. Parsed values are taken as `Json` inputs, and a resume is stored as its `Json` value.
- Company research (DuckDuckGo and BeautifulSoup), PDF rendering, screenshots and image files are not modelled. They are network and file I/O.
- ProfileScraper.ScrollProfilePage: the initial height read before the loop (main.py:360) is assumed to succeed. Random pauses, and the pixel offsets beyond what the stop rule reads, are left out.
- ProfileScraper.ApplyProfileDefaults: a falsy `full_name` that is present stays as it is (Python's `setdefault` does not overwrite it), as in the source.
- Database.DatabaseOps: SQL text, connections, transactions and timestamps are not modelled. A failing statement is modelled only through parameter binding: lists and dicts give None with no change, and integers beyond 64 bits raise. The ids passed to `save_message`, `mark_message_as_sent`, `delete_profile` and `save_resume_data` are assumed to fit in 64 bits.
- Database.DatabaseOps.SaveFounderData: `INSERT OR REPLACE` is modelled as deleting the row with the same URL and appending a row under a fresh id. Company and message rows that point at the old founder id are left as they are, as in SQLite without foreign-key enforcement.
- `get_all_messages` and `export_messages_to_csv` are not modelled. They are a SQL join and CSV writing, with no decision logic.
- The end-to-end `process_single_profile_with_scraper` is not modelled as a whole. It passes `resume_data` to generator methods that do not accept it. Its type check, primary-company choice and research decision are modelled.
- Random delays in the batch loop and the per-profile processing of `process_batch_from_csv` are not modelled. The CSV URL filter is.
- `summarize_company_data` is not modelled. Its output is an LLM reply that the generators only place into prompts.
- MessageGenerator.GenerateConnectionRequest: the fallback message is not length-bounded. A long `full_name` can push it past 300 characters, and the contract states exactly that.
- `PyJson.Json` numbers are integers only (`JNum(int)`): JSON floats in scraped or generated data cannot be represented, and `str()` of a float is not modelled.
- `PyJson.Render` quotes strings inside lists and dicts with single quotes and no escaping; Python's `repr` uses double quotes for a string holding a single quote and escapes backslashes and control characters.
- String case folding is ASCII only. `'present' in duration.lower()` does not treat non-ASCII capitals.
- `app.py` and `api_endpoint.py` (the Streamlit UI and the Flask routes) are not part of this model.

## Findings

| source | as written | input that shows it | evidently intended | confidence | as-written member | corrected member |
|---|---|---|---|---|---|---|
| message_generator.py:211-276 | the `except` handler of `generate_job_inquiry` reads `company_name`, which is unbound when the exception came from the name or company line, so an UnboundLocalError escapes instead of the fallback message | a founder record whose `full_name` is `" "` (`split()[0]` raises IndexError) | the fallback message, naming "your company" as the handler's `company_name or 'your company'` intends | not executed | MessageGenerator.GenerateJobInquiryAsWritten, MessageGenerator.BlankNameInquiryRaises | MessageGenerator.GenerateJobInquiry, MessageGenerator.BlankNameInquiryFallsBack |
