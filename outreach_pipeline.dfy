/** The decisions `LinkedInOutreachPipeline` in `main.py` takes over its
    inputs: the requested message type, the choice of the primary company
    among the profile's experiences, whether to research that company, and
    which rows of a batch CSV give a profile URL. */
module OutreachPipeline {
  import opened Wrappers
  import opened Text
  import opened PyJson

  /** The two kinds of message the pipeline can generate. */
  datatype MessageKind = Connection | JobInquiry

  /** The `requested_message_type` check: a missing or empty type stops the
      run, and so does any type other than "connection" or "job_inquiry". */
  function RequestedKind(requested: Option<string>): (r: Option<MessageKind>)
    ensures r == Some(Connection) <==> requested == Some("connection")
    ensures r == Some(JobInquiry) <==> requested == Some("job_inquiry")
  {
    match requested
    case None => None
    case Some(t) =>
      if t == "connection" then Some(Connection)
      else if t == "job_inquiry" then Some(JobInquiry)
      else None
  }

  /** The placeholder used when no company name is known. */
  const Placeholder := "their company"

  /** `'present' in exp.get('duration', '').lower()` for one experience; it
      raises when the experience is not a dict or its duration is not a
      string. */
  function MentionsPresent(exp: Json): (r: Result<bool>)
  {
    if !exp.JObj? then Raised
    else match Get(exp, "duration", JStr(""))
      case JStr(d) => Ok(Contains(Lower(d), "present"))
      case _ => Raised
  }

  /** The generator `next(exp for exp in experiences if ...)`: the index of
      the first experience that mentions "present", or None; it raises at the
      first experience the test cannot be applied to, and never looks past
      the one it returns. */
  function FirstCurrent(exps: seq<Json>): (r: Result<Option<nat>>)
    ensures r.Ok? && r.value.Some? ==>
      r.value.value < |exps| && MentionsPresent(exps[r.value.value]) == Ok(true) &&
      forall j :: 0 <= j < r.value.value ==> MentionsPresent(exps[j]) == Ok(false)
    ensures r == Ok(None) ==> forall j :: 0 <= j < |exps| ==> MentionsPresent(exps[j]) == Ok(false)
    ensures r.Raised? ==>
      exists k :: 0 <= k < |exps| && MentionsPresent(exps[k]).Raised? &&
                  forall j :: 0 <= j < k ==> MentionsPresent(exps[j]) == Ok(false)
    decreases |exps|
  {
    if exps == [] then Ok(None)
    else match MentionsPresent(exps[0])
      case Raised => Raised
      case Ok(present) =>
        if present then Ok(Some(0))
        else match FirstCurrent(exps[1..])
          case Raised =>
            var k :| 0 <= k < |exps| - 1 && MentionsPresent(exps[1..][k]).Raised? &&
              forall j :: 0 <= j < k ==> MentionsPresent(exps[1..][j]) == Ok(false);
            NotCurrentBefore(exps, k + 1);
            assert exps[k + 1] == exps[1..][k];
            Raised
          case Ok(None) =>
            NotCurrentBefore(exps, |exps|);
            Ok(None)
          case Ok(Some(i)) =>
            NotCurrentBefore(exps, i + 1);
            Ok(Some(i + 1))
  }

  /** A first experience that is not current, followed by `n - 1` more that
      are not, make `n` that are not. */
  lemma NotCurrentBefore(exps: seq<Json>, n: nat)
    requires 0 < n <= |exps| && MentionsPresent(exps[0]) == Ok(false)
    requires forall j :: 0 <= j < n - 1 ==> MentionsPresent(exps[1..][j]) == Ok(false)
    ensures forall j :: 0 <= j < n ==> MentionsPresent(exps[j]) == Ok(false)
  {
    forall j | 0 <= j < n ensures MentionsPresent(exps[j]) == Ok(false) {
      if j > 0 { assert exps[j] == exps[1..][j - 1]; }
    }
  }

  /** The company, title and description taken from the primary experience
      (`name` already defaulted). */
  datatype PrimaryCompany = PrimaryCompany(name: Json, title: Json, description: Json)

  /** The company fields of experience `exp`, with a falsy name replaced by
      the placeholder. */
  function CompanyOf(exp: Json): Json
    requires exp.JObj?
  {
    var name := Get(exp, "company", JNull);
    if Truthy(name) then name else JStr(Placeholder)
  }

  /** Step 2 of `process_single_profile_with_scraper`: with a non-empty
      experience list, the first experience whose duration mentions
      "present" (case-insensitively) is the primary one, else the first
      experience; without experiences there is none. A falsy company name
      becomes "their company". An experience list that is not a list, or an
      experience the test fails on, raises (the run then returns None). */
  function ChoosePrimaryCompany(founder: Json): (r: Result<PrimaryCompany>)
    requires founder.JObj?
    ensures r.Ok? ==> Truthy(r.value.name)
    ensures !Truthy(Get(founder, "experiences", JNull)) ==>
      r == Ok(PrimaryCompany(JStr(Placeholder), JNull, JNull))
    ensures Truthy(Get(founder, "experiences", JNull)) ==>
      var exps := Get(founder, "experiences", JNull);
      (r.Raised? <==> !exps.JArr? || FirstCurrent(exps.items).Raised?) &&
      (r.Ok? ==>
         exists i :: 0 <= i < |exps.items| && exps.items[i].JObj? &&
                     r.value == PrimaryCompany(CompanyOf(exps.items[i]), Get(exps.items[i], "title", JNull),
                                               Get(exps.items[i], "description", JNull)) &&
                     (MentionsPresent(exps.items[i]) == Ok(true) ||
                      (i == 0 && forall j :: 0 <= j < |exps.items| ==> MentionsPresent(exps.items[j]) == Ok(false))) &&
                     forall j :: 0 <= j < i ==> MentionsPresent(exps.items[j]) == Ok(false))
  {
    var exps := Get(founder, "experiences", JNull);
    if !Truthy(exps) then Ok(PrimaryCompany(JStr(Placeholder), JNull, JNull))
    else if !exps.JArr? then Raised
    else match FirstCurrent(exps.items)
      case Raised => Raised
      case Ok(found) =>
        var i := if found.Some? then found.value else 0;
        assert MentionsPresent(exps.items[i]).Ok?;
        var exp := exps.items[i];
        Ok(PrimaryCompany(CompanyOf(exp), Get(exp, "title", JNull), Get(exp, "description", JNull)))
  }

  /** Step 4: the company is researched only when its name is not the
      placeholder. */
  predicate ShouldResearch(c: PrimaryCompany) {
    c.name != JStr(Placeholder)
  }

  /** A profile without experiences is never researched; a profile whose
      first experience is current and names a company other than the
      placeholder always is. */
  lemma ResearchDecision(founder: Json)
    requires founder.JObj?
    ensures !Truthy(Get(founder, "experiences", JNull)) ==>
      ChoosePrimaryCompany(founder).Ok? && !ShouldResearch(ChoosePrimaryCompany(founder).value)
    ensures var exps := Get(founder, "experiences", JNull);
      exps.JArr? && |exps.items| > 0 && MentionsPresent(exps.items[0]) == Ok(true) &&
      Get(exps.items[0], "company", JNull).JStr? &&
      Get(exps.items[0], "company", JNull).s !in {"", Placeholder} ==>
        ChoosePrimaryCompany(founder) ==
          Ok(PrimaryCompany(Get(exps.items[0], "company", JNull), Get(exps.items[0], "title", JNull),
                            Get(exps.items[0], "description", JNull))) &&
        ShouldResearch(ChoosePrimaryCompany(founder).value)
  {
  }

  /** One CSV row: the cells by column name (a missing cell is absent). */
  type Row = map<string, string>

  /** `row.get('linkedin_url') or row.get('url')`. */
  function RowUrl(row: Row): Option<string> {
    if "linkedin_url" in row && row["linkedin_url"] != [] then Some(row["linkedin_url"])
    else if "url" in row then Some(row["url"])
    else None
  }

  /** The row gives a usable URL: present, non-empty and starting with "http". */
  predicate Accepted(row: Row) {
    RowUrl(row).Some? && RowUrl(row).value != [] && StartsWith(RowUrl(row).value, "http")
  }

  /** The profile URLs of `rows`, in order: the stripped URL of each
      accepted row. */
  function AcceptedUrls(rows: seq<Row>): seq<string> {
    if rows == [] then []
    else
      var last := rows[|rows| - 1];
      AcceptedUrls(rows[..|rows| - 1]) + if Accepted(last) then [Strip(RowUrl(last).value)] else []
  }

  /** The CSV loop of `process_batch_from_csv`: collect the stripped URL of
      every accepted row, skipping the others. */
  method CollectProfileUrls(rows: seq<Row>) returns (urls: seq<string>)
    ensures urls == AcceptedUrls(rows)
  {
    urls := [];
    for i := 0 to |rows|
      invariant urls == AcceptedUrls(rows[..i])
    {
      assert rows[..i + 1][..i] == rows[..i];
      if RowUrl(rows[i]).Some? && RowUrl(rows[i]).value != [] && StartsWith(RowUrl(rows[i]).value, "http") {
        urls := urls + [Strip(RowUrl(rows[i]).value)];
      }
    }
    assert rows[..|rows|] == rows;
  }

  /** Stripping a string that starts with "http" keeps that prefix. */
  lemma StripKeepsHttp(u: string)
    requires StartsWith(u, "http")
    ensures StartsWith(Strip(u), "http")
  {
    assert !IsSpace(u[0]) && !IsSpace(u[3]);
    var l := LStrip(u);
    assert l == u;
    var r := RStrip(l);
    assert r[..4] == u[..4];
  }

  /** Every collected URL starts with "http" and has no surrounding
      whitespace, and there is at most one per row. */
  lemma {:induction false} AcceptedUrlsShape(rows: seq<Row>)
    ensures |AcceptedUrls(rows)| <= |rows|
    ensures forall i :: 0 <= i < |AcceptedUrls(rows)| ==>
      StartsWith(AcceptedUrls(rows)[i], "http") && Stripped(AcceptedUrls(rows)[i])
  {
    if rows != [] {
      var init := rows[..|rows| - 1];
      var last := rows[|rows| - 1];
      AcceptedUrlsShape(init);
      if Accepted(last) {
        var u := Strip(RowUrl(last).value);
        StripKeepsHttp(RowUrl(last).value);
        assert AcceptedUrls(rows) == AcceptedUrls(init) + [u];
        UrlsShapeAppend(AcceptedUrls(init), u);
      } else {
        assert AcceptedUrls(rows) == AcceptedUrls(init);
      }
    }
  }

  lemma UrlsShapeAppend(urls: seq<string>, u: string)
    requires forall i :: 0 <= i < |urls| ==> StartsWith(urls[i], "http") && Stripped(urls[i])
    requires StartsWith(u, "http") && Stripped(u)
    ensures forall i :: 0 <= i < |urls + [u]| ==> StartsWith((urls + [u])[i], "http") && Stripped((urls + [u])[i])
  {
  }
}
