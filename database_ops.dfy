/** `DatabaseOps` from `main.py` over in-memory tables. Each table is a
    sequence of rows in row-id order; ids come from a per-table counter, as
    SQLite's AUTOINCREMENT hands them out (never reused, always larger than
    any id handed out before). A statement that SQLite rejects (a value it
    cannot bind) is rolled back and reported as None; a Python error raised
    while the parameters are built escapes the method (`Raised`). */
module Database {
  import opened Wrappers
  import opened Text
  import opened PyJson
  import opened Tables

  datatype Founder = Founder(id: nat, url: string, fullName: Json, headline: Json, summary: string, location: Json)
  datatype Company = Company(id: nat, founderId: int, name: Json, title: Json, description: string, website: Json)
  datatype Message = Message(id: nat, founderId: int, text: string, kind: string, sent: bool)
  /** A row of `resume_data` for the single user 1; the content is kept as
      the value that was serialised. */
  datatype Resume = Resume(id: nat, content: Json, fileName: string, active: bool)

  const MaxSummary := 10000
  const MaxDescription := 5000

  const MinInt64 := -0x8000_0000_0000_0000
  const MaxInt64 := 0x7fff_ffff_ffff_ffff

  /** How binding query parameters ends. A list or dict is refused with a
      `sqlite3.Error`, which the methods catch; an integer outside the signed
      64-bit range raises OverflowError, which is not a `sqlite3.Error` and
      escapes. */
  datatype Binding = Bound | Refused | Overflow

  function BindParam(v: Json): (r: Binding)
    ensures r == Refused <==> v.JArr? || v.JObj?
    ensures r == Overflow <==> v.JNum? && !(MinInt64 <= v.n <= MaxInt64)
  {
    if v.JArr? || v.JObj? then Refused
    else if v.JNum? && !(MinInt64 <= v.n <= MaxInt64) then Overflow
    else Bound
  }

  /** Parameters are bound in order, and the first one that cannot be bound
      decides the outcome. */
  function BindRow(ps: seq<Json>): (r: Binding)
    ensures r == Bound <==> forall i :: 0 <= i < |ps| ==> BindParam(ps[i]) == Bound
    ensures r != Bound ==>
      exists i :: 0 <= i < |ps| && r == BindParam(ps[i]) && forall j :: 0 <= j < i ==> BindParam(ps[j]) == Bound
  {
    if ps == [] then Bound
    else if BindParam(ps[0]) != Bound then BindParam(ps[0])
    else BindRow(ps[1..])
  }

  /** The stored summary of `save_founder_data`, from `founder_data.get('summary', '')`:
      None becomes '', a list is joined with spaces, any falsy value is
      stored as '', and a string is cut to 10000 characters; slicing any
      other value raises a TypeError. */
  function NormalizeSummary(v: Json): (r: Result<string>)
    ensures r.Ok? ==> |r.value| <= MaxSummary
    ensures v.JNull? ==> r == Ok("")
    ensures v.JStr? ==> r == Ok(PyPrefix(v.s, MaxSummary))
    ensures v.JArr? ==> (r.Ok? <==> AllStrings(v.items))
    ensures v.JArr? && AllStrings(v.items) ==>
      r == Ok(PyPrefix(Join(" ", Strings(v.items)), MaxSummary))
  {
    var text := match v
      case JNull => Ok(JStr(""))
      case JArr(items) =>
        (match JoinStrs(" ", items)
         case Ok(s) => Ok(JStr(s))
         case Raised => Raised)
      case _ => Ok(v);
    match text
    case Raised => Raised
    case Ok(t) =>
      if !Truthy(t) then Ok("")
      else if t.JStr? then Ok(PyPrefix(t.s, MaxSummary))
      else Raised
  }

  /** The stored description of `save_company_data`, from
      `company_data.get('description', '')`: a list is joined with spaces and
      a string is cut to 5000 characters; slicing any other value raises. */
  function NormalizeDescription(v: Json): (r: Result<string>)
    ensures r.Ok? ==> |r.value| <= MaxDescription
    ensures r.Ok? <==> v.JStr? || (v.JArr? && AllStrings(v.items))
    ensures v.JStr? ==> r == Ok(PyPrefix(v.s, MaxDescription))
    ensures v.JArr? && AllStrings(v.items) ==>
      r == Ok(PyPrefix(Join(" ", Strings(v.items)), MaxDescription))
  {
    match v
    case JStr(s) => Ok(PyPrefix(s, MaxDescription))
    case JArr(items) =>
      (match JoinStrs(" ", items)
       case Ok(s) => Ok(PyPrefix(s, MaxDescription))
       case Raised => Raised)
    case _ => Raised
  }

  /** A text that fits is stored whole. */
  lemma ShortTextKept(s: string)
    ensures |s| <= MaxSummary ==> NormalizeSummary(JStr(s)) == Ok(s)
    ensures |s| <= MaxDescription ==> NormalizeDescription(JStr(s)) == Ok(s)
  {
    assert s[..|s|] == s;
  }

  /** Python truthiness of an optional integer id. */
  predicate Present(id: Option<int>) {
    id.Some? && id.value != 0
  }

  predicate FounderOrder(a: Founder, b: Founder) { a.id < b.id && a.url != b.url }
  predicate CompanyOrder(a: Company, b: Company) { a.id < b.id }
  predicate MessageOrder(a: Message, b: Message) { a.id < b.id }
  predicate ResumeOrder(a: Resume, b: Resume) { a.id < b.id }

  /** The index of the first row of `cs` for founder `f`, in row-id order. */
  function FirstCompanyOf(cs: seq<Company>, f: int): (r: Option<nat>)
    ensures r.Some? ==> r.value < |cs| && cs[r.value].founderId == f &&
                        forall j :: 0 <= j < r.value ==> cs[j].founderId != f
    ensures r.None? ==> forall j :: 0 <= j < |cs| ==> cs[j].founderId != f
  {
    if cs == [] then None
    else if cs[0].founderId == f then Some(0)
    else match FirstCompanyOf(cs[1..], f)
      case None => None
      case Some(i) => Some(i + 1)
  }

  /** The tables after every message, company row and founder row of
      founder `f` is deleted from `m0`, `c0` and `f0`. */
  ghost predicate RemovedFounder(m0: seq<Message>, c0: seq<Company>, f0: seq<Founder>,
                                 m: seq<Message>, c: seq<Company>, fs: seq<Founder>, f: int)
  {
    && m == Filter(m0, OtherMessage(f))
    && c == Filter(c0, OtherCompany(f))
    && fs == Filter(f0, OtherFounder(f))
  }

  /** The rows that `delete_profile` keeps for founder `f`. */
  function OtherMessage(f: int): Message -> bool {
    (x: Message) => x.founderId != f
  }

  function OtherCompany(f: int): Company -> bool {
    (x: Company) => x.founderId != f
  }

  function OtherFounder(f: int): Founder -> bool {
    (x: Founder) => x.id != f
  }

  /** The founders table is in id order, URLs are unique, and every id is
      below the next AUTOINCREMENT value. */
  predicate FoundersOk(fs: seq<Founder>, next: nat) {
    Pairwise(fs, FounderOrder) && forall i :: 0 <= i < |fs| ==> fs[i].id < next
  }

  predicate CompaniesOk(cs: seq<Company>, next: nat) {
    Pairwise(cs, CompanyOrder) && forall i :: 0 <= i < |cs| ==> cs[i].id < next
  }

  predicate MessagesOk(ms: seq<Message>, next: nat) {
    Pairwise(ms, MessageOrder) && forall i :: 0 <= i < |ms| ==> ms[i].id < next
  }

  /** The resumes table is in id order, every id is below the next
      AUTOINCREMENT value, and at most one resume is active. */
  predicate ResumesOk(rs: seq<Resume>, next: nat) {
    && Pairwise(rs, ResumeOrder) && (forall i :: 0 <= i < |rs| ==> rs[i].id < next)
    && (forall i, j :: 0 <= i < |rs| && 0 <= j < |rs| && rs[i].active && rs[j].active ==> i == j)
  }

  /** Deleting rows keeps each table's invariant. */
  lemma FilterFoundersOk(fs: seq<Founder>, next: nat, keep: Founder -> bool)
    requires FoundersOk(fs, next)
    ensures FoundersOk(Filter(fs, keep), next)
  {
    FilterPairwise(fs, keep, FounderOrder);
    FilterSound(fs, keep);
  }

  lemma FilterCompaniesOk(cs: seq<Company>, next: nat, keep: Company -> bool)
    requires CompaniesOk(cs, next)
    ensures CompaniesOk(Filter(cs, keep), next)
  {
    FilterPairwise(cs, keep, CompanyOrder);
    FilterSound(cs, keep);
  }

  lemma FilterMessagesOk(ms: seq<Message>, next: nat, keep: Message -> bool)
    requires MessagesOk(ms, next)
    ensures MessagesOk(Filter(ms, keep), next)
  {
    FilterPairwise(ms, keep, MessageOrder);
    FilterSound(ms, keep);
  }

  /** The content of the newest active resume in `rs`. */
  function NewestActive(rs: seq<Resume>): (r: Option<Json>)
    ensures r.Some? <==> exists i :: 0 <= i < |rs| && rs[i].active
    ensures r.Some? ==> exists i :: 0 <= i < |rs| && rs[i].active && rs[i].content == r.value &&
                                    forall j :: i < j < |rs| ==> !rs[j].active
  {
    if rs == [] then None
    else if rs[|rs| - 1].active then Some(rs[|rs| - 1].content)
    else
      var r := NewestActive(rs[..|rs| - 1]);
      assert forall i :: 0 <= i < |rs| - 1 ==> rs[..|rs| - 1][i] == rs[i];
      r
  }

  class DatabaseOps {
    var founders: seq<Founder>
    var companies: seq<Company>
    var messages: seq<Message>
    var resumes: seq<Resume>
    var nextFounder: nat
    var nextCompany: nat
    var nextMessage: nat
    var nextResume: nat

    /** Ids increase along each table and stay below the table's counter,
        profile URLs are unique, and at most one resume is active. */
    predicate Valid()
      reads this
    {
      && FoundersOk(founders, nextFounder)
      && CompaniesOk(companies, nextCompany)
      && MessagesOk(messages, nextMessage)
      && ResumesOk(resumes, nextResume)
    }

    /** A freshly initialised database: every table empty. */
    constructor ()
      ensures Valid()
      ensures founders == [] && companies == [] && messages == [] && resumes == []
    {
      founders, companies, messages, resumes := [], [], [], [];
      nextFounder, nextCompany, nextMessage, nextResume := 1, 1, 1, 1;
    }

    /** `save_founder_data`: an empty or non-dict profile gives None; the
        summary is normalised (which may raise); binding the profile fields
        in order, a list or dict gives None and an integer beyond 64 bits
        raises; otherwise `INSERT OR REPLACE` removes the row
        with the same URL and adds a new row under a fresh id, which is
        returned. */
    method SaveFounderData(founderData: Json, profileUrl: string) returns (r: Result<Option<nat>>)
      requires Valid()
      modifies this`founders, this`nextFounder
      ensures Valid()
      ensures !Truthy(founderData) || !founderData.JObj? ==> r == Ok(None)
      ensures r != Ok(Some(old(nextFounder))) ==> founders == old(founders) && nextFounder == old(nextFounder)
      ensures founderData.JObj? && Truthy(founderData) ==>
        var summary := NormalizeSummary(Get(founderData, "summary", JStr("")));
        var name := Get(founderData, "full_name", JStr("Unknown"));
        var headline := Get(founderData, "headline", JStr(""));
        var location := Get(founderData, "location", JStr(""));
        var binding := BindRow([name, headline, location]);
        && (r.Raised? <==> summary.Raised? || (summary.Ok? && binding == Overflow))
        && (r == Ok(None) <==> summary.Ok? && binding == Refused)
        && (r.Ok? && r.value.Some? ==>
              r.value.value == old(nextFounder) && nextFounder == old(nextFounder) + 1 &&
              founders == Filter(old(founders), (f: Founder) => f.url != profileUrl) +
                          [Founder(r.value.value, profileUrl, name, headline, summary.value, location)])
    {
      if !Truthy(founderData) || !founderData.JObj? {
        return Ok(None);
      }
      var summary := NormalizeSummary(Get(founderData, "summary", JStr("")));
      if summary.Raised? {
        return Raised;
      }
      var name := Get(founderData, "full_name", JStr("Unknown"));
      var headline := Get(founderData, "headline", JStr(""));
      var location := Get(founderData, "location", JStr(""));
      match BindRow([name, headline, location]) {
        case Refused => return Ok(None);
        case Overflow => return Raised;
        case Bound =>
      }
      var row := Founder(nextFounder, profileUrl, name, headline, summary.value, location);
      var kept := Filter(founders, (f: Founder) => f.url != profileUrl);
      FilterFoundersOk(founders, nextFounder, (f: Founder) => f.url != profileUrl);
      FilterSound(founders, (f: Founder) => f.url != profileUrl);
      PairwiseAppend(kept, row, FounderOrder);
      founders := kept + [row];
      nextFounder := nextFounder + 1;
      r := Ok(Some(row.id));
    }

    /** `save_company_data`: a falsy founder id gives None and changes
        nothing; the description is normalised (which may raise); a founder
        id beyond 64 bits raises at the SELECT; binding the fields in order,
        a list or dict gives None and an integer beyond 64 bits raises. If the founder already has company
        rows they are all updated and the first one's id is returned,
        otherwise one row is inserted under a fresh id. */
    method SaveCompanyData(founderId: Option<int>, companyData: Json) returns (r: Result<Option<nat>>)
      requires Valid()
      modifies this`companies, this`nextCompany
      ensures Valid()
      ensures !Present(founderId) ==> r == Ok(None)
      ensures !(r.Ok? && r.value.Some?) ==> companies == old(companies) && nextCompany == old(nextCompany)
      ensures Present(founderId) && !companyData.JObj? ==> r.Raised?
      ensures Present(founderId) && companyData.JObj? ==>
        var f := founderId.value;
        var description := NormalizeDescription(Get(companyData, "description", JStr("")));
        var name := Get(companyData, "name", JStr(""));
        var title := Get(companyData, "title", JStr(""));
        var website := Get(companyData, "website", JStr(""));
        var idBinding := BindParam(JNum(f));
        var binding := BindRow([name, title, website]);
        && (r.Raised? <==> description.Raised? || idBinding == Overflow ||
                           (description.Ok? && binding == Overflow))
        && (r == Ok(None) <==> description.Ok? && idBinding == Bound && binding == Refused)
        && (r.Ok? && r.value.Some? ==>
              match FirstCompanyOf(old(companies), f)
              case Some(i) =>
                r.value.value == old(companies)[i].id && nextCompany == old(nextCompany) &&
                |companies| == |old(companies)| &&
                forall j :: 0 <= j < |companies| ==>
                  companies[j] == if old(companies)[j].founderId == f
                                  then old(companies)[j].(name := name, title := title,
                                                          description := description.value, website := website)
                                  else old(companies)[j]
              case None =>
                r.value.value == old(nextCompany) && nextCompany == old(nextCompany) + 1 &&
                companies == old(companies) + [Company(r.value.value, f, name, title, description.value, website)])
    {
      if !Present(founderId) {
        return Ok(None);
      }
      if !companyData.JObj? {
        return Raised;
      }
      var f := founderId.value;
      var description := NormalizeDescription(Get(companyData, "description", JStr("")));
      if description.Raised? {
        return Raised;
      }
      // The SELECT binds the founder id first.
      if BindParam(JNum(f)) == Overflow {
        return Raised;
      }
      var existing := FirstCompanyOf(companies, f);
      var name := Get(companyData, "name", JStr(""));
      var title := Get(companyData, "title", JStr(""));
      var website := Get(companyData, "website", JStr(""));
      match BindRow([name, title, website]) {
        case Refused => return Ok(None);
        case Overflow => return Raised;
        case Bound =>
      }
      if existing.Some? {
        var id := companies[existing.value].id;
        companies := Update(companies, (c: Company) =>
          if c.founderId == f then c.(name := name, title := title, description := description.value, website := website)
          else c);
        r := Ok(Some(id));
      } else {
        var row := Company(nextCompany, f, name, title, description.value, website);
        PairwiseAppend(companies, row, CompanyOrder);
        companies := companies + [row];
        nextCompany := nextCompany + 1;
        r := Ok(Some(row.id));
      }
    }

    /** `save_message`: a falsy founder id gives None; otherwise a new unsent
        message is added under a fresh id, which is returned. */
    method SaveMessage(founderId: Option<int>, text: string, kind: string) returns (r: Option<nat>)
      requires Valid()
      modifies this`messages, this`nextMessage
      ensures Valid()
      ensures !Present(founderId) ==> r.None? && messages == old(messages) && nextMessage == old(nextMessage)
      ensures Present(founderId) ==>
        r == Some(old(nextMessage)) && nextMessage == old(nextMessage) + 1 &&
        messages == old(messages) + [Message(r.value, founderId.value, text, kind, false)]
    {
      if !Present(founderId) {
        return None;
      }
      var row := Message(nextMessage, founderId.value, text, kind, false);
      PairwiseAppend(messages, row, MessageOrder);
      messages := messages + [row];
      nextMessage := nextMessage + 1;
      r := Some(row.id);
    }

    /** `mark_message_as_sent`: true exactly when a message has that id; that
        message is marked sent and nothing else changes. */
    method MarkMessageAsSent(messageId: int) returns (ok: bool)
      requires Valid()
      modifies this`messages
      ensures Valid()
      ensures ok <==> exists i :: 0 <= i < |old(messages)| && old(messages)[i].id == messageId
      ensures |messages| == |old(messages)|
      ensures forall i :: 0 <= i < |messages| ==>
        messages[i] == if old(messages)[i].id == messageId then old(messages)[i].(sent := true) else old(messages)[i]
    {
      ok := exists i :: 0 <= i < |messages| && messages[i].id == messageId;
      messages := Update(messages, (m: Message) => if m.id == messageId then m.(sent := true) else m);
    }

    /** `delete_profile`: an unknown message id gives false and deletes
        nothing; otherwise every message, company row and founder row of the
        message's founder is deleted. */
    method DeleteProfile(messageId: int) returns (ok: bool)
      requires Valid()
      modifies this`messages, this`companies, this`founders
      ensures Valid()
      ensures ok <==> exists i :: 0 <= i < |old(messages)| && old(messages)[i].id == messageId
      ensures !ok ==> messages == old(messages) && companies == old(companies) && founders == old(founders)
      ensures ok ==> exists i :: (0 <= i < |old(messages)| && old(messages)[i].id == messageId &&
                                  RemovedFounder(old(messages), old(companies), old(founders), messages, companies,
                                                 founders, old(messages)[i].founderId))
    {
      var found := FindMessage(messageId);
      if found.None? {
        return false;
      }
      var f := messages[found.value].founderId;
      var keptMessages := Filter(messages, OtherMessage(f));
      var keptCompanies := Filter(companies, OtherCompany(f));
      var keptFounders := Filter(founders, OtherFounder(f));
      FilterMessagesOk(messages, nextMessage, OtherMessage(f));
      FilterCompaniesOk(companies, nextCompany, OtherCompany(f));
      FilterFoundersOk(founders, nextFounder, OtherFounder(f));
      assert RemovedFounder(messages, companies, founders, keptMessages, keptCompanies, keptFounders,
                            messages[found.value].founderId);
      messages, companies, founders := keptMessages, keptCompanies, keptFounders;
      ok := true;
    }

    /** `SELECT founder_id FROM messages WHERE id = ?`: the index of the
        message with that id. */
    method FindMessage(messageId: int) returns (r: Option<nat>)
      ensures r.Some? ==> r.value < |messages| && messages[r.value].id == messageId
      ensures r.None? ==> forall i :: 0 <= i < |messages| ==> messages[i].id != messageId
    {
      r := None;
      var i := 0;
      while i < |messages|
        invariant 0 <= i <= |messages|
        invariant forall j :: 0 <= j < i ==> messages[j].id != messageId
      {
        if messages[i].id == messageId {
          return Some(i);
        }
        i := i + 1;
      }
    }

    /** `save_resume_data`: falsy data gives None; otherwise every active
        resume is deactivated and the new one is added, active, under a
        fresh id, which is returned. */
    method SaveResumeData(resumeData: Json, fileName: string) returns (r: Option<nat>)
      requires Valid()
      modifies this`resumes, this`nextResume
      ensures Valid()
      ensures !Truthy(resumeData) ==> r.None? && resumes == old(resumes) && nextResume == old(nextResume)
      ensures Truthy(resumeData) ==>
        r == Some(old(nextResume)) && nextResume == old(nextResume) + 1 &&
        resumes == Update(old(resumes), (x: Resume) => x.(active := false)) +
                   [Resume(r.value, resumeData, fileName, true)]
      ensures Truthy(resumeData) ==> ActiveResumeData() == Some(resumeData)
    {
      if !Truthy(resumeData) {
        return None;
      }
      var row := Resume(nextResume, resumeData, fileName, true);
      var inactive := Update(resumes, (x: Resume) => x.(active := false));
      assert Pairwise(inactive, ResumeOrder) by {
        assert forall i :: 0 <= i < |resumes| ==> inactive[i].id == resumes[i].id;
      }
      PairwiseAppend(inactive, row, ResumeOrder);
      resumes := inactive + [row];
      nextResume := nextResume + 1;
      r := Some(row.id);
    }

    /** `get_active_resume_data`: the content of the newest active resume,
        or None when no resume is active. */
    function ActiveResumeData(): (r: Option<Json>)
      reads this
      ensures r.Some? <==> exists i :: 0 <= i < |resumes| && resumes[i].active
      ensures Valid() && r.Some? ==>
        exists i :: 0 <= i < |resumes| && resumes[i].active && resumes[i].content == r.value &&
                    forall j :: 0 <= j < |resumes| && j != i ==> !resumes[j].active
    {
      NewestActive(resumes)
    }
  }
}
