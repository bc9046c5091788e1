/** The deterministic parts of `MessageGenerator` in `message_generator.py`:
    the length guard applied to every generated message, the defaulting of
    the recipient's name and company, and the choice between the model's
    reply and the fixed fallback message. Each reply of the language model
    is a parameter: `Some(text)` for a usable reply, `None` for a reply
    without text or a call that raised. */
module MessageGenerator {
  import opened Wrappers
  import opened Text
  import opened PyJson

  const Ellipsis := "..."
  const ConnectionLimit := 300
  const InquiryLimit := 2500
  const NoName := "there"
  const NoCompany := "their company"
  const NoCompanyFallback := "your company"
  const TechPlaceholder := "[Your relevant skills and experience area]"

  /** `_shorten_message`: a message within `target` characters is returned
      as it is. A longer one is handed to the model for shortening; the
      stripped reply is used when it fits, else cut to `target - 3`
      characters plus "..."; without a reply the original message is cut the
      same way. */
  function ShortenMessage(message: string, target: int, reply: Option<string>): (r: string)
    ensures |message| <= target ==> r == message
    ensures 3 <= target ==> |r| <= target
    ensures 3 <= target && |message| > target ==>
      var source := if reply.Some? then Strip(reply.value) else message;
      if |source| <= target && reply.Some? then r == source
      else |r| == target && EndsWith(r, Ellipsis) && StartsWith(source, r[..target - 3])
  {
    if |message| <= target then message
    else match reply
      case Some(text) =>
        var shortened := Strip(text);
        if |shortened| > target then PyPrefix(shortened, target - 3) + Ellipsis
        else shortened
      case None => PyPrefix(message, target - 3) + Ellipsis
  }

  /** The recipient's first name: the first whitespace-separated word of a
      truthy `full_name`, "there" for a falsy or missing one. A name made of
      whitespace only, or a truthy value that is not a string, raises. */
  function RecipientName(founder: Json): (r: Result<string>)
    requires founder.JObj?
    ensures !Truthy(Get(founder, "full_name", JNull)) ==> r == Ok(NoName)
    ensures Truthy(Get(founder, "full_name", JNull)) ==>
      var name := Get(founder, "full_name", JNull);
      (r.Ok? <==> name.JStr? && !AllSpace(name.s)) &&
      (r.Ok? ==> r.value != [] && forall i :: 0 <= i < |r.value| ==> !IsSpace(r.value[i]))
    ensures Truthy(Get(founder, "full_name", JNull)) && r.Ok? ==>
      var name := Get(founder, "full_name", JNull);
      name.JStr? && FirstWord(name.s) == Some(r.value)
  {
    var name := Get(founder, "full_name", JNull);
    if !Truthy(name) then Ok(NoName)
    else if !name.JStr? then Raised
    else match FirstWord(name.s)
      case None => Raised
      case Some(w) => Ok(w)
  }

  /** `FirstWord` picks the word after any leading whitespace, up to the next
      whitespace character. */
  lemma FirstWordOf(lead: string, word: string, rest: string)
    requires AllSpace(lead)
    requires word != [] && forall i :: 0 <= i < |word| ==> !IsSpace(word[i])
    requires rest == [] || IsSpace(rest[0])
    ensures FirstWord(lead + word + rest) == Some(word)
  {
    assert lead + word + rest == lead + (word + rest);
    LStripSpacesThen(lead, word + rest);
    assert LStrip(word + rest) == word + rest by {
      assert (word + rest)[0] == word[0];
    }
    TakeWordOf(word, rest);
  }

  lemma {:induction false} TakeWordOf(word: string, rest: string)
    requires forall i :: 0 <= i < |word| ==> !IsSpace(word[i])
    requires rest == [] || IsSpace(rest[0])
    ensures TakeWord(word + rest) == word
    decreases |word|
  {
    if word != [] {
      assert (word + rest)[1..] == word[1..] + rest;
      TakeWordOf(word[1..], rest);
    }
  }

  /** `founder_data.get('primary_company', {}).get('name', 'their company')`:
      raises when the primary company is present but not a dict. */
  function CompanyName(founder: Json): (r: Result<Json>)
    requires founder.JObj?
    ensures var pc := Get(founder, "primary_company", JObj([]));
      && (r.Raised? <==> !pc.JObj?)
      && (pc.JObj? && !HasKey(pc, "name") ==> r == Ok(JStr(NoCompany)))
      && (pc.JObj? && HasKey(pc, "name") ==> r == Ok(Lookup(pc.fields, "name").value))
  {
    var pc := Get(founder, "primary_company", JObj([]));
    if !pc.JObj? then Raised else Ok(Get(pc, "name", JStr(NoCompany)))
  }

  /** The fixed connection request used when generation fails; it greets
      the raw `full_name` value, not its first word. */
  function ConnectionFallback(founder: Json): string
    requires founder.JObj?
  {
    "Hi " + Str(Get(founder, "full_name", JStr(NoName))) + ", saw your profile and work. Would be great to connect."
  }

  /** `generate_connection_request`: with a usable name, company and reply,
      the stripped reply passed through the 300-character guard; on any
      failure inside the `try`, the fixed fallback. A founder record that is
      not a dict raises out of the handler as well. */
  function GenerateConnectionRequest(founder: Json, reply: Option<string>, shortenReply: Option<string>): (r: Result<string>)
    ensures r.Raised? <==> !founder.JObj?
    ensures founder.JObj? && (RecipientName(founder).Raised? || CompanyName(founder).Raised? || reply.None?) ==>
      r == Ok(ConnectionFallback(founder))
    ensures founder.JObj? && RecipientName(founder).Ok? && CompanyName(founder).Ok? && reply.Some? ==>
      r == Ok(ShortenMessage(Strip(reply.value), ConnectionLimit, shortenReply))
    ensures r.Ok? ==> |r.value| <= ConnectionLimit || r.value == ConnectionFallback(founder)
  {
    if !founder.JObj? then Raised
    else if RecipientName(founder).Raised? || CompanyName(founder).Raised? || reply.None? then
      Ok(ConnectionFallback(founder))
    else Ok(ShortenMessage(Strip(reply.value), ConnectionLimit, shortenReply))
  }

  /** `user_tech_stack` with an empty stack replaced by the placeholder. */
  function TechStack(userTechStack: string): (r: string)
    ensures r != []
    ensures userTechStack == [] ==> r == TechPlaceholder
    ensures userTechStack != [] ==> r == userTechStack
  {
    if userTechStack == [] then TechPlaceholder else userTechStack
  }

  /** The fixed job inquiry used when generation fails. */
  function InquiryFallback(founder: Json, company: Json, techStack: string): string
    requires founder.JObj?
  {
    "Hi " + Str(Get(founder, "full_name", JStr(NoName))) +
    ", following up on our connection. I'm impressed with " +
    (if Truthy(company) then Str(company) else NoCompanyFallback) +
    "'s work. With my background in " + techStack +
    ", I'm interested in exploring potential opportunities. Could you advise on the best way to learn more? Thanks."
  }

  /** `generate_job_inquiry` as written: the handler reads `company_name`,
      which is not yet bound when the name or the company lookup raised, so
      those failures escape as UnboundLocalError instead of giving the
      fallback. */
  function GenerateJobInquiryAsWritten(founder: Json, userTechStack: string, reply: Option<string>,
                                       shortenReply: Option<string>): (r: Result<string>)
    ensures r.Raised? <==> !founder.JObj? || RecipientName(founder).Raised? || CompanyName(founder).Raised?
    ensures r.Ok? && reply.None? ==>
      r.value == InquiryFallback(founder, CompanyName(founder).value, TechStack(userTechStack))
    ensures r.Ok? && reply.Some? ==> r.value == ShortenMessage(Strip(reply.value), InquiryLimit, shortenReply)
    ensures r.Ok? ==> |r.value| <= InquiryLimit ||
                      r.value == InquiryFallback(founder, CompanyName(founder).value, TechStack(userTechStack))
  {
    if !founder.JObj? then Raised
    else match RecipientName(founder)
      case Raised => Raised
      case Ok(_) =>
        match CompanyName(founder)
        case Raised => Raised
        case Ok(company) =>
          match reply
          case None => Ok(InquiryFallback(founder, company, TechStack(userTechStack)))
          case Some(text) => Ok(ShortenMessage(Strip(text), InquiryLimit, shortenReply))
  }

  lemma BlankNameRaises()
    ensures RecipientName(JObj([("full_name", JStr(" "))])).Raised?
  {
    assert Get(JObj([("full_name", JStr(" "))]), "full_name", JNull) == JStr(" ");
    assert AllSpace(" ");
  }

  /** A founder record whose `full_name` is only whitespace makes the
      as-written job inquiry raise, while the connection request for the same
      record falls back to its fixed message. */
  lemma BlankNameInquiryRaises(reply: Option<string>, shortenReply: Option<string>)
    ensures var founder := JObj([("full_name", JStr(" "))]);
      && GenerateJobInquiryAsWritten(founder, "", reply, shortenReply).Raised?
      && GenerateConnectionRequest(founder, reply, shortenReply) == Ok(ConnectionFallback(founder))
  {
    var founder := JObj([("full_name", JStr(" "))]);
    BlankNameRaises();
  }

  /** `generate_job_inquiry` with `company_name = None` bound before the
      `try`: any failure inside it gives the fallback. A failure of the name
      or company line leaves the company unread, so the fallback names "your
      company" and the tech stack as given (the placeholder is not yet
      substituted). Only a founder record that is not a dict raises (from the
      handler itself). */
  function GenerateJobInquiry(founder: Json, userTechStack: string, reply: Option<string>,
                              shortenReply: Option<string>): (r: Result<string>)
    ensures r.Raised? <==> !founder.JObj?
    ensures founder.JObj? && RecipientName(founder).Ok? && CompanyName(founder).Ok? ==>
      r == GenerateJobInquiryAsWritten(founder, userTechStack, reply, shortenReply)
    ensures founder.JObj? && (RecipientName(founder).Raised? || CompanyName(founder).Raised?) ==>
      r == Ok(InquiryFallback(founder, JNull, userTechStack))
    ensures r.Ok? ==>
      || |r.value| <= InquiryLimit
      || r.value == InquiryFallback(founder, JNull, userTechStack)
      || (CompanyName(founder).Ok? &&
          r.value == InquiryFallback(founder, CompanyName(founder).value, TechStack(userTechStack)))
  {
    if !founder.JObj? then Raised
    else if RecipientName(founder).Raised? || CompanyName(founder).Raised? then
      Ok(InquiryFallback(founder, JNull, userTechStack))
    else GenerateJobInquiryAsWritten(founder, userTechStack, reply, shortenReply)
  }

  /** The corrected job inquiry answers a blank name with the fallback
      message naming "your company". */
  lemma BlankNameInquiryFallsBack(techStack: string, reply: Option<string>, shortenReply: Option<string>)
    ensures var founder := JObj([("full_name", JStr(" "))]);
      GenerateJobInquiry(founder, techStack, reply, shortenReply) ==
        Ok(InquiryFallback(founder, JNull, techStack))
  {
    BlankNameRaises();
  }
}
