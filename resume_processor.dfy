/** The deterministic parts of `ResumeProcessor` in `resume_processor.py`:
    cleaning the vision model's reply before parsing, adding the default
    resume sections after parsing, and the one-line-per-section summary of
    a parsed resume that is handed to the job-inquiry generator. */
module ResumeProcessor {
  import opened Wrappers
  import opened Text
  import opened PyJson

  const JsonFence := "```json"
  const Fence := "```"

  /** `t.split("```json")[1]` when `t` contains "```json": the piece after
      the first "```json", up to a second one. */
  function AfterJsonFence(t: string): (r: string)
    ensures |r| <= |t|
  {
    if Contains(t, JsonFence) then SecondPiece(t, JsonFence) else t
  }

  /** `t.split("```")[0]` when `t` contains "```": the piece before it. */
  function BeforeFence(t: string): (r: string)
    ensures StartsWith(t, r)
  {
    if Contains(t, Fence) then BeforeFirst(t, Fence) else t
  }

  /** The reply text as `json.loads` receives it: stripped; then the piece
      after a "```json"; then the piece before a "```"; stripped again. */
  function StripResumeFences(reply: string): (r: string)
    ensures Stripped(r)
    ensures |r| <= |reply|
  {
    Strip(BeforeFence(AfterJsonFence(Strip(reply))))
  }

  /** The first occurrence of `p` in `s` is at `k`. */
  lemma FindAt(s: string, p: string, k: nat)
    requires OccursAt(s, p, k)
    requires forall j :: 0 <= j < k ==> !OccursAt(s, p, j)
    ensures Find(s, p) == Some(k)
  {
  }

  /** In `payload + "```"`, where the payload holds no "```" and does not
      end with a backtick, the only "```" is the closing one, and there is
      no "```json". */
  lemma ClosingFenceOnly(payload: string)
    requires !Contains(payload, Fence)
    requires payload == [] || payload[|payload| - 1] != '`'
    ensures Find(payload + Fence, Fence) == Some(|payload|)
    ensures !Contains(payload + Fence, JsonFence)
  {
    var t := payload + Fence;
    forall j | 0 <= j < |payload| ensures !OccursAt(t, Fence, j) {
      if j + 3 <= |payload| {
        assert t[..|payload|] == payload;
        assert t[j..j + 3] == t[..|payload|][j..j + 3];
        assert !OccursAt(payload, Fence, j);
      } else {
        assert t[|payload| - 1] == payload[|payload| - 1];
        assert t[j..j + 3][|payload| - 1 - j] == t[|payload| - 1];
      }
    }
    assert OccursAt(t, Fence, |payload|);
    FindAt(t, Fence, |payload|);
    forall j | 0 <= j ensures !OccursAt(t, JsonFence, j) {
      if OccursAt(t, JsonFence, j) {
        assert t[j..j + 3] == t[j..j + 7][..3];
        assert OccursAt(t, Fence, j);
      }
    }
  }

  lemma CutResumeFences(payload: string)
    requires !Contains(payload, Fence)
    requires payload == [] || payload[|payload| - 1] != '`'
    ensures BeforeFence(AfterJsonFence(JsonFence + payload + Fence)) == payload
  {
    var f := JsonFence + payload + Fence;
    assert OccursAt(f, JsonFence, 0);
    FindAt(f, JsonFence, 0);
    assert f[|JsonFence|..] == payload + Fence;
    ClosingFenceOnly(payload);
    assert AfterJsonFence(f) == payload + Fence;
    assert (payload + Fence)[..|payload|] == payload;
  }

  /** A payload wrapped in a ```json fence, with whitespace around the
      fence, comes back as the stripped payload, provided the payload holds
      no "```" and does not end with a backtick. */
  lemma FencedResumeReply(w1: string, payload: string, w2: string)
    requires AllSpace(w1) && AllSpace(w2)
    requires !Contains(payload, Fence)
    requires payload == [] || payload[|payload| - 1] != '`'
    ensures StripResumeFences(w1 + JsonFence + payload + Fence + w2) == Strip(payload)
  {
    var f := JsonFence + payload + Fence;
    assert Stripped(f) by {
      assert f[0] == '`' && f[|f| - 1] == '`';
    }
    assert w1 + JsonFence + payload + Fence + w2 == w1 + f + w2;
    StripPadded(w1, f, w2);
    CutResumeFences(payload);
  }

  /** A reply without any fence is only stripped. */
  lemma BareResumeReply(reply: string)
    requires !Contains(Strip(reply), Fence)
    ensures StripResumeFences(reply) == Strip(reply)
  {
    NoFenceKept(Strip(reply));
  }

  lemma NoFenceKept(t: string)
    requires Stripped(t) && !Contains(t, Fence)
    ensures Strip(BeforeFence(AfterJsonFence(t))) == t
  {
    if Contains(t, JsonFence) {
      var k := Find(t, JsonFence).value;
      assert OccursAt(t, JsonFence, k);
      assert t[k..k + 3] == t[k..k + 7][..3];
      assert OccursAt(t, Fence, k);
      ContainsIff(t, Fence);
      assert false;
    }
    assert AfterJsonFence(t) == t;
    StripStripped(t);
  }

  /** The resume sections that get a default, in the order they are set. */
  const ResumeDefaults: seq<(string, Json)> :=
    [("basic_info", JObj([])), ("skills", JObj([])), ("experience", JArr([])), ("education", JArr([]))]

  /** The post-parse step of `_extract_data_from_images`: a parsed value
      that is not a dict gives None; otherwise each missing section gets its
      default through `setdefault`. Every key present keeps its value, every
      missing section gets its default, nothing else is added, and the
      existing entries keep their order. */
  method ApplyResumeDefaults(parsed: Json) returns (r: Option<Json>)
    ensures r.Some? <==> parsed.JObj?
    ensures r.Some? ==> r.value.JObj?
    ensures r.Some? ==> forall k :: Lookup(r.value.fields, k) ==
                                     (if Lookup(parsed.fields, k).Some? then Lookup(parsed.fields, k) else Lookup(ResumeDefaults, k))
    ensures r.Some? ==> parsed.fields <= r.value.fields
  {
    if !parsed.JObj? {
      return None;
    }
    var d := SetDefaults(parsed, ResumeDefaults);
    forall k ensures Lookup(d.fields, k) ==
      (if Lookup(parsed.fields, k).Some? then Lookup(parsed.fields, k) else Lookup(ResumeDefaults, k))
    {
      SetDefaultsLookup(parsed, ResumeDefaults, k);
    }
    r := Some(d);
  }

  const SkillsLabel := "Technical skills: "
  const RoleLabel := "Recent role: "
  const EducationLabel := "Education: "

  /** `xs[0] if xs else {}` for the experience and education lists, together
      with the `.get` later made on a truthy result: a falsy value gives an
      empty dict, a non-empty list its first entry; indexing any other value,
      or a first entry that is truthy but not a dict, raises. */
  function FirstEntry(v: Json): (r: Result<Json>)
    ensures !Truthy(v) ==> r == Ok(JObj([]))
    ensures r.Ok? ==> r.value.JObj? || !Truthy(r.value)
    ensures Truthy(v) ==> (r.Ok? <==> v.JArr? && (v.items[0].JObj? || !Truthy(v.items[0])))
    ensures Truthy(v) && r.Ok? ==> v.JArr? && r == Ok(v.items[0])
  {
    if !Truthy(v) then Ok(JObj([]))
    else if v.JArr? && (v.items[0].JObj? || !Truthy(v.items[0])) then Ok(v.items[0])
    else Raised
  }

  /** The skills line: a non-empty list of skills joined with ", ", or a
      non-empty string used verbatim; no line for anything else. The lookup
      raises when `skills` is not a dict, and the join on a list item that is
      not a string. */
  function SkillsLine(resume: Json): (r: Result<Option<string>>)
    requires resume.JObj?
    ensures var skills := Get(resume, "skills", JObj([]));
      && (!skills.JObj? ==> r.Raised?)
      && (skills.JObj? ==>
            var tech := Get(skills, "technical_skills", JArr([]));
            && (r.Raised? <==> Truthy(tech) && tech.JArr? && !AllStrings(tech.items))
            && (r == Ok(None) <==> !Truthy(tech) || !(tech.JArr? || tech.JStr?))
            && (Truthy(tech) && tech.JStr? ==> r == Ok(Some(SkillsLabel + tech.s)))
            && (Truthy(tech) && tech.JArr? && AllStrings(tech.items) ==>
                  r == Ok(Some(SkillsLabel + Join(", ", Strings(tech.items))))))
  {
    var skills := Get(resume, "skills", JObj([]));
    if !skills.JObj? then Raised
    else
      var tech := Get(skills, "technical_skills", JArr([]));
      if !Truthy(tech) then Ok(None)
      else match tech
        case JArr(items) =>
          (match JoinStrs(", ", items)
           case Ok(s) => Ok(Some(SkillsLabel + s))
           case Raised => Raised)
        case JStr(s) => Ok(Some(SkillsLabel + s))
        case _ => Ok(None)
  }

  /** The role line of the most recent experience: present exactly when the
      experience has both a truthy company and a truthy title. */
  function RoleLine(exp: Json): (r: Option<string>)
    requires exp.JObj? || !Truthy(exp)
    ensures r.Some? <==> Truthy(exp) && Truthy(Get(exp, "company", JStr(""))) && Truthy(Get(exp, "title", JStr("")))
    ensures r.Some? ==> r.value == RoleLabel + Str(Get(exp, "title", JStr(""))) + " at " + Str(Get(exp, "company", JStr("")))
  {
    if !Truthy(exp) then None
    else
      var company := Get(exp, "company", JStr(""));
      var title := Get(exp, "title", JStr(""));
      if Truthy(company) && Truthy(title) then Some(RoleLabel + Str(title) + " at " + Str(company)) else None
  }

  /** The education line of the most recent education: present exactly when
      it has a truthy degree and a truthy institution; " in {field}" is added
      only for a truthy field. */
  function EducationLine(edu: Json): (r: Option<string>)
    requires edu.JObj? || !Truthy(edu)
    ensures r.Some? <==> Truthy(edu) && Truthy(Get(edu, "degree", JStr(""))) && Truthy(Get(edu, "institution", JStr("")))
    ensures r.Some? ==>
      var degree := Str(Get(edu, "degree", JStr("")));
      var institution := Str(Get(edu, "institution", JStr("")));
      var field := Get(edu, "field", JStr(""));
      && (Truthy(field) ==> r.value == EducationLabel + degree + " in " + Str(field) + " from " + institution)
      && (!Truthy(field) ==> r.value == EducationLabel + degree + " from " + institution)
  {
    if !Truthy(edu) then None
    else
      var degree := Get(edu, "degree", JStr(""));
      var field := Get(edu, "field", JStr(""));
      var institution := Get(edu, "institution", JStr(""));
      if Truthy(degree) && Truthy(institution) then
        var line := EducationLabel + Str(degree);
        var line := if Truthy(field) then line + " in " + Str(field) else line;
        Some(line + " from " + Str(institution))
      else None
  }

  function Lines(o: Option<string>): seq<string> {
    if o.Some? then [o.value] else []
  }

  /** The summary lines of a dict resume, in the order skills, recent role,
      education; any exception on the way makes the whole summary fail. */
  function SummaryLines(resume: Json): (r: Result<seq<string>>)
    requires resume.JObj?
    ensures r.Ok? ==> |r.value| <= 3
  {
    var skills := SkillsLine(resume);
    var exp := FirstEntry(Get(resume, "experience", JArr([])));
    var edu := FirstEntry(Get(resume, "education", JArr([])));
    if skills.Raised? || exp.Raised? || edu.Raised? then Raised
    else Ok(Lines(skills.value) + Lines(RoleLine(exp.value)) + Lines(EducationLine(edu.value)))
  }

  /** `get_tech_stack_summary` as a value: "" for a falsy resume and when
      anything raises, else the summary lines joined by newlines. */
  function TechStackSummaryOf(resume: Json): string {
    if !Truthy(resume) || !resume.JObj? then ""
    else match SummaryLines(resume)
      case Raised => ""
      case Ok(lines) => Join("\n", lines)
  }

  /** `get_tech_stack_summary`: collect the lines one `append` at a time and
      join them. */
  method GetTechStackSummary(resume: Json) returns (summary: string)
    ensures summary == TechStackSummaryOf(resume)
    ensures !Truthy(resume) ==> summary == ""
  {
    if !Truthy(resume) {
      return "";
    }
    if !resume.JObj? {
      return "";
    }
    var skills := SkillsLine(resume);
    var exp := FirstEntry(Get(resume, "experience", JArr([])));
    var edu := FirstEntry(Get(resume, "education", JArr([])));
    if skills.Raised? || exp.Raised? || edu.Raised? {
      return "";
    }
    var lines: seq<string> := [];
    if skills.value.Some? {
      lines := lines + [skills.value.value];
    }
    assert lines == Lines(skills.value);
    var role := RoleLine(exp.value);
    if role.Some? {
      lines := lines + [role.value];
    }
    assert lines == Lines(skills.value) + Lines(role);
    var education := EducationLine(edu.value);
    if education.Some? {
      lines := lines + [education.value];
    }
    assert lines == Lines(skills.value) + Lines(role) + Lines(education);
    assert SummaryLines(resume) == Ok(lines);
    summary := Join("\n", lines);
  }

  /** Which section a summary line belongs to, by its label. */
  function Section(line: string): nat {
    if StartsWith(line, SkillsLabel) then 0
    else if StartsWith(line, RoleLabel) then 1
    else 2
  }

  /** A line carrying a section's label belongs to that section (the three
      labels begin with different letters). */
  lemma LabelSection(line: string)
    ensures StartsWith(line, SkillsLabel) ==> Section(line) == 0
    ensures StartsWith(line, RoleLabel) ==> Section(line) == 1
    ensures StartsWith(line, EducationLabel) ==> Section(line) == 2
  {
    if StartsWith(line, RoleLabel) {
      assert line[0] == line[..|RoleLabel|][0] == 'R';
    }
    if StartsWith(line, EducationLabel) {
      assert line[0] == line[..|EducationLabel|][0] == 'E';
    }
  }

  lemma LabelPrefix(tag: string, rest: string)
    ensures StartsWith(tag + rest, tag)
  {
    assert (tag + rest)[..|tag|] == tag;
  }

  /** Every line of `Lines(o)` starts with `tag`, given that `o` does. */
  lemma LinesLabel(o: Option<string>, tag: string, sec: nat)
    requires o.Some? ==> StartsWith(o.value, tag)
    requires forall l :: StartsWith(l, tag) ==> Section(l) == sec
    ensures forall i :: 0 <= i < |Lines(o)| ==> StartsWith(Lines(o)[i], tag) && Section(Lines(o)[i]) == sec
  {
  }

  /** The summary lines come in the fixed order skills, recent role,
      education, each section at most once, and each line carries its
      section's tag. */
  lemma {:induction false} SummaryOrder(resume: Json)
    requires resume.JObj? && SummaryLines(resume).Ok?
    ensures var lines := SummaryLines(resume).value;
      && (forall i, j :: 0 <= i < j < |lines| ==> Section(lines[i]) < Section(lines[j]))
      && (forall i :: 0 <= i < |lines| ==>
            StartsWith(lines[i], SkillsLabel) || StartsWith(lines[i], RoleLabel) ||
            StartsWith(lines[i], EducationLabel))
  {
    var skills := SkillsLine(resume).value;
    var exp := FirstEntry(Get(resume, "experience", JArr([]))).value;
    var edu := FirstEntry(Get(resume, "education", JArr([]))).value;
    var role, education := RoleLine(exp), EducationLine(edu);
    assert SummaryLines(resume).value == Lines(skills) + Lines(role) + Lines(education);
    if skills.Some? {
      SkillsLabelPrefix(resume);
    }
    if role.Some? {
      RoleLabelPrefix(exp);
    }
    if education.Some? {
      EducationLabelPrefix(edu);
    }
    forall l ensures StartsWith(l, SkillsLabel) ==> Section(l) == 0 { LabelSection(l); }
    forall l ensures StartsWith(l, RoleLabel) ==> Section(l) == 1 { LabelSection(l); }
    forall l ensures StartsWith(l, EducationLabel) ==> Section(l) == 2 { LabelSection(l); }
    LinesLabel(skills, SkillsLabel, 0);
    LinesLabel(role, RoleLabel, 1);
    LinesLabel(education, EducationLabel, 2);
    SectionsInOrder(Lines(skills), Lines(role), Lines(education));
  }

  lemma SkillsLabelPrefix(resume: Json)
    requires resume.JObj? && SkillsLine(resume).Ok? && SkillsLine(resume).value.Some?
    ensures StartsWith(SkillsLine(resume).value.value, SkillsLabel)
  {
    var tech := Get(Get(resume, "skills", JObj([])), "technical_skills", JArr([]));
    if tech.JStr? {
      LabelPrefix(SkillsLabel, tech.s);
    } else {
      LabelPrefix(SkillsLabel, Join(", ", Strings(tech.items)));
    }
  }

  lemma RoleLabelPrefix(exp: Json)
    requires exp.JObj? || !Truthy(exp)
    requires RoleLine(exp).Some?
    ensures StartsWith(RoleLine(exp).value, RoleLabel)
  {
    var title := Str(Get(exp, "title", JStr("")));
    var company := Str(Get(exp, "company", JStr("")));
    PrefixKept(RoleLabel + title, RoleLabel, " at ");
    PrefixKept(RoleLabel + title + " at ", RoleLabel, company);
    LabelPrefix(RoleLabel, title);
  }

  lemma EducationLabelPrefix(edu: Json)
    requires edu.JObj? || !Truthy(edu)
    requires EducationLine(edu).Some?
    ensures StartsWith(EducationLine(edu).value, EducationLabel)
  {
    var degree := Str(Get(edu, "degree", JStr("")));
    var institution := Str(Get(edu, "institution", JStr("")));
    var field := Get(edu, "field", JStr(""));
    var head := EducationLabel + degree;
    LabelPrefix(EducationLabel, degree);
    if Truthy(field) {
      PrefixKept(head, EducationLabel, " in ");
      PrefixKept(head + " in ", EducationLabel, Str(field));
      PrefixKept(head + " in " + Str(field), EducationLabel, " from ");
      PrefixKept(head + " in " + Str(field) + " from ", EducationLabel, institution);
    } else {
      PrefixKept(head, EducationLabel, " from ");
      PrefixKept(head + " from ", EducationLabel, institution);
    }
  }

  /** Appending text keeps a prefix. */
  lemma PrefixKept(s: string, tag: string, rest: string)
    requires StartsWith(s, tag)
    ensures StartsWith(s + rest, tag)
  {
    assert (s + rest)[..|tag|] == s[..|tag|];
  }

  /** Three groups of at most one line each, from sections 0, 1 and 2, stay
      in section order when concatenated. */
  lemma SectionsInOrder(a: seq<string>, b: seq<string>, c: seq<string>)
    requires |a| <= 1 && |b| <= 1 && |c| <= 1
    requires forall i :: 0 <= i < |a| ==> Section(a[i]) == 0 && StartsWith(a[i], SkillsLabel)
    requires forall i :: 0 <= i < |b| ==> Section(b[i]) == 1 && StartsWith(b[i], RoleLabel)
    requires forall i :: 0 <= i < |c| ==> Section(c[i]) == 2 && StartsWith(c[i], EducationLabel)
    ensures forall i, j :: 0 <= i < j < |a + b + c| ==> Section((a + b + c)[i]) < Section((a + b + c)[j])
    ensures forall i :: 0 <= i < |a + b + c| ==>
      StartsWith((a + b + c)[i], SkillsLabel) || StartsWith((a + b + c)[i], RoleLabel) ||
      StartsWith((a + b + c)[i], EducationLabel)
  {
    var lines := a + b + c;
    forall i | 0 <= i < |lines|
      ensures (i < |a| ==> lines[i] == a[i]) &&
              (|a| <= i < |a| + |b| ==> lines[i] == b[i - |a|]) &&
              (|a| + |b| <= i ==> lines[i] == c[i - |a| - |b|])
    {
    }
  }
}
