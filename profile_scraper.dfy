/** The deterministic parts of `LinkedInScraper` in `main.py`: cleaning the
    vision model's reply before parsing, filling in the profile's default
    keys after parsing, and the termination rule of the page-scrolling loop. */
module ProfileScraper {
  import opened Wrappers
  import opened Text
  import opened PyJson

  const JsonFence := "```json"
  const Fence := "```"

  /** A leading "```json" (seven characters) and then a trailing "```" cut off. */
  function CutFences(t: string): (r: string)
    ensures |r| <= |t|
  {
    var a := if StartsWith(t, JsonFence) then t[|JsonFence|..] else t;
    if EndsWith(a, Fence) then a[..|a| - |Fence|] else a
  }

  /** The reply text as `json.loads` receives it: stripped, the fences cut
      off, and stripped again. */
  function StripProfileFences(reply: string): (r: string)
    ensures Stripped(r)
    ensures |r| <= |reply|
  {
    Strip(CutFences(Strip(reply)))
  }

  lemma CutJsonFence(payload: string)
    ensures CutFences(JsonFence + payload + Fence) == payload
  {
    var f := JsonFence + payload + Fence;
    assert f[..|JsonFence|] == JsonFence;
    assert f[|JsonFence|..] == payload + Fence;
    var a := payload + Fence;
    assert a[|a| - |Fence|..] == Fence;
    assert a[..|a| - |Fence|] == payload;
  }

  /** A payload wrapped in a ```json fence, with any whitespace around the
      fence, comes back as the stripped payload. */
  lemma FencedProfileReply(w1: string, payload: string, w2: string)
    requires AllSpace(w1) && AllSpace(w2)
    ensures StripProfileFences(w1 + JsonFence + payload + Fence + w2) == Strip(payload)
  {
    var f := JsonFence + payload + Fence;
    assert Stripped(f) by {
      assert f[0] == '`' && f[|f| - 1] == '`';
    }
    assert w1 + JsonFence + payload + Fence + w2 == w1 + f + w2;
    StripPadded(w1, f, w2);
    CutJsonFence(payload);
  }

  /** A reply that is already bare JSON (stripped, no fences) is passed on
      unchanged. */
  lemma BareProfileReply(reply: string)
    requires Stripped(reply)
    requires !StartsWith(reply, JsonFence) && !EndsWith(reply, Fence)
    ensures StripProfileFences(reply) == reply
  {
    StripStripped(reply);
  }

  /** The keys that get a default after parsing, with their defaults, in
      the order they are set. */
  const ProfileDefaults: seq<(string, Json)> := [NameDefault] + EmptyDefaults
  const NameDefault: (string, Json) := ("full_name", JStr("Unknown"))
  const EmptyDefaults: seq<(string, Json)> :=
    [("headline", JStr("")), ("location", JStr("")), ("summary", JStr("")),
     ("experiences", JArr([])), ("education", JArr([]))]

  /** The post-parse step of `_extract_data_from_screenshot`: a parsed value
      that is not a dict fails on `.get` and the caller sees None. Otherwise
      `full_name` is set to 'Unknown' when it is falsy, through `setdefault`,
      so a falsy name that is present stays; then the five other keys get
      their empty defaults. Every key present keeps its value, every missing
      default key gets its default, nothing else is added, and the existing
      entries keep their order. */
  method ApplyProfileDefaults(parsed: Json) returns (r: Option<Json>)
    ensures r.Some? <==> parsed.JObj?
    ensures r.Some? ==> r.value.JObj?
    ensures r.Some? ==> forall k :: Lookup(r.value.fields, k) ==
                                     (if Lookup(parsed.fields, k).Some? then Lookup(parsed.fields, k) else Lookup(ProfileDefaults, k))
    ensures r.Some? ==> parsed.fields <= r.value.fields
  {
    if !parsed.JObj? {
      return None;
    }
    var d := parsed;
    if !Truthy(Get(d, "full_name", JNull)) {
      d := SetDefault(d, "full_name", JStr("Unknown"));
    }
    assert forall k' :: Lookup(d.fields, k') ==
                        (if k' == NameDefault.0 && Lookup(parsed.fields, k').None? then Some(NameDefault.1)
                         else Lookup(parsed.fields, k'));
    var done := SetDefaults(d, EmptyDefaults);
    forall k ensures Lookup(done.fields, k) ==
      (if Lookup(parsed.fields, k).Some? then Lookup(parsed.fields, k) else Lookup(ProfileDefaults, k))
    {
      ProfileDefaultsLookup(parsed, d, k);
    }
    r := Some(done);
  }

  lemma ProfileDefaultsLookup(parsed: Json, d: Json, k: string)
    requires parsed.JObj? && d.JObj?
    requires forall k' :: Lookup(d.fields, k') ==
                          (if k' == NameDefault.0 && Lookup(parsed.fields, k').None? then Some(NameDefault.1)
                           else Lookup(parsed.fields, k'))
    ensures Lookup(SetDefaults(d, EmptyDefaults).fields, k) ==
      (if Lookup(parsed.fields, k).Some? then Lookup(parsed.fields, k) else Lookup(ProfileDefaults, k))
  {
    SetDefaultsLookup(d, EmptyDefaults, k);
    assert ProfileDefaults[0] == NameDefault && ProfileDefaults[1..] == EmptyDefaults;
    if k != NameDefault.0 {
      assert Lookup(ProfileDefaults, k) == Lookup(EmptyDefaults, k);
    }
  }

  /** What the page reports after one `scrollBy`: the vertical offset, the
      viewport height and the document height. */
  datatype ScrollObs = ScrollObs(offset: int, viewport: int, height: int)

  const MaxScrolls := 25

  /** The viewport has reached the end of the document. */
  predicate AtBottom(o: ScrollObs) {
    o.offset + o.viewport >= o.height
  }

  /** The document height read at step `k` (0 if the page could not be read). */
  function Height(page: nat -> Option<ScrollObs>, k: nat): int {
    if page(k).Some? then page(k).value.height else 0
  }

  /** The height the loop compares with at step `k`: the previous step's
      height, and 0 before the first step. */
  function PrevHeight(page: nat -> Option<ScrollObs>, k: nat): int {
    if k == 0 then 0 else Height(page, k - 1)
  }

  /** Step `k` read the page and found its height unchanged. */
  predicate NoChange(page: nat -> Option<ScrollObs>, k: nat) {
    page(k).Some? && Height(page, k) == PrevHeight(page, k)
  }

  /** The loop ends at step `k`: reading the page raised, the bottom was
      reached, or the height has been unchanged for three steps in a row. */
  predicate StopsAt(page: nat -> Option<ScrollObs>, k: nat) {
    page(k).None? || AtBottom(page(k).value) ||
    (k >= 2 && NoChange(page, k) && NoChange(page, k - 1) && NoChange(page, k - 2))
  }

  /** The number of unchanged heights in a row just before step `k`. */
  function Run(page: nat -> Option<ScrollObs>, k: nat): nat {
    if k == 0 || !NoChange(page, k - 1) then 0 else Run(page, k - 1) + 1
  }

  /** `_scroll_profile_page`: scroll by one increment at a time, at most 25
      times, and stop at the first step that ends the loop. `page(k)` is what
      the page reports after the `k`-th scroll, None when the page raised (the
      error is logged and the page is not scrolled back to the top). Returns
      the number of scrolls performed and whether the page was scrolled back. */
  method ScrollProfilePage(page: nat -> Option<ScrollObs>) returns (steps: nat, backToTop: bool)
    ensures 1 <= steps <= MaxScrolls
    ensures forall k :: 0 <= k < steps - 1 ==> !StopsAt(page, k)
    ensures steps < MaxScrolls ==> StopsAt(page, steps - 1)
    ensures backToTop <==> page(steps - 1).Some?
  {
    var scrollCount := 0;
    var noChangeCount := 0;
    var prevHeight := 0;
    steps := 0;
    while scrollCount < MaxScrolls
      invariant 0 <= scrollCount <= MaxScrolls
      invariant steps == scrollCount
      invariant forall k :: 0 <= k < scrollCount ==> !StopsAt(page, k)
      invariant prevHeight == PrevHeight(page, scrollCount)
      invariant noChangeCount == Run(page, scrollCount) && noChangeCount <= 2
      invariant scrollCount > 0 ==> page(scrollCount - 1).Some?
    {
      steps := steps + 1;
      var obs := page(scrollCount);
      if obs.None? {
        return steps, false;
      }
      if obs.value.offset + obs.value.viewport >= obs.value.height {
        return steps, true;
      }
      if obs.value.height == prevHeight {
        noChangeCount := noChangeCount + 1;
        if noChangeCount >= 3 {
          return steps, true;
        }
      } else {
        noChangeCount := 0;
      }
      prevHeight := obs.value.height;
      scrollCount := scrollCount + 1;
    }
    backToTop := true;
  }

  /** A page whose reports never change and never reach the bottom stops
      after three scrolls when its height is 0 (the first comparison is with
      0), and after four otherwise. */
  lemma {:induction false} StableHeightStops(page: nat -> Option<ScrollObs>, o: ScrollObs)
    requires forall k :: page(k) == Some(o)
    requires !AtBottom(o)
    ensures !StopsAt(page, 0) && !StopsAt(page, 1)
    ensures StopsAt(page, 2) <==> o.height == 0
    ensures StopsAt(page, 3)
  {
    assert page(0) == Some(o) && page(1) == Some(o) && page(2) == Some(o) && page(3) == Some(o);
    assert NoChange(page, 1) && NoChange(page, 2) && NoChange(page, 3);
  }

  /** A height change at step `k` (a step that read the page) means the loop
      cannot stop for stability at `k`, `k + 1` or `k + 2`. */
  lemma {:induction false} HeightChangeResets(page: nat -> Option<ScrollObs>, k: nat)
    requires page(k).Some? && !NoChange(page, k)
    ensures forall j :: k <= j <= k + 2 && page(j).Some? && !AtBottom(page(j).value) ==> !StopsAt(page, j)
  {
  }
}
