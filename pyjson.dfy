/** The Python values that `json.loads` produces, with the dictionary
    operations the tool applies to them (`get`, `setdefault`, `in`),
    Python truthiness, and `str()` as used inside f-strings. */
module PyJson {
  import opened Wrappers
  import opened Text

  /** A parsed JSON value. Objects keep their keys in insertion order, as a
      Python dict does. Numbers are integers only. */
  datatype Json =
    | JNull
    | JBool(b: bool)
    | JNum(n: int)
    | JStr(s: string)
    | JArr(items: seq<Json>)
    | JObj(fields: seq<(string, Json)>)

  /** Python's `bool(v)`. */
  predicate Truthy(v: Json) {
    match v
    case JNull => false
    case JBool(b) => b
    case JNum(n) => n != 0
    case JStr(s) => s != []
    case JArr(items) => items != []
    case JObj(fields) => fields != []
  }

  function Lookup(fields: seq<(string, Json)>, k: string): (r: Option<Json>)
    ensures r.Some? <==> exists i :: 0 <= i < |fields| && fields[i].0 == k
    ensures r.Some? ==> exists i :: 0 <= i < |fields| && fields[i] == (k, r.value)
  {
    if fields == [] then None
    else if fields[0].0 == k then Some(fields[0].1)
    else
      var r := Lookup(fields[1..], k);
      assert forall i :: 0 < i < |fields| ==> fields[i] == fields[1..][i - 1];
      r
  }

  /** `k in d` for a dict `d`. */
  predicate HasKey(d: Json, k: string)
    requires d.JObj?
  {
    Lookup(d.fields, k).Some?
  }

  /** `d.get(k, default)` for a dict `d`. */
  function Get(d: Json, k: string, default: Json): (r: Json)
    requires d.JObj?
    ensures HasKey(d, k) ==> r == Lookup(d.fields, k).value
    ensures !HasKey(d, k) ==> r == default
  {
    match Lookup(d.fields, k)
    case Some(v) => v
    case None => default
  }

  /** `d.setdefault(k, v)` for a dict `d`, as the dictionary it leaves
      behind: `k` keeps its value if present and is appended with `v`
      otherwise; no other key changes and existing entries keep their order. */
  function SetDefault(d: Json, k: string, v: Json): (r: Json)
    requires d.JObj?
    ensures r.JObj?
    ensures forall k' :: Lookup(r.fields, k') ==
                         (if k' == k && Lookup(d.fields, k).None? then Some(v) else Lookup(d.fields, k'))
    ensures d.fields <= r.fields
  {
    if HasKey(d, k) then d
    else
      var r := JObj(d.fields + [(k, v)]);
      assert forall k' :: Lookup(r.fields, k') == if k' == k then Some(v) else Lookup(d.fields, k') by {
        forall k' ensures Lookup(r.fields, k') == if k' == k then Some(v) else Lookup(d.fields, k') {
          LookupAppend(d.fields, k, v, k');
        }
      }
      r
  }

  /** `d.setdefault(k, v)` for each pair of `defs` in turn. */
  function SetDefaults(d: Json, defs: seq<(string, Json)>): (r: Json)
    requires d.JObj?
    ensures r.JObj?
    ensures d.fields <= r.fields
    decreases |defs|
  {
    if defs == [] then d
    else
      var d1 := SetDefault(d, defs[0].0, defs[0].1);
      var r := SetDefaults(d1, defs[1..]);
      r
  }

  /** After `SetDefaults`, a key present in `d` keeps its value and an absent
      key takes its first default in `defs`, if any. */
  lemma {:induction false} SetDefaultsLookup(d: Json, defs: seq<(string, Json)>, k: string)
    requires d.JObj?
    ensures Lookup(SetDefaults(d, defs).fields, k) ==
      if Lookup(d.fields, k).Some? then Lookup(d.fields, k) else Lookup(defs, k)
    decreases |defs|
  {
    if defs != [] {
      var d1 := SetDefault(d, defs[0].0, defs[0].1);
      SetDefaultsLookup(d1, defs[1..], k);
    }
  }

  lemma LookupAppend(fields: seq<(string, Json)>, k: string, v: Json, k': string)
    requires Lookup(fields, k).None?
    ensures Lookup(fields + [(k, v)], k') == if k' == k then Some(v) else Lookup(fields, k')
  {
    if fields != [] {
      assert (fields + [(k, v)])[1..] == fields[1..] + [(k, v)];
      LookupAppend(fields[1..], k, v, k');
    }
  }

  predicate AllStrings(items: seq<Json>) {
    forall i :: 0 <= i < |items| ==> items[i].JStr?
  }

  function Strings(items: seq<Json>): (r: seq<string>)
    requires AllStrings(items)
    ensures |r| == |items| && forall i :: 0 <= i < |items| ==> r[i] == items[i].s
  {
    seq(|items|, i requires 0 <= i < |items| => items[i].s)
  }

  /** `sep.join(items)` for a list: it raises a TypeError on an item that is
      not a string. */
  function JoinStrs(sep: string, items: seq<Json>): (r: Result<string>)
    ensures r.Ok? <==> AllStrings(items)
    ensures r.Ok? ==> r.value == Join(sep, Strings(items))
  {
    if AllStrings(items) then Ok(Join(sep, Strings(items))) else Raised
  }

  /** `str(v)` (`quoted` false) and `repr(v)` (`quoted` true), as an f-string
      renders a parsed value. Strings inside a list or dict are always put in
      single quotes with no escaping; Python's `repr` switches to double quotes
      for a string holding a single quote and escapes backslashes and control
      characters, which this rendering does not. */
  function Render(v: Json, quoted: bool): string
    decreases v
  {
    match v
    case JNull => "None"
    case JBool(b) => if b then "True" else "False"
    case JNum(n) => IntToString(n)
    case JStr(s) => if quoted then "'" + s + "'" else s
    case JArr(items) =>
      "[" + Join(", ", seq(|items|, i requires 0 <= i < |items| => Render(items[i], true))) + "]"
    case JObj(fields) =>
      "{" + Join(", ", seq(|fields|, i requires 0 <= i < |fields| =>
                             "'" + fields[i].0 + "': " + Render(fields[i].1, true))) + "}"
  }

  /** `str(v)`. */
  function Str(v: Json): (r: string)
    ensures v.JStr? ==> r == v.s
  {
    Render(v, false)
  }
}
