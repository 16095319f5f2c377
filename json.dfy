/** JSON values as Python's `json` module hands them to the pipeline, the
    dictionary operations the components apply to them (`d.get`, `d[k]`,
    truthiness, `str(...)`), and the canonical text that
    `json.dumps(v, sort_keys=True, separators=(",", ":"))` produces, on
    which both action fingerprints are computed. */
module Json {
  import opened Wrappers
  import opened Text

  /** A decoded JSON value. Numbers are integers; an object keeps its
      members in insertion order, as a Python dict does. */
  datatype Value =
    | Null
    | Bool(b: bool)
    | Int(i: int)
    | Str(s: string)
    | Arr(items: seq<Value>)
    | Obj(members: seq<(string, Value)>)

  type Members = seq<(string, Value)>

  predicate DistinctKeys(ms: Members) {
    forall i, j :: 0 <= i < j < |ms| ==> ms[i].0 != ms[j].0
  }

  /** Every object, at any depth, has distinct keys: what `json.loads`
      returns, since a Python dict holds each key once. */
  predicate WellFormed(v: Value) {
    match v
    case Arr(xs) => forall k :: 0 <= k < |xs| ==> WellFormed(xs[k])
    case Obj(ms) => DistinctKeys(ms) && forall k :: 0 <= k < |ms| ==> WellFormed(ms[k].1)
    case _ => true
  }

  predicate HasKey(ms: Members, key: string) {
    exists k :: 0 <= k < |ms| && ms[k].0 == key
  }

  /** `d.get(key)` on a dict: the value stored under `key`, if any. */
  function Lookup(ms: Members, key: string): (r: Option<Value>)
  {
    if ms == [] then None
    else if ms[0].0 == key then Some(ms[0].1)
    else Lookup(ms[1..], key)
  }

  /** `Lookup` finds a value exactly when some member has the key. */
  lemma {:induction false} LookupFinds(ms: Members, key: string)
    ensures Lookup(ms, key).Some? <==> HasKey(ms, key)
  {
    if ms != [] && ms[0].0 != key {
      LookupFinds(ms[1..], key);
      if HasKey(ms, key) {
        var k :| 0 <= k < |ms| && ms[k].0 == key;
        assert ms[1..][k - 1].0 == key;
      }
    }
  }

  /** The value under the first member with a given key is what `Lookup`
      finds. */
  lemma {:induction false} LookupFirst(ms: Members, key: string, k: nat)
    requires k < |ms| && ms[k].0 == key
    requires forall j :: 0 <= j < k ==> ms[j].0 != key
    ensures Lookup(ms, key) == Some(ms[k].1)
  {
    if k > 0 {
      LookupFirst(ms[1..], key, k - 1);
    }
  }

  /** `d.get(key, default)`. */
  function LookupOr(ms: Members, key: string, default: Value): Value {
    Lookup(ms, key).GetOr(default)
  }

  /** `d.setdefault(key, value)` as a state change: the member is added at
      the end only when the key is absent. */
  function SetDefault(ms: Members, key: string, value: Value): (r: Members)
    ensures HasKey(ms, key) ==> r == ms
    ensures !HasKey(ms, key) ==> r == ms + [(key, value)]
    ensures HasKey(r, key)
  {
    if HasKey(ms, key) then ms
    else
      var r := ms + [(key, value)];
      assert r[|ms|].0 == key;
      r
  }

  /** Python truthiness of a decoded value (`if x:`). */
  predicate Truthy(v: Value) {
    match v
    case Null => false
    case Bool(b) => b
    case Int(i) => i != 0
    case Str(s) => s != []
    case Arr(xs) => xs != []
    case Obj(ms) => ms != []
  }

  /** `sep.join(parts)`. */
  function Join(sep: string, parts: seq<string>): string {
    if parts == [] then []
    else if |parts| == 1 then parts[0]
    else parts[0] + sep + Join(sep, parts[1..])
  }

  // ---------------------------------------------------------------------
  // str(v): the text an f-string interpolates
  // ---------------------------------------------------------------------

  /** `str(v)`: a string is itself; everything else is its `repr`. */
  function Display(v: Value): string {
    match v
    case Str(s) => s
    case _ => Repr(v)
  }

  /** `repr(v)`. Strings inside containers are quoted with single quotes
      without escaping, a simplification of Python's rule. */
  function Repr(v: Value): string {
    match v
    case Null => "None"
    case Bool(b) => if b then "True" else "False"
    case Int(i) => IntText(i)
    case Str(s) => "'" + s + "'"
    case Arr(xs) => "[" + Join(", ", seq(|xs|, k requires 0 <= k < |xs| => Repr(xs[k]))) + "]"
    case Obj(ms) =>
      "{" + Join(", ", seq(|ms|, k requires 0 <= k < |ms| => "'" + ms[k].0 + "': " + Repr(ms[k].1))) + "}"
  }

  // ---------------------------------------------------------------------
  // Canonical serialisation: json.dumps(v, sort_keys=True, separators=(",", ":"))
  // ---------------------------------------------------------------------

  const HexDigits: string := "0123456789abcdef"

  /** Four lower-case hexadecimal digits, as in a `\uXXXX` escape. */
  function Hex4(n: nat): (r: string)
    requires n < 0x10000
    ensures |r| == 4
  {
    [HexDigits[n / 0x1000], HexDigits[n / 0x100 % 16], HexDigits[n / 0x10 % 16], HexDigits[n % 16]]
  }

  /** How the encoder writes one character with `ensure_ascii` on: printable
      ASCII as itself, the short escapes, `\uXXXX` for the rest of the
      Basic Multilingual Plane and a surrogate pair beyond it. */
  function EscapeChar(c: char): (r: string)
    ensures r != []
  {
    if c == '"' then "\\\""
    else if c == '\\' then "\\\\"
    else if c == '\n' then "\\n"
    else if c == '\r' then "\\r"
    else if c == '\t' then "\\t"
    else if c == '\U{8}' then "\\b"
    else if c == '\U{c}' then "\\f"
    else if ' ' <= c <= '~' then [c]
    else if c as int < 0x10000 then "\\u" + Hex4(c as int)
    else
      var v := c as int - 0x10000;
      "\\u" + Hex4(0xd800 + v / 0x400) + "\\u" + Hex4(0xdc00 + v % 0x400)
  }

  function Escape(s: string): string {
    if s == [] then [] else EscapeChar(s[0]) + Escape(s[1..])
  }

  /** A JSON string literal. */
  function Quote(s: string): string {
    "\"" + Escape(s) + "\""
  }

  /** Members whose values are already serialised, keyed by member name. */
  type Rendered = seq<(string, string)>

  predicate SortedByKey(ps: Rendered) {
    forall i, j :: 0 <= i < j < |ps| ==> Less(ps[i].0, ps[j].0)
  }

  predicate DistinctRenderedKeys(ps: Rendered) {
    forall i, j :: 0 <= i < j < |ps| ==> ps[i].0 != ps[j].0
  }

  /** Insert one member into a key-sorted list, after any smaller keys. */
  function Insert(p: (string, string), ps: Rendered): (r: Rendered)
    ensures multiset(r) == multiset(ps) + multiset{p}
  {
    if ps == [] then [p]
    else if Less(p.0, ps[0].0) then [p] + ps
    else
      assert ps == [ps[0]] + ps[1..];
      [ps[0]] + Insert(p, ps[1..])
  }

  /** A member whose key is below every key of a sorted list can head it. */
  lemma ConsSorted(h: (string, string), t: Rendered)
    requires SortedByKey(t)
    requires forall j :: 0 <= j < |t| ==> Less(h.0, t[j].0)
    ensures SortedByKey([h] + t)
  {
    var r := [h] + t;
    forall i, j | 0 <= i < j < |r| ensures Less(r[i].0, r[j].0) {
      if i > 0 { assert r[i] == t[i - 1] && r[j] == t[j - 1]; }
    }
  }

  /** Inserting a new key into a sorted list keeps it sorted. */
  lemma {:induction false} InsertSorted(p: (string, string), ps: Rendered)
    requires SortedByKey(ps)
    requires forall k :: 0 <= k < |ps| ==> ps[k].0 != p.0
    ensures SortedByKey(Insert(p, ps))
  {
    if ps == [] {
    } else if Less(p.0, ps[0].0) {
      forall j | 0 <= j < |ps| ensures Less(p.0, ps[j].0) {
        if j > 0 { LessTransitive(p.0, ps[0].0, ps[j].0); }
      }
      ConsSorted(p, ps);
    } else {
      var t := Insert(p, ps[1..]);
      InsertSorted(p, ps[1..]);
      LessTotal(p.0, ps[0].0);
      forall j | 0 <= j < |t| ensures Less(ps[0].0, t[j].0) {
        assert t[j] in multiset(t);
        assert t[j] == p || t[j] in multiset(ps[1..]);
      }
      ConsSorted(ps[0], t);
    }
  }

  /** The members in ascending key order (Python's `sorted(d.items())`). */
  function SortByKey(ps: Rendered): (r: Rendered)
    ensures multiset(r) == multiset(ps)
  {
    if ps == [] then []
    else
      assert ps == [ps[0]] + ps[1..];
      Insert(ps[0], SortByKey(ps[1..]))
  }

  /** Sorting members with distinct keys orders them strictly by key. */
  lemma {:induction false} SortByKeySorted(ps: Rendered)
    requires DistinctRenderedKeys(ps)
    ensures SortedByKey(SortByKey(ps))
  {
    if ps != [] {
      var rest := SortByKey(ps[1..]);
      SortByKeySorted(ps[1..]);
      forall k | 0 <= k < |rest| ensures rest[k].0 != ps[0].0 {
        assert rest[k] in multiset(ps[1..]);
      }
      InsertSorted(ps[0], rest);
    }
  }

  /** Two key-sorted lists holding the same members are the same list: the
      order of the input never shows through the sort. */
  lemma {:induction false} SortedUnique(a: Rendered, b: Rendered)
    requires SortedByKey(a) && SortedByKey(b)
    requires forall x :: x in a <==> x in b
    ensures a == b
  {
    if a != [] { assert a[0] in b; }
    if b != [] { assert b[0] in a; }
    if a != [] && b != [] {
      assert a[0] in b;
      var j :| 0 <= j < |b| && b[j] == a[0];
      assert b[0] in a;
      var i :| 0 <= i < |a| && a[i] == b[0];
      if j > 0 {
        assert Less(b[0].0, a[0].0);
        if i > 0 {
          assert Less(a[0].0, b[0].0);
          LessAsymmetric(a[0].0, b[0].0);
        } else {
          LessIrreflexive(a[0].0);
        }
      }
      assert a[0] == b[0];
      assert a == [a[0]] + a[1..] && b == [b[0]] + b[1..];
      forall x ensures x in a[1..] <==> x in b[1..] {
        if x in a[1..] {
          var k :| 1 <= k < |a| && a[k] == x;
          assert Less(a[0].0, x.0);
          LessIrreflexive(x.0);
          assert x in b && x != b[0];
        }
        if x in b[1..] {
          var k :| 1 <= k < |b| && b[k] == x;
          assert Less(b[0].0, x.0);
          LessIrreflexive(x.0);
          assert x in a && x != a[0];
        }
      }
      SortedUnique(a[1..], b[1..]);
    }
  }

  /** Each member with its value already serialised. */
  function Render(ms: Members, ghost parent: Value): (ps: Rendered)
    requires forall k :: 0 <= k < |ms| ==> ms[k].1 < parent
    ensures |ps| == |ms|
    ensures forall k :: 0 <= k < |ms| ==> ps[k] == (ms[k].0, Dumps(ms[k].1))
    decreases parent, 0
  {
    seq(|ms|, k requires 0 <= k < |ms| => (ms[k].0, Dumps(ms[k].1)))
  }

  /** `json.dumps(v, sort_keys=True, separators=(",", ":"))`: the canonical
      text of `v`, with every object's keys in ascending order. */
  function Dumps(v: Value): string
    decreases v, 1
  {
    match v
    case Null => "null"
    case Bool(b) => if b then "true" else "false"
    case Int(i) => IntText(i)
    case Str(s) => Quote(s)
    case Arr(xs) => ArrayText(seq(|xs|, k requires 0 <= k < |xs| => Dumps(xs[k])))
    case Obj(ms) => ObjectText(SortByKey(Render(ms, v)))
  }

  /** The text of an object whose members are serialised and ordered. */
  function ObjectText(sorted: Rendered): string {
    "{" + Join(",", seq(|sorted|, k requires 0 <= k < |sorted| => Quote(sorted[k].0) + ":" + sorted[k].1)) + "}"
  }

  /** The text of an array whose items are serialised. */
  function ArrayText(items: seq<string>): string {
    "[" + Join(",", items) + "]"
  }

  /** Two values that Python's `==` calls equal: objects with the same keys
      and, under each key, values that again differ at most in the order of
      their keys; arrays element by element; anything else identical. */
  predicate SameUpToKeyOrder(a: Value, b: Value)
    decreases a
  {
    match a
    case Arr(xs) =>
      && b.Arr? && |xs| == |b.items|
      && forall k :: 0 <= k < |xs| ==> SameUpToKeyOrder(xs[k], b.items[k])
    case Obj(ms) =>
      && b.Obj?
      && (forall i :: 0 <= i < |ms| ==> HasKey(b.members, ms[i].0))
      && (forall j :: 0 <= j < |b.members| ==> HasKey(ms, b.members[j].0))
      && forall i, j :: 0 <= i < |ms| && 0 <= j < |b.members| && ms[i].0 == b.members[j].0 ==>
                          SameUpToKeyOrder(ms[i].1, b.members[j].1)
    case _ => a == b
  }

  /** The canonical text depends on nothing but the value as Python's `==`
      sees it: reordering the keys of any object, at any depth, leaves it
      unchanged. */
  lemma {:induction false} DumpsIgnoresKeyOrder(a: Value, b: Value)
    requires WellFormed(a) && WellFormed(b)
    requires SameUpToKeyOrder(a, b)
    ensures Dumps(a) == Dumps(b)
    decreases a
  {
    match a
    case Arr(xs) =>
      var ys := b.items;
      forall k | 0 <= k < |xs| ensures Dumps(xs[k]) == Dumps(ys[k]) {
        DumpsIgnoresKeyOrder(xs[k], ys[k]);
      }
      assert seq(|xs|, k requires 0 <= k < |xs| => Dumps(xs[k]))
          == seq(|ys|, k requires 0 <= k < |ys| => Dumps(ys[k]));
    case Obj(ms) =>
      var ns := b.members;
      forall i, j | 0 <= i < |ms| && 0 <= j < |ns| && ms[i].0 == ns[j].0
        ensures Dumps(ms[i].1) == Dumps(ns[j].1)
      {
        DumpsIgnoresKeyOrder(ms[i].1, ns[j].1);
      }
      SameRenderedMembers(ms, ns, a, b);
      SortedSameMembers(Render(ms, a), Render(ns, b));
    case _ =>
  }

  /** Rendered members that are the same up to order sort to the same list. */
  lemma SortedSameMembers(ra: Rendered, rb: Rendered)
    requires DistinctRenderedKeys(ra) && DistinctRenderedKeys(rb)
    requires forall x :: x in ra <==> x in rb
    ensures SortByKey(ra) == SortByKey(rb)
  {
    var sa, sb := SortByKey(ra), SortByKey(rb);
    SortByKeySorted(ra);
    SortByKeySorted(rb);
    forall x ensures x in sa <==> x in sb {
      assert x in sa <==> x in multiset(sa);
      assert x in sb <==> x in multiset(sb);
      assert x in ra <==> x in multiset(ra);
      assert x in rb <==> x in multiset(rb);
    }
    SortedUnique(sa, sb);
  }

  /** Every rendered member of one object is a rendered member of another
      that has each of its keys with an equally serialised value. */
  lemma RenderedMembersIncluded(ms: Members, ns: Members, a: Value, b: Value)
    requires a == Obj(ms) && b == Obj(ns)
    requires forall i :: 0 <= i < |ms| ==> HasKey(ns, ms[i].0)
    requires forall i, j :: 0 <= i < |ms| && 0 <= j < |ns| && ms[i].0 == ns[j].0 ==> Dumps(ms[i].1) == Dumps(ns[j].1)
    ensures forall x :: x in Render(ms, a) ==> x in Render(ns, b)
  {
    var ra, rb := Render(ms, a), Render(ns, b);
    forall x | x in ra ensures x in rb {
      var i :| 0 <= i < |ra| && ra[i] == x;
      assert HasKey(ns, ms[i].0);
      var j :| 0 <= j < |ns| && ns[j].0 == ms[i].0;
      assert rb[j] == x;
    }
  }

  /** Objects with the same keys and equal serialised values under each key
      render to the same members, each with distinct keys. */
  lemma SameRenderedMembers(ms: Members, ns: Members, a: Value, b: Value)
    requires a == Obj(ms) && b == Obj(ns) && DistinctKeys(ms) && DistinctKeys(ns)
    requires forall i :: 0 <= i < |ms| ==> HasKey(ns, ms[i].0)
    requires forall j :: 0 <= j < |ns| ==> HasKey(ms, ns[j].0)
    requires forall i, j :: 0 <= i < |ms| && 0 <= j < |ns| && ms[i].0 == ns[j].0 ==> Dumps(ms[i].1) == Dumps(ns[j].1)
    ensures DistinctRenderedKeys(Render(ms, a)) && DistinctRenderedKeys(Render(ns, b))
    ensures forall x :: x in Render(ms, a) <==> x in Render(ns, b)
  {
    RenderedMembersIncluded(ms, ns, a, b);
    RenderedMembersIncluded(ns, ms, b, a);
  }

  /** What a consumer loop does with one message: skip it, stop with an
      uncaught exception, or hand a log line on. */
  datatype Delivery = Skip | Crash | Line(line: string)
}
