// The slice of Python's runtime that the Origami services rely on:
// dynamically typed values, insertion-ordered dictionaries, ElementTree
// elements, exceptions, and the str methods used on message text.

module PyRuntime {

  type byte = x: int | 0 <= x < 256
  type bytes = seq<byte>

  datatype Option<+T> = None | Some(value: T)
  {
    function GetOr(default: T): T
    {
      if Some? then value else default
    }
  }

  /** A computation that returns normally, or raises an exception of the named class. */
  datatype Result<+T> = Ok(value: T) | Raised(error: string)

  /**
   * A Python value as the services see it after JSON, YAML, XML or CSV
   * decoding.  A dict is an insertion-ordered list of entries with string keys.
   */
  datatype Value =
    | VNone
    | VBool(b: bool)
    | VInt(i: int)
    | VFloat(r: real)
    | VStr(s: string)
    | VBytes(bs: bytes)
    | VList(items: seq<Value>)
    | VDict(entries: seq<Entry>)

  datatype Entry = Entry(key: string, val: Value)

  /** Python truthiness. */
  predicate Truthy(v: Value)
  {
    match v
    case VNone => false
    case VBool(b) => b
    case VInt(i) => i != 0
    case VFloat(r) => r != 0.0
    case VStr(s) => s != ""
    case VBytes(bs) => bs != []
    case VList(items) => items != []
    case VDict(entries) => entries != []
  }

  // ---------------------------------------------------------------------
  // Dictionaries

  function Keys(d: seq<Entry>): (ks: seq<string>)
    ensures |ks| == |d|
    ensures forall i :: 0 <= i < |d| ==> ks[i] == d[i].key
  {
    if d == [] then [] else [d[0].key] + Keys(d[1..])
  }

  predicate Distinct<T(==)>(s: seq<T>)
  {
    forall i, j :: 0 <= i < j < |s| ==> s[i] != s[j]
  }

  predicate DistinctKeys(d: seq<Entry>)
  {
    Distinct(Keys(d))
  }

  /** `d.get(k)`: the value of the first entry with key `k`. */
  function Lookup(d: seq<Entry>, k: string): (r: Option<Value>)
    ensures r.None? <==> k !in Keys(d)
    ensures r.Some? ==> exists i :: 0 <= i < |d| && d[i].key == k && d[i].val == r.value
  {
    if d == [] then None
    else if d[0].key == k then Some(d[0].val)
    else Lookup(d[1..], k)
  }

  /** The value of a key is that of its first entry. */
  lemma {:induction false} LookupFirst(d: seq<Entry>, j: nat)
    requires j < |d| && forall i :: 0 <= i < j ==> d[i].key != d[j].key
    ensures Lookup(d, d[j].key) == Some(d[j].val)
  {
    if j > 0 {
      LookupFirst(d[1..], j - 1);
    }
  }

  /** `d.get(k, default)` */
  function Get(d: seq<Entry>, k: string, default: Value): Value
  {
    Lookup(d, k).GetOr(default)
  }

  /**
   * `d[k] = v`: an existing key keeps its position and takes the new value,
   * a new key is appended.
   */
  function Put(d: seq<Entry>, k: string, v: Value): (r: seq<Entry>)
    ensures Lookup(r, k) == Some(v)
    ensures forall other :: other != k ==> Lookup(r, other) == Lookup(d, other)
    ensures forall e :: e in r ==> e in d || e == Entry(k, v)
  {
    if d == [] then [Entry(k, v)]
    else if d[0].key == k then [Entry(k, v)] + d[1..]
    else [d[0]] + Put(d[1..], k, v)
  }

  /** `d[k] = v` keeps the key order, appending a key that is new. */
  lemma {:induction false} PutKeys(d: seq<Entry>, k: string, v: Value)
    ensures k in Keys(d) ==> Keys(Put(d, k, v)) == Keys(d)
    ensures k !in Keys(d) ==> Keys(Put(d, k, v)) == Keys(d) + [k]
  {
    if d != [] {
      KeysCons(Entry(k, v), d[1..]);
      if d[0].key != k {
        PutKeys(d[1..], k, v);
        KeysCons(d[0], Put(d[1..], k, v));
        ConsSnoc(d[0].key, Keys(d[1..]), k);
      }
    }
  }

  lemma KeysCons(e: Entry, d: seq<Entry>)
    ensures Keys([e] + d) == [e.key] + Keys(d)
  {
    assert ([e] + d)[1..] == d;
  }

  lemma AppendAssoc<T>(a: seq<T>, b: seq<T>, c: seq<T>)
    ensures a + b + c == a + (b + c)
  {
  }

  lemma ConsSnoc<T>(a: T, s: seq<T>, b: T)
    ensures [a] + (s + [b]) == ([a] + s) + [b]
  {
  }

  lemma {:induction false} PutKeepsDistinct(d: seq<Entry>, k: string, v: Value)
    requires DistinctKeys(d)
    ensures DistinctKeys(Put(d, k, v))
  {
    PutKeys(d, k, v);
    if k !in Keys(d) {
      DistinctSnoc(Keys(d), k);
    }
  }

  lemma DistinctSnoc<T>(s: seq<T>, x: T)
    requires Distinct(s) && x !in s
    ensures Distinct(s + [x])
  {
    forall i, j | 0 <= i < j < |s + [x]| ensures (s + [x])[i] != (s + [x])[j] {
      assert (s + [x])[i] == s[i];
      if j < |s| {
        assert (s + [x])[j] == s[j];
      }
    }
  }

  /** Appending an entry with a fresh key is the same as `d[k] = v`. */
  lemma {:induction false} PutFresh(d: seq<Entry>, k: string, v: Value)
    requires k !in Keys(d)
    ensures Put(d, k, v) == d + [Entry(k, v)]
  {
    if d != [] {
      assert d == [d[0]] + d[1..];
      KeysCons(d[0], d[1..]);
      assert k !in Keys(d[1..]);
      PutFresh(d[1..], k, v);
      ConsSnoc(d[0], d[1..], Entry(k, v));
    }
  }

  /** The dictionary built by assigning each pair of `pairs` in order to `m`. */
  function AssignAll(m: map<string, string>, pairs: seq<(string, string)>): map<string, string>
    decreases |pairs|
  {
    if pairs == [] then m else AssignAll(m[pairs[0].0 := pairs[0].1], pairs[1..])
  }

  /** Some pair names key `k`. */
  predicate Assigns(pairs: seq<(string, string)>, k: string)
  {
    exists i :: 0 <= i < |pairs| && pairs[i].0 == k
  }

  /** The keys assigned are those already present and those of the pairs. */
  lemma {:induction false} AssignAllKeys(m: map<string, string>, pairs: seq<(string, string)>)
    ensures forall k :: k in AssignAll(m, pairs) <==> k in m || Assigns(pairs, k)
    decreases |pairs|
  {
    if pairs != [] {
      AssignAllKeys(m[pairs[0].0 := pairs[0].1], pairs[1..]);
      forall k | Assigns(pairs, k) ensures k == pairs[0].0 || Assigns(pairs[1..], k) {
        var i :| 0 <= i < |pairs| && pairs[i].0 == k;
        if i > 0 {
          assert pairs[1..][i - 1].0 == k;
        }
      }
      forall k | Assigns(pairs[1..], k) ensures Assigns(pairs, k) {
        var i :| 0 <= i < |pairs[1..]| && pairs[1..][i].0 == k;
        assert pairs[i + 1].0 == k;
      }
    }
  }

  /** A key no pair names keeps its value. */
  lemma {:induction false} AssignAllKeeps(m: map<string, string>, pairs: seq<(string, string)>, k: string)
    requires k in m && forall i :: 0 <= i < |pairs| ==> pairs[i].0 != k
    ensures k in AssignAll(m, pairs) && AssignAll(m, pairs)[k] == m[k]
    decreases |pairs|
  {
    if pairs != [] {
      assert forall i :: 0 <= i < |pairs[1..]| ==> pairs[1..][i].0 == pairs[i + 1].0;
      AssignAllKeeps(m[pairs[0].0 := pairs[0].1], pairs[1..], k);
    }
  }

  /** A key takes the value of the last pair that names it. */
  lemma {:induction false} AssignAllLastWins(m: map<string, string>, pairs: seq<(string, string)>, i: nat)
    requires i < |pairs| && forall j :: i < j < |pairs| ==> pairs[j].0 != pairs[i].0
    ensures pairs[i].0 in AssignAll(m, pairs) && AssignAll(m, pairs)[pairs[i].0] == pairs[i].1
    decreases |pairs|
  {
    var next := m[pairs[0].0 := pairs[0].1];
    if i == 0 {
      assert forall j :: 0 <= j < |pairs[1..]| ==> pairs[1..][j].0 == pairs[j + 1].0;
      AssignAllKeeps(next, pairs[1..], pairs[0].0);
    } else {
      assert forall j :: i - 1 < j < |pairs[1..]| ==> pairs[1..][j].0 == pairs[j + 1].0;
      AssignAllLastWins(next, pairs[1..], i - 1);
    }
  }

  // ---------------------------------------------------------------------
  // Strings

  /** The characters `str.strip()` removes when called without arguments. */
  predicate IsSpace(c: char)
  {
    var n := c as int;
    n == 0x20 || 0x09 <= n <= 0x0d || 0x1c <= n <= 0x1f || n == 0x85 || n == 0xa0
    || n == 0x1680 || 0x2000 <= n <= 0x200a || n == 0x2028 || n == 0x2029
    || n == 0x202f || n == 0x205f || n == 0x3000
  }

  function LStrip(s: string): (r: string)
    ensures r == [] || !IsSpace(r[0])
    ensures |r| <= |s| && r == s[|s| - |r|..]
  {
    if s != [] && IsSpace(s[0]) then LStrip(s[1..]) else s
  }

  function RStrip(s: string): (r: string)
    ensures r == [] || !IsSpace(r[|r| - 1])
    ensures |r| <= |s| && r == s[..|r|]
  {
    if s != [] && IsSpace(s[|s| - 1]) then RStrip(s[..|s| - 1]) else s
  }

  /** `s.strip()` */
  function Strip(s: string): (r: string)
    ensures r == [] || (!IsSpace(r[0]) && !IsSpace(r[|r| - 1]))
  {
    RStrip(LStrip(s))
  }

  /** A string `str.strip()` leaves as it is. */
  predicate Stripped(s: string)
  {
    s == [] || (!IsSpace(s[0]) && !IsSpace(s[|s| - 1]))
  }

  lemma StripStripped(s: string)
    requires Stripped(s)
    ensures Strip(s) == s
  {
    assert LStrip(s) == s;
  }

  lemma StripIdempotent(s: string)
    ensures Strip(Strip(s)) == Strip(s)
  {
    StripStripped(Strip(s));
  }

  /** A string that starts with a non-space character is not blank once stripped. */
  lemma StripNonBlank(s: string)
    requires s != [] && !IsSpace(s[0])
    ensures Strip(s) != []
  {
    RStripKeepsHead(s);
  }

  lemma {:induction false} RStripKeepsHead(s: string)
    requires s != [] && !IsSpace(s[0])
    ensures RStrip(s) != []
    decreases |s|
  {
    if IsSpace(s[|s| - 1]) {
      RStripKeepsHead(s[..|s| - 1]);
    }
  }

  function LowerChar(c: char): char
  {
    if 'A' <= c <= 'Z' then (c as int + 32) as char else c
  }

  function UpperChar(c: char): char
  {
    if 'a' <= c <= 'z' then (c as int - 32) as char else c
  }

  /** `s.lower()` on ASCII letters. */
  function Lower(s: string): (r: string)
    ensures |r| == |s| && forall i :: 0 <= i < |s| ==> r[i] == LowerChar(s[i])
  {
    seq(|s|, i requires 0 <= i < |s| => LowerChar(s[i]))
  }

  /** `s.upper()` on ASCII letters. */
  function Upper(s: string): (r: string)
    ensures |r| == |s| && forall i :: 0 <= i < |s| ==> r[i] == UpperChar(s[i])
  {
    seq(|s|, i requires 0 <= i < |s| => UpperChar(s[i]))
  }

  /** `sub in s` */
  predicate Contains(s: string, sub: string)
  {
    sub <= s || (s != [] && Contains(s[1..], sub))
  }

  lemma {:induction false} ContainsAt(s: string, sub: string, i: nat)
    requires i + |sub| <= |s| && s[i..i + |sub|] == sub
    ensures Contains(s, sub)
  {
    if i > 0 {
      assert s[1..][i - 1..i - 1 + |sub|] == s[i..i + |sub|];
      ContainsAt(s[1..], sub, i - 1);
    }
  }

  function DigitChar(d: nat): char
    requires d < 10
  {
    "0123456789"[d]
  }

  /** `str(n)` for a non-negative integer. */
  function NatToString(n: nat): (r: string)
    ensures |r| >= 1
    ensures forall i :: 0 <= i < |r| ==> '0' <= r[i] <= '9'
  {
    if n < 10 then [DigitChar(n)] else NatToString(n / 10) + [DigitChar(n % 10)]
  }

  /** `str(i)` for an integer. */
  function IntToString(i: int): string
  {
    if i < 0 then "-" + NatToString(-i) else NatToString(i)
  }
}
