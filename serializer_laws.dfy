// What the codec of app/serializer.py guarantees across its two directions:
// how `_xml_element_to_dict` groups repeated tags, which dicts survive the
// trip through XML and CSV, and what `extract_data` and
// `extract_packet_data` give back for data built by `create_generic_data`
// and `create_data_packet_generic`.  Library behaviour a round trip depends
// on (a parser reading back what its printer wrote) enters as a requirement
// on the library functions involved.

module SerializerLaws {
  import opened PyRuntime
  import opened Messages
  import opened Externals
  import opened Serializer

  // =====================================================================
  // Dictionary facts

  lemma KeysConcat(a: seq<Entry>, b: seq<Entry>)
    ensures Keys(a + b) == Keys(a) + Keys(b)
  {
    var l, r := Keys(a + b), Keys(a) + Keys(b);
    assert |l| == |r|;
    forall i | 0 <= i < |l| ensures l[i] == r[i] {
      if i < |a| {
        assert (a + b)[i] == a[i];
      } else {
        assert (a + b)[i] == b[i - |a|];
      }
    }
  }

  /** In a dict without repeated keys, the lookup of an entry's key finds that entry. */
  lemma {:induction false} LookupDistinct(d: seq<Entry>, j: nat)
    requires DistinctKeys(d) && j < |d|
    ensures Lookup(d, d[j].key) == Some(d[j].val)
  {
    if j > 0 {
      assert Keys(d)[0] != Keys(d)[j];
      assert Keys(d[1..]) == Keys(d)[1..];
      LookupDistinct(d[1..], j - 1);
    }
  }

  predicate Disjoint(a: seq<Entry>, b: seq<Entry>)
  {
    forall k :: k in Keys(a) ==> k !in Keys(b)
  }

  /**
   * Moving the first entry of `d` onto the end of `acc` keeps the keys apart,
   * and is what `d[k] = v` and `Absorb` do with it.
   */
  lemma FreshStep(acc: seq<Entry>, d: seq<Entry>)
    requires d != [] && DistinctKeys(d) && Disjoint(acc, d)
    ensures Put(acc, d[0].key, d[0].val) == acc + [d[0]]
    ensures Absorb(VDict(acc), d[0].key, d[0].val) == Ok(VDict(acc + [d[0]]))
    ensures DistinctKeys(d[1..]) && Disjoint(acc + [d[0]], d[1..])
  {
    var k := d[0].key;
    assert Keys(d)[0] == k;
    assert k !in Keys(acc);
    assert Lookup(acc, k).None?;
    PutFresh(acc, k, d[0].val);
    var rest := Keys(d[1..]);
    assert forall i :: 0 <= i < |rest| ==> rest[i] == Keys(d)[i + 1];
    assert k !in rest;
    assert forall x :: x in rest ==> x in Keys(d);
    KeysConcat(acc, [d[0]]);
    assert Keys([d[0]]) == [k];
  }

  // =====================================================================
  // _xml_element_to_dict: children grouped by tag

  /** The values of the children tagged `t`, in document order. */
  function Group(cs: seq<Element>, vs: seq<Value>, t: string): (g: seq<Value>)
    requires |vs| == |cs|
    ensures forall x :: x in g ==> x in vs
    decreases |cs|
  {
    if cs == [] then []
    else
      var g := Group(cs[..|cs| - 1], vs[..|vs| - 1], t);
      assert forall x :: x in g ==> x in vs by {
        forall x | x in g ensures x in vs {
          var i :| 0 <= i < |vs[..|vs| - 1]| && vs[..|vs| - 1][i] == x;
          assert vs[i] == x;
        }
      }
      g + (if cs[|cs| - 1].tag == t then [vs[|vs| - 1]] else [])
  }

  /** The distinct tags of `cs` in the order of their first occurrence. */
  function FirstTags(cs: seq<Element>): seq<string>
    decreases |cs|
  {
    if cs == [] then []
    else
      var init := FirstTags(cs[..|cs| - 1]);
      if cs[|cs| - 1].tag in init then init else init + [cs[|cs| - 1].tag]
  }

  /** What a tag's group becomes: a lone child is its own value, several make a list. */
  function Collapse(g: seq<Value>): Value
  {
    if |g| == 1 then g[0] else VList(g)
  }

  /** `acc` is the dict of `cs` with child values `vs`: one key per tag, in first-occurrence order. */
  predicate Grouped(acc: seq<Entry>, cs: seq<Element>, vs: seq<Value>)
    requires |vs| == |cs|
  {
    Keys(acc) == FirstTags(cs) &&
    forall t :: t in Keys(acc) ==> Lookup(acc, t) == Some(Collapse(Group(cs, vs, t)))
  }

  lemma {:induction false} GroupEmpty(cs: seq<Element>, vs: seq<Value>, t: string)
    requires |vs| == |cs|
    ensures Group(cs, vs, t) == [] <==> t !in FirstTags(cs)
    decreases |cs|
  {
    if cs != [] {
      GroupEmpty(cs[..|cs| - 1], vs[..|vs| - 1], t);
    }
  }

  lemma GroupSnoc(pre: seq<Element>, pvs: seq<Value>, c: Element, v: Value, u: string)
    requires |pvs| == |pre|
    ensures Group(pre + [c], pvs + [v], u) == Group(pre, pvs, u) + (if c.tag == u then [v] else [])
  {
    assert (pre + [c])[..|pre|] == pre && (pvs + [v])[..|pvs|] == pvs;
  }

  lemma FirstTagsSnoc(pre: seq<Element>, c: Element)
    ensures FirstTags(pre + [c]) ==
            (if c.tag in FirstTags(pre) then FirstTags(pre) else FirstTags(pre) + [c.tag])
  {
    assert (pre + [c])[..|pre|] == pre;
  }

  /** `Absorb` on a tag whose earlier children had values `g` stores the collapse of `g + [v]`. */
  lemma AbsorbCollapse(acc: seq<Entry>, t: string, v: Value, g: seq<Value>)
    requires Lookup(acc, t) == (if g == [] then None else Some(Collapse(g)))
    requires !v.VList? && forall x :: x in g ==> !x.VList?
    ensures Absorb(VDict(acc), t, v) == Ok(VDict(Put(acc, t, Collapse(g + [v]))))
  {
    if g != [] && |g| == 1 {
      assert g[0] in g;
      assert g + [v] == [g[0], v];
    }
  }

  /** The dict after one more child: its tag's entry is the collapse of the longer group. */
  function Extend(acc: seq<Entry>, pre: seq<Element>, pvs: seq<Value>, c: Element, v: Value): seq<Entry>
    requires |pvs| == |pre|
  {
    Put(acc, c.tag, Collapse(Group(pre, pvs, c.tag) + [v]))
  }

  /** One more child entered by `Absorb` gives that dict. */
  lemma AbsorbStep(pre: seq<Element>, pvs: seq<Value>, c: Element, v: Value, acc: seq<Entry>)
    requires |pvs| == |pre|
    requires !v.VList? && forall i :: 0 <= i < |pvs| ==> !pvs[i].VList?
    requires Grouped(acc, pre, pvs)
    ensures Absorb(VDict(acc), c.tag, v) == Ok(VDict(Extend(acc, pre, pvs, c, v)))
  {
    var g := Group(pre, pvs, c.tag);
    GroupEmpty(pre, pvs, c.tag);
    forall x | x in g ensures !x.VList? {
      var i :| 0 <= i < |pvs| && pvs[i] == x;
    }
    AbsorbCollapse(acc, c.tag, v, g);
  }

  lemma ExtendLookup(pre: seq<Element>, pvs: seq<Value>, c: Element, v: Value, acc: seq<Entry>, u: string)
    requires |pvs| == |pre|
    requires Grouped(acc, pre, pvs)
    requires u in Keys(Extend(acc, pre, pvs, c, v))
    ensures Lookup(Extend(acc, pre, pvs, c, v), u) == Some(Collapse(Group(pre + [c], pvs + [v], u)))
  {
    GroupSnoc(pre, pvs, c, v, u);
    var next := Extend(acc, pre, pvs, c, v);
    assert next == Put(acc, c.tag, Collapse(Group(pre, pvs, c.tag) + [v]));
    if u != c.tag {
      assert Lookup(next, u) == Lookup(acc, u);
      assert u in Keys(acc);
      assert Group(pre + [c], pvs + [v], u) == Group(pre, pvs, u);
    } else {
      assert Lookup(next, u) == Some(Collapse(Group(pre, pvs, c.tag) + [v]));
    }
  }

  /** That dict is grouped over one more child. */
  lemma GroupedExtend(pre: seq<Element>, pvs: seq<Value>, c: Element, v: Value, acc: seq<Entry>)
    requires |pvs| == |pre|
    requires Grouped(acc, pre, pvs)
    ensures Grouped(Extend(acc, pre, pvs, c, v), pre + [c], pvs + [v])
  {
    GroupEmpty(pre, pvs, c.tag);
    FirstTagsSnoc(pre, c);
    PutKeys(acc, c.tag, Collapse(Group(pre, pvs, c.tag) + [v]));
    forall u | u in Keys(Extend(acc, pre, pvs, c, v))
      ensures Lookup(Extend(acc, pre, pvs, c, v), u) == Some(Collapse(Group(pre + [c], pvs + [v], u)))
    {
      ExtendLookup(pre, pvs, c, v, acc, u);
    }
  }

  lemma ShiftHead<T>(a: seq<T>, b: seq<T>)
    requires b != []
    ensures a + [b[0]] + b[1..] == a + b
  {
    assert [b[0]] + b[1..] == b;
    assert a + [b[0]] + b[1..] == a + ([b[0]] + b[1..]);
  }

  lemma TakeSnoc<T>(s: seq<T>, i: nat)
    requires i < |s|
    ensures s[..i + 1] == s[..i] + [s[i]]
  {
  }

  /** Folding the remaining children `rest` into a dict grouped over `pre`. */
  lemma {:induction false} CollectGrouped(pre: seq<Element>, pvs: seq<Value>, rest: seq<Element>,
                                          rvs: seq<Value>, acc: seq<Entry>)
    requires |pvs| == |pre| && |rvs| == |rest|
    requires forall i :: 0 <= i < |rest| ==> ElementToDict(rest[i]) == Ok(rvs[i])
    requires forall i :: 0 <= i < |pvs| ==> !pvs[i].VList?
    requires Grouped(acc, pre, pvs)
    ensures Collect(rest, VDict(acc)).Ok? && Collect(rest, VDict(acc)).value.VDict?
    ensures Grouped(Collect(rest, VDict(acc)).value.entries, pre + rest, pvs + rvs)
    decreases |rest|
  {
    if rest == [] {
      assert pre + rest == pre && pvs + rvs == pvs;
    } else {
      var c, v := rest[0], rvs[0];
      assert ElementToDict(c) == Ok(v);
      AbsorbStep(pre, pvs, c, v, acc);
      GroupedExtend(pre, pvs, c, v, acc);
      var next := Extend(acc, pre, pvs, c, v);
      assert Collect(rest, VDict(acc)) == Collect(rest[1..], VDict(next));
      forall i | 0 <= i < |pvs + [v]| ensures !(pvs + [v])[i].VList? {
        if i == |pvs| {
          assert (pvs + [v])[i] == v;
        } else {
          assert (pvs + [v])[i] == pvs[i];
        }
      }
      CollectGrouped(pre + [c], pvs + [v], rest[1..], rvs[1..], next);
      ShiftHead(pre, rest);
      ShiftHead(pvs, rvs);
    }
  }

  /**
   * An element with blank text whose children all convert maps to a dict with
   * one key per distinct child tag, in first-occurrence order; a tag used once
   * holds that child's value, a repeated tag the list of its children's values
   * in document order.
   */
  lemma ChildrenGrouped(e: Element, vs: seq<Value>)
    requires Strip(e.text) == ""
    requires |vs| == |e.children|
    requires forall i :: 0 <= i < |vs| ==> ElementToDict(e.children[i]) == Ok(vs[i])
    ensures ElementToDict(e).Ok? && ElementToDict(e).value.VDict?
    ensures Grouped(ElementToDict(e).value.entries, e.children, vs)
  {
    BlankCollects(e);
    CollectGroupedAll(e.children, vs);
  }

  lemma BlankCollects(e: Element)
    requires Strip(e.text) == ""
    ensures ElementToDict(e) == Collect(e.children, VDict([]))
  {
  }

  /** Folding every child into the empty dict groups them. */
  lemma CollectGroupedAll(cs: seq<Element>, vs: seq<Value>)
    requires |vs| == |cs|
    requires forall i :: 0 <= i < |cs| ==> ElementToDict(cs[i]) == Ok(vs[i])
    ensures Collect(cs, VDict([])).Ok? && Collect(cs, VDict([])).value.VDict?
    ensures Grouped(Collect(cs, VDict([])).value.entries, cs, vs)
  {
    assert Grouped([], [], []);
    CollectGrouped([], [], cs, vs, []);
    assert [] + cs == cs;
    assert [] + vs == vs;
  }

  /** A childless element maps to its stripped text, or to an empty dict when the text is blank. */
  lemma LeafValue(e: Element)
    requires e.children == []
    ensures ElementToDict(e) == Ok(if Strip(e.text) != "" then VStr(Strip(e.text)) else VDict([]))
  {
  }

  /** Text and children together: the code indexes a str, which raises. */
  lemma MixedContentRaises(e: Element)
    requires Strip(e.text) != "" && e.children != []
    ensures ElementToDict(e).Raised?
  {
  }

  // =====================================================================
  // dict -> XML -> dict

  /**
   * A value that survives the trip through an element: a non-blank string
   * without surrounding whitespace, or a dict of such values.
   */
  predicate PlainValue(v: Value)
    decreases v
  {
    match v
    case VStr(s) => s != "" && Stripped(s)
    case VDict(d) => PlainDict(d)
    case _ => false
  }

  /** A dict that survives the trip: distinct keys and plain values. */
  predicate PlainDict(d: seq<Entry>)
    decreases d
  {
    DistinctKeys(d) && forall i :: 0 <= i < |d| ==> PlainValue(d[i].val)
  }

  lemma PlainTail(d: seq<Entry>)
    requires d != [] && PlainDict(d)
    ensures PlainValue(d[0].val) && PlainDict(d[1..])
  {
    assert Keys(d[1..]) == Keys(d)[1..];
    forall i | 0 <= i < |d[1..]| ensures PlainValue(d[1..][i].val) {
      assert d[1..][i] == d[i + 1];
    }
  }

  /**
   * The element `_dict_to_xml_element` makes for an entry with a plain value
   * converts back to that value: the children made for a dict fold back into
   * the dict's entries, in order.
   */
  lemma EntryRoundTrip(libs: Libs, e: Entry)
    requires PlainValue(e.val)
    ensures ElementToDict(EntryElement(libs, e)) == Ok(e.val)
    decreases e.val
  {
    match e.val {
      case VStr(s) =>
        StripStripped(s);
      case VDict(d) =>
        var i, cur := 0, [];
        assert d[0..] == d && d[..0] == [];
        while i < |d|
          invariant 0 <= i <= |d|
          invariant cur == d[..i]
          invariant PlainDict(d[i..]) && Disjoint(cur, d[i..])
          invariant Collect(DictChildren(libs, d), VDict([])) == Collect(DictChildren(libs, d[i..]), VDict(cur))
        {
          var rest := d[i..];
          assert rest[0] == d[i] && rest[1..] == d[i + 1..];
          PlainTail(rest);
          assert d[i] in d;
          EntryRoundTrip(libs, d[i]);
          FreshStep(cur, rest);
          CollectCons(DictChildren(libs, rest), VDict(cur), d[i].val, VDict(cur + [d[i]]));
          assert DictChildren(libs, rest)[1..] == DictChildren(libs, d[i + 1..]);
          TakeSnoc(d, i);
          cur := cur + [d[i]];
          i := i + 1;
        }
        assert d[..i] == d && d[i..] == [];
        assert Collect(DictChildren(libs, d), VDict([])) == Ok(VDict(d));
        assert EntryElement(libs, e) == Element(e.key, "", DictChildren(libs, d));
    }
  }

  /** The tree `_dict_to_xml` builds for a plain dict converts back to the dict. */
  lemma XmlTreeRoundTrip(libs: Libs, d: seq<Entry>)
    requires PlainDict(d)
    ensures ElementToDict(XmlRoot(libs, d)) == Ok(VDict(d))
  {
    EntryRoundTrip(libs, Entry("data", VDict(d)));
  }

  /**
   * Two trees that differ only in whitespace around element text, as a tree
   * and its pretty-printed and re-parsed copy do.
   */
  predicate Resembles(a: Element, b: Element)
    decreases b, 1
  {
    a.tag == b.tag && Strip(a.text) == Strip(b.text) && AllResemble(a.children, b.children)
  }

  /** Two child lists of the same length whose children resemble pairwise. */
  predicate AllResemble(xs: seq<Element>, bs: seq<Element>)
    decreases bs, 0
  {
    |xs| == |bs| && (bs != [] ==> Resembles(xs[0], bs[0]) && AllResemble(xs[1..], bs[1..]))
  }

  lemma {:induction false} ResemblesSameDict(a: Element, b: Element)
    requires Resembles(a, b)
    ensures ElementToDict(a) == ElementToDict(b)
    decreases b, 1
  {
    var acc := if Strip(b.text) != "" then VStr(Strip(b.text)) else VDict([]);
    ResemblesSameCollect(a.children, b.children, acc);
  }

  lemma {:induction false} ResemblesSameCollect(xs: seq<Element>, bs: seq<Element>, acc: Value)
    requires acc.VStr? || acc.VDict?
    requires AllResemble(xs, bs)
    ensures Collect(xs, acc) == Collect(bs, acc)
    decreases bs, 0
  {
    if bs != [] {
      ResemblesSameDict(xs[0], bs[0]);
      assert xs[0].tag == bs[0].tag;
      CollectHead(xs, acc);
      CollectHead(bs, acc);
      var h := ElementToDict(bs[0]);
      if h.Ok? && acc.VDict? {
        ResemblesSameCollect(xs[1..], bs[1..], Absorb(acc, bs[0].tag, h.value).value);
      }
    }
  }

  /** One step of the fold: the first child's error, a TypeError on text, or the rest folded. */
  lemma CollectHead(cs: seq<Element>, acc: Value)
    requires cs != [] && (acc.VStr? || acc.VDict?)
    ensures ElementToDict(cs[0]).Raised? ==> Collect(cs, acc) == Raised(ElementToDict(cs[0]).error)
    ensures ElementToDict(cs[0]).Ok? && acc.VStr? ==> Collect(cs, acc) == Raised("TypeError")
    ensures ElementToDict(cs[0]).Ok? && acc.VDict? ==>
      Collect(cs, acc) == Collect(cs[1..], Absorb(acc, cs[0].tag, ElementToDict(cs[0]).value).value)
  {
  }

  /** A dict stored as XML keeps the UTF-8 encoding of its printed document. */
  lemma XmlRawData(libs: Libs, d: seq<Entry>, s: string)
    requires libs.xmlPretty(XmlRoot(libs, d)) == Some(s)
    ensures RawData(libs, VDict(d), XML) == Ok(Encode(libs, s))
  {
    assert DictToXml(libs, d) == Ok(s);
  }

  /** Extracting XML generic data as a dict parses the decoded document. */
  lemma XmlExtractDict(libs: Libs, g: GenericData, s: string)
    requires g.format == XML && Decode(libs, g.rawData) == Ok(s)
    ensures ExtractData(libs, g, "dict") == XmlToDict(libs, s)
  {
  }

  /** A document that parses into a tree resembling the printed one converts back into the dict. */
  lemma XmlParsedRoundTrip(libs: Libs, d: seq<Entry>, s: string, t: Element)
    requires PlainDict(d)
    requires libs.xmlParse(s) == Some(t) && Resembles(t, XmlRoot(libs, d))
    ensures XmlToDict(libs, s) == Ok(VDict(d))
  {
    XmlTreeRoundTrip(libs, d);
    ResemblesSameDict(t, XmlRoot(libs, d));
  }

  /**
   * A plain dict stored as XML generic data and extracted as a dict comes
   * back unchanged, as long as the printed document parses back into a tree
   * that resembles the one printed and its UTF-8 encoding decodes.
   */
  lemma XmlGenericRoundTrip(libs: Libs, d: seq<Entry>, contentType: string,
                            metadata: seq<(string, string)>, s: string, t: Element)
    requires PlainDict(d)
    requires libs.xmlPretty(XmlRoot(libs, d)) == Some(s)
    requires libs.utf8Decode(libs.utf8Encode(s)) == Some(s)
    requires libs.xmlParse(s) == Some(t) && Resembles(t, XmlRoot(libs, d))
    ensures GenericDataOf(libs, VDict(d), XML, contentType, metadata).Ok?
    ensures ExtractData(libs, GenericDataOf(libs, VDict(d), XML, contentType, metadata).value, "dict") ==
            Ok(VDict(d))
  {
    XmlRawData(libs, d, s);
    var g := GenericDataOf(libs, VDict(d), XML, contentType, metadata);
    assert g.Ok? && g.value.format == XML && g.value.rawData == Encode(libs, s);
    XmlExtractDict(libs, g.value, s);
    XmlParsedRoundTrip(libs, d, s, t);
  }

  // =====================================================================
  // list of dicts -> CSV -> list of dicts

  /** Every value is a string. */
  predicate StrEntries(d: seq<Entry>)
  {
    forall e :: e in d ==> e.val.VStr?
  }

  /** A non-empty list of string dicts that all have the first dict's keys, in the same order. */
  predicate UniformTable(items: seq<Value>)
  {
    && items != [] && items[0].VDict?
    && Keys(items[0].entries) != [] && DistinctKeys(items[0].entries)
    && forall i :: 0 <= i < |items| ==>
         items[i].VDict? && StrEntries(items[i].entries) && Keys(items[i].entries) == Keys(items[0].entries)
  }

  /** The values of a string dict, in order. */
  function Cells(d: seq<Entry>): (r: seq<string>)
    requires StrEntries(d)
    ensures |r| == |d| && forall j :: 0 <= j < |d| ==> r[j] == d[j].val.s
  {
    if d == [] then [] else [d[0].val.s] + Cells(d[1..])
  }

  function CellRows(items: seq<Value>): (r: seq<seq<string>>)
    requires forall i :: 0 <= i < |items| ==> items[i].VDict? && StrEntries(items[i].entries)
    ensures |r| == |items| && forall i :: 0 <= i < |items| ==> r[i] == Cells(items[i].entries)
  {
    if items == [] then [] else [Cells(items[0].entries)] + CellRows(items[1..])
  }

  /** The header row followed by one row of values per dict. */
  function Table(items: seq<Value>): seq<seq<string>>
    requires UniformTable(items)
  {
    [Keys(items[0].entries)] + CellRows(items)
  }

  lemma RowCellsOfStrDict(libs: Libs, d: seq<Entry>)
    requires StrEntries(d) && DistinctKeys(d)
    ensures RowCells(libs, Keys(d), d) == Cells(d)
  {
    var a, b := RowCells(libs, Keys(d), d), Cells(d);
    forall j | 0 <= j < |d| ensures a[j] == b[j] {
      LookupDistinct(d, j);
      assert d[j] in d;
      RowCellAt(libs, d, j);
    }
  }

  lemma RowCellAt(libs: Libs, d: seq<Entry>, j: nat)
    requires j < |d| && d[j].val.VStr? && Lookup(d, d[j].key) == Some(d[j].val)
    ensures RowCells(libs, Keys(d), d)[j] == d[j].val.s
  {
    var k := Keys(d)[j];
    assert k == d[j].key;
    var r := RowCells(libs, Keys(d), d);
    assert r[j] == Cell(libs, Get(d, k, VStr("")));
    assert Get(d, k, VStr("")) == d[j].val;
    CellOfStr(libs, d[j].val.s);
    assert d[j].val == VStr(d[j].val.s);
  }

  lemma CellOfStr(libs: Libs, s: string)
    ensures Cell(libs, VStr(s)) == s
  {
  }

  /** `DictWriter` writes the values of a dict whose keys are the field names, in order. */
  lemma DictRowOfStrDict(libs: Libs, d: seq<Entry>)
    requires StrEntries(d) && DistinctKeys(d)
    ensures DictRow(libs, Keys(d), VDict(d)) == Ok(Cells(d))
  {
    RowCellsOfStrDict(libs, d);
  }

  /** `writerows` of a uniform table writes one row of values per dict. */
  lemma DictRowsOfTable(libs: Libs, items: seq<Value>)
    requires UniformTable(items)
    ensures DictRows(libs, Keys(items[0].entries), items) == Ok(CellRows(items))
  {
    var fields := Keys(items[0].entries);
    forall i | 0 <= i < |items| ensures DictRow(libs, fields, items[i]) == Ok(Cells(items[i].entries)) {
      DictRowOfStrDict(libs, items[i].entries);
    }
    DictRowsOk(libs, fields, items);
    var r := DictRows(libs, fields, items);
    assert r.Ok?;
    assert |r.value| == |CellRows(items)|;
    DictRowsValues(libs, fields, items);
    forall i | 0 <= i < |items| ensures r.value[i] == CellRows(items)[i] {
      assert r.value[i] == DictRow(libs, fields, items[i]).value;
    }
    assert r.value == CellRows(items);
  }

  /** `_to_csv` of a uniform table writes its header and value rows. */
  lemma CsvRowsOfTable(libs: Libs, items: seq<Value>)
    requires UniformTable(items)
    ensures CsvRows(libs, VList(items)) == Ok(Table(items))
  {
    DictRowsOfTable(libs, items);
    assert CsvRows(libs, VList(items)) == TableRows(libs, items);
  }

  /** `DictReader` pairs the header with the row of a string dict's values and gets the dict back. */
  lemma {:induction false} RecordOfCells(d: seq<Entry>, acc: seq<Entry>)
    requires StrEntries(d) && DistinctKeys(d) && Disjoint(acc, d)
    ensures RecordFrom(Keys(d), Cells(d), acc) == acc + d
  {
    if d == [] {
      assert acc + d == acc;
    } else {
      assert Keys(d) == [d[0].key] + Keys(d[1..]);
      assert Cells(d) == [d[0].val.s] + Cells(d[1..]);
      assert d[0] in d;
      assert VStr(d[0].val.s) == d[0].val;
      FreshStep(acc, d);
      assert RecordFrom(Keys(d), Cells(d), acc) == RecordFrom(Keys(d[1..]), Cells(d[1..]), acc + [d[0]]);
      RecordOfCells(d[1..], acc + [d[0]]);
      ShiftHead(acc, d);
    }
  }

  /** `_csv_to_list` of the rows of a uniform table gives the table back. */
  lemma RecordsOfTable(items: seq<Value>)
    requires UniformTable(items)
    ensures Records(Keys(items[0].entries), CellRows(items)) == items
  {
    var fields := Keys(items[0].entries);
    var rows := CellRows(items);
    forall j | 0 <= j < |rows| ensures rows[j] != [] {
      assert |rows[j]| == |items[j].entries| == |Keys(items[j].entries)|;
    }
    var r := Records(fields, rows);
    forall j | 0 <= j < |items| ensures r[j] == items[j] {
      assert DistinctKeys(items[j].entries);
      RecordOfCells(items[j].entries, []);
      assert [] + items[j].entries == items[j].entries;
    }
  }

  /**
   * A uniform table written by `_to_csv` is read back by `_csv_to_list` as the
   * same list of dicts, as long as the csv reader reads back the rows the
   * writer wrote.
   */
  lemma CsvRoundTrip(libs: Libs, items: seq<Value>)
    requires UniformTable(items)
    requires libs.csvRead(CsvText(libs, Table(items))) == Table(items)
    ensures CsvOutput(libs, VList(items)) == Ok(CsvText(libs, Table(items)))
    ensures CsvToList(libs, CsvText(libs, Table(items))) == VList(items)
  {
    CsvRowsOfTable(libs, items);
    RecordsOfTable(items);
    assert Table(items)[1..] == CellRows(items);
  }

  /** The same trip through CSV generic data extracted as a list. */
  lemma CsvGenericRoundTrip(libs: Libs, items: seq<Value>, contentType: string,
                            metadata: seq<(string, string)>)
    requires UniformTable(items)
    requires libs.csvRead(CsvText(libs, Table(items))) == Table(items)
    requires libs.utf8Decode(libs.utf8Encode(CsvText(libs, Table(items)))) == Some(CsvText(libs, Table(items)))
    ensures GenericDataOf(libs, VList(items), CSV, contentType, metadata).Ok?
    ensures ExtractData(libs, GenericDataOf(libs, VList(items), CSV, contentType, metadata).value, "list") ==
            Ok(VList(items))
  {
    CsvRoundTrip(libs, items);
    var s := CsvText(libs, Table(items));
    CsvRawData(libs, items, s);
    var g := GenericDataOf(libs, VList(items), CSV, contentType, metadata);
    assert g.Ok? && g.value.format == CSV && g.value.rawData == Encode(libs, s);
    CsvExtractList(libs, g.value, s);
  }

  /** A list stored as CSV keeps the UTF-8 encoding of the text `_to_csv` wrote. */
  lemma CsvRawData(libs: Libs, items: seq<Value>, s: string)
    requires CsvOutput(libs, VList(items)) == Ok(s)
    ensures RawData(libs, VList(items), CSV) == Ok(Encode(libs, s))
  {
  }

  /** Extracting CSV generic data as a list reads the decoded text. */
  lemma CsvExtractList(libs: Libs, g: GenericData, s: string)
    requires g.format == CSV && Decode(libs, g.rawData) == Ok(s)
    ensures ExtractData(libs, g, "list") == Ok(CsvToList(libs, s))
  {
  }

  // =====================================================================
  // The other formats

  /** A dict or list stored as JSON comes back from `extract_data` when `json.loads` reads what was dumped. */
  lemma JsonGenericRoundTrip(libs: Libs, v: Value, returnType: string, contentType: string,
                             metadata: seq<(string, string)>)
    requires (v.VDict? || v.VList?) && JsonSerializable(v)
    requires returnType != "bytes"
    requires libs.utf8Decode(libs.utf8Encode(libs.jsonDumps(v))) == Some(libs.jsonDumps(v))
    requires libs.jsonLoads(libs.jsonDumps(v)) == Some(v)
    ensures GenericDataOf(libs, v, JSON, contentType, metadata).Ok?
    ensures ExtractData(libs, GenericDataOf(libs, v, JSON, contentType, metadata).value, returnType) == Ok(v)
  {
  }

  /** The same for YAML with `yaml.safe_load` and `yaml.dump`. */
  lemma YamlGenericRoundTrip(libs: Libs, v: Value, returnType: string, contentType: string,
                             metadata: seq<(string, string)>)
    requires v.VDict? || v.VList?
    requires returnType != "bytes"
    requires libs.utf8Decode(libs.utf8Encode(libs.yamlDump(v))) == Some(libs.yamlDump(v))
    requires libs.yamlSafeLoad(libs.yamlDump(v)) == Some(v)
    ensures GenericDataOf(libs, v, YAML, contentType, metadata).Ok?
    ensures ExtractData(libs, GenericDataOf(libs, v, YAML, contentType, metadata).value, returnType) == Ok(v)
  {
  }

  /** Text comes back as the same string. */
  lemma TextGenericRoundTrip(libs: Libs, s: string, returnType: string, contentType: string,
                             metadata: seq<(string, string)>)
    requires returnType != "bytes"
    requires libs.utf8Decode(libs.utf8Encode(s)) == Some(s)
    ensures GenericDataOf(libs, VStr(s), TEXT, contentType, metadata).Ok?
    ensures ExtractData(libs, GenericDataOf(libs, VStr(s), TEXT, contentType, metadata).value, returnType) ==
            Ok(VStr(s))
  {
  }

  /** Bytes come back unchanged, in any format, when bytes are asked for or the format is not text. */
  lemma BytesGenericRoundTrip(libs: Libs, b: bytes, f: DataFormat, returnType: string, contentType: string,
                              metadata: seq<(string, string)>)
    requires returnType == "bytes" || !IsTextFormat(f)
    ensures GenericDataOf(libs, VBytes(b), f, contentType, metadata).Ok?
    ensures ExtractData(libs, GenericDataOf(libs, VBytes(b), f, contentType, metadata).value, returnType) ==
            Ok(VBytes(b))
  {
  }

  // =====================================================================
  // Packets

  /** A string stored as JSON, XML or TEXT content is what `extract_packet_data` gives back. */
  lemma StringPacketRoundTrip(libs: Libs, env: Env, appId: string, dataType: string, sourceId: string,
                              s: string, f: DataFormat, metadata: seq<Entry>, timestamp: Option<Timestamp>,
                              schemaVersion: string, returnFormat: string)
    requires f == JSON || f == XML || f == TEXT
    requires f != TEXT ==> returnFormat != "dict"
    ensures PacketOf(libs, env, appId, dataType, sourceId, VStr(s), f, metadata, timestamp, schemaVersion).Ok?
    ensures ExtractPacketData(libs, PacketOf(libs, env, appId, dataType, sourceId, VStr(s), f, metadata,
                                             timestamp, schemaVersion).value, returnFormat) == Ok(VStr(s))
  {
  }

  /**
   * A dict stored as a JSON packet: asked for anything but "dict", the packet
   * gives back the JSON text and not the dict; asked for "dict", it gives the
   * dict back when `json.loads` reads what was dumped.
   */
  lemma JsonPacketRoundTrip(libs: Libs, env: Env, appId: string, dataType: string, sourceId: string,
                            d: seq<Entry>, metadata: seq<Entry>, timestamp: Option<Timestamp>,
                            schemaVersion: string, returnFormat: string)
    requires JsonSerializable(VDict(d))
    ensures PacketOf(libs, env, appId, dataType, sourceId, VDict(d), JSON, metadata, timestamp, schemaVersion).Ok?
    ensures returnFormat != "dict" ==>
      ExtractPacketData(libs, PacketOf(libs, env, appId, dataType, sourceId, VDict(d), JSON, metadata,
                                       timestamp, schemaVersion).value, returnFormat) ==
      Ok(VStr(libs.jsonDumps(VDict(d))))
    ensures returnFormat == "dict" && libs.jsonLoads(libs.jsonDumps(VDict(d))) == Some(VDict(d)) ==>
      ExtractPacketData(libs, PacketOf(libs, env, appId, dataType, sourceId, VDict(d), JSON, metadata,
                                       timestamp, schemaVersion).value, returnFormat) == Ok(VDict(d))
  {
  }

  /** Any other format is stored as generic data and extracted by `extract_data`. */
  lemma GenericPacketRoundTrip(libs: Libs, env: Env, appId: string, dataType: string, sourceId: string,
                               data: Value, f: DataFormat, metadata: seq<Entry>, timestamp: Option<Timestamp>,
                               schemaVersion: string, returnFormat: string)
    requires f !in {JSON, XML, TEXT}
    requires GenericDataOf(libs, data, f, "", []).Ok?
    ensures PacketOf(libs, env, appId, dataType, sourceId, data, f, metadata, timestamp, schemaVersion).Ok?
    ensures ExtractPacketData(libs, PacketOf(libs, env, appId, dataType, sourceId, data, f, metadata,
                                             timestamp, schemaVersion).value, returnFormat) ==
            ExtractData(libs, GenericDataOf(libs, data, f, "", []).value, returnFormat)
  {
  }
}
