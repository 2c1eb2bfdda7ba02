// The data-format codec of app/serializer.py (DataFormatHandler) and the
// builders of packets, alerts and notifications that use it.

module Serializer {
  import opened PyRuntime
  import opened Messages
  import opened Externals

  // =====================================================================
  // create_generic_data

  /** The content type used when the caller passes none. */
  function DefaultContentType(f: DataFormat): string
  {
    match f
    case JSON => "application/json"
    case XML => "application/xml"
    case CSV => "text/csv"
    case YAML => "application/x-yaml"
    case TEXT => "text/plain"
    case _ => "application/octet-stream"
  }

  /** `data if isinstance(data, bytes) else str(data).encode('utf-8')` */
  function BytesOrText(libs: Libs, data: Value): bytes
  {
    if data.VBytes? then data.bs else Encode(libs, PyStr(libs, data))
  }

  /**
   * The bytes stored for `data` in the given format.  Whatever the format,
   * bytes are stored unchanged and a string is stored as its UTF-8 encoding.
   */
  function RawData(libs: Libs, data: Value, f: DataFormat): (r: Result<bytes>)
    ensures data.VBytes? ==> r == Ok(data.bs)
    ensures data.VStr? ==> r == Ok(Encode(libs, data.s))
    ensures r.Raised? ==> f == JSON || f == XML || f == CSV
  {
    match f
    case JSON =>
      if data.VDict? || data.VList? then
        match JsonDumps(libs, data)
        case Ok(s) => Ok(Encode(libs, s))
        case Raised(e) => Raised(e)
      else if data.VStr? then Ok(Encode(libs, data.s))
      else if data.VBytes? then Ok(data.bs)
      else Raised("TypeError")
    case XML =>
      if data.VStr? then Ok(Encode(libs, data.s))
      else if data.VDict? then
        match DictToXml(libs, data.entries)
        case Ok(s) => Ok(Encode(libs, s))
        case Raised(e) => Raised(e)
      else if data.VBytes? then Ok(data.bs)
      else Raised("TypeError")
    case CSV =>
      if data.VList? || data.VDict? then
        match CsvOutput(libs, data)
        case Ok(s) => Ok(Encode(libs, s))
        case Raised(e) => Raised(e)
      else Ok(BytesOrText(libs, data))
    case YAML =>
      if data.VDict? || data.VList? then Ok(Encode(libs, libs.yamlDump(data)))
      else Ok(BytesOrText(libs, data))
    case _ => Ok(BytesOrText(libs, data))
  }

  /**
   * The format metadata: the caller's pairs in order, then "encoding" set to
   * "utf-8" for the text formats, overriding a caller-supplied value.
   */
  function FormatMetadata(f: DataFormat, metadata: seq<(string, string)>): (m: map<string, string>)
    ensures IsTextFormat(f) ==> "encoding" in m && m["encoding"] == "utf-8"
    ensures forall k :: k in m <==>
      (IsTextFormat(f) && k == "encoding") || exists i :: 0 <= i < |metadata| && metadata[i].0 == k
    ensures forall i ::
      (0 <= i < |metadata| && !(IsTextFormat(f) && metadata[i].0 == "encoding") &&
       forall j :: i < j < |metadata| ==> metadata[j].0 != metadata[i].0) ==>
        m[metadata[i].0] == metadata[i].1
  {
    var copied := AssignAll(map[], metadata);
    AssignAllKeys(map[], metadata);
    assert forall i :: 0 <= i < |metadata| && (forall j :: i < j < |metadata| ==> metadata[j].0 != metadata[i].0) ==>
      copied[metadata[i].0] == metadata[i].1 by {
      forall i | 0 <= i < |metadata| && (forall j :: i < j < |metadata| ==> metadata[j].0 != metadata[i].0)
        ensures copied[metadata[i].0] == metadata[i].1
      {
        AssignAllLastWins(map[], metadata, i);
      }
    }
    if IsTextFormat(f) then copied["encoding" := "utf-8"] else copied
  }

  /** The GenericData message `create_generic_data` returns. */
  function GenericDataOf(libs: Libs, data: Value, f: DataFormat, contentType: string,
                         metadata: seq<(string, string)>): (r: Result<GenericData>)
    ensures r.Ok? <==> RawData(libs, data, f).Ok?
    ensures r.Ok? ==>
      && r.value.format == f
      && r.value.rawData == RawData(libs, data, f).value
      && r.value.sizeBytes == |r.value.rawData|
      && r.value.checksum == libs.sha256Hex(r.value.rawData)
      && |r.value.checksum| == 64
      && r.value.contentType == (if contentType == "" then DefaultContentType(f) else contentType)
      && r.value.formatMetadata == FormatMetadata(f, metadata)
  {
    GenericOfRaw(libs, RawData(libs, data, f), f, contentType, metadata)
  }

  /** The message around stored bytes, or the exception raised while encoding them. */
  function GenericOfRaw(libs: Libs, raw: Result<bytes>, f: DataFormat, contentType: string,
                        metadata: seq<(string, string)>): Result<GenericData>
  {
    match raw
    case Raised(e) => Raised(e)
    case Ok(bs) =>
      Ok(GenericData(f, if contentType == "" then DefaultContentType(f) else contentType,
                     bs, |bs|, libs.sha256Hex(bs), FormatMetadata(f, metadata)))
  }

  /** `create_generic_data`: the data encoded, then the message filled field by field. */
  method CreateGenericData(libs: Libs, data: Value, f: DataFormat, contentType: string,
                           metadata: seq<(string, string)>) returns (r: Result<GenericData>)
    ensures r == GenericDataOf(libs, data, f, contentType, metadata)
  {
    var raw := RawData(libs, data, f);
    r := FillGeneric(libs, raw, f, contentType, metadata);
  }

  /** The fields of `create_generic_data` after encoding, the metadata copied in a loop. */
  method FillGeneric(libs: Libs, raw: Result<bytes>, f: DataFormat, contentType: string,
                     metadata: seq<(string, string)>) returns (r: Result<GenericData>)
    ensures r == GenericOfRaw(libs, raw, f, contentType, metadata)
  {
    if raw.Raised? {
      return Raised(raw.error);
    }
    var ct := if contentType == "" then DefaultContentType(f) else contentType;
    var m := CopyMetadata(metadata);
    if IsTextFormat(f) {
      m := m["encoding" := "utf-8"];
    }
    r := Ok(GenericData(f, ct, raw.value, |raw.value|, libs.sha256Hex(raw.value), m));
  }

  /** The loop of `create_generic_data` that copies the caller's metadata pairs into the message. */
  method CopyMetadata(metadata: seq<(string, string)>) returns (m: map<string, string>)
    ensures m == AssignAll(map[], metadata)
  {
    m := map[];
    var i := 0;
    while i < |metadata|
      invariant 0 <= i <= |metadata|
      invariant AssignAll(m, metadata[i..]) == AssignAll(map[], metadata)
    {
      assert metadata[i..][1..] == metadata[i + 1..];
      m := m[metadata[i].0 := metadata[i].1];
      i := i + 1;
    }
  }

  // =====================================================================
  // extract_data

  /** Bytes decoded as UTF-8 and parsed by `load`; unparsable text comes back as the string. */
  function LoadOrText(libs: Libs, raw: bytes, load: string -> Option<Value>): (r: Result<Value>)
    ensures Decode(libs, raw).Raised? ==> r == Raised(Decode(libs, raw).error)
    ensures Decode(libs, raw).Ok? && load(Decode(libs, raw).value).Some? ==>
      r == Ok(load(Decode(libs, raw).value).value)
    ensures Decode(libs, raw).Ok? && load(Decode(libs, raw).value).None? ==>
      r == Ok(VStr(Decode(libs, raw).value))
  {
    match Decode(libs, raw)
    case Raised(e) => Raised(e)
    case Ok(s) => Ok(load(s).GetOr(VStr(s)))
  }

  /** `extract_data(generic_data, return_type)` */
  function ExtractData(libs: Libs, g: GenericData, returnType: string): (r: Result<Value>)
    ensures returnType == "bytes" || !IsTextFormat(g.format) ==> r == Ok(VBytes(g.rawData))
    ensures g.format == TEXT && returnType != "bytes" && Decode(libs, g.rawData).Ok? ==>
      r == Ok(VStr(Decode(libs, g.rawData).value))
    ensures g.format == TEXT && returnType != "bytes" && Decode(libs, g.rawData).Raised? ==>
      r == Raised(Decode(libs, g.rawData).error)
    ensures g.format == JSON && returnType != "bytes" ==> r == LoadOrText(libs, g.rawData, libs.jsonLoads)
    ensures g.format == YAML && returnType != "bytes" ==> r == LoadOrText(libs, g.rawData, libs.yamlSafeLoad)
    ensures (g.format == XML || g.format == CSV) && returnType != "bytes" && Decode(libs, g.rawData).Raised? ==>
      r == Raised(Decode(libs, g.rawData).error)
    ensures g.format == XML && returnType == "dict" && Decode(libs, g.rawData).Ok? ==>
      r == XmlToDict(libs, Decode(libs, g.rawData).value)
    ensures g.format == XML && returnType != "dict" && returnType != "bytes" && Decode(libs, g.rawData).Ok? ==>
      r == Ok(VStr(Decode(libs, g.rawData).value))
    ensures g.format == CSV && returnType == "list" && Decode(libs, g.rawData).Ok? ==>
      r == Ok(CsvToList(libs, Decode(libs, g.rawData).value))
    ensures g.format == CSV && returnType != "list" && returnType != "bytes" && Decode(libs, g.rawData).Ok? ==>
      r == Ok(VStr(Decode(libs, g.rawData).value))
  {
    if returnType == "bytes" then Ok(VBytes(g.rawData))
    else match g.format
      case JSON => LoadOrText(libs, g.rawData, libs.jsonLoads)
      case XML =>
        (match Decode(libs, g.rawData)
         case Raised(e) => Raised(e)
         case Ok(s) => if returnType == "dict" then XmlToDict(libs, s) else Ok(VStr(s)))
      case CSV =>
        (match Decode(libs, g.rawData)
         case Raised(e) => Raised(e)
         case Ok(s) => if returnType == "list" then Ok(CsvToList(libs, s)) else Ok(VStr(s)))
      case YAML => LoadOrText(libs, g.rawData, libs.yamlSafeLoad)
      case TEXT =>
        (match Decode(libs, g.rawData) case Ok(s) => Ok(VStr(s)) case Raised(e) => Raised(e))
      case _ => Ok(VBytes(g.rawData))
  }

  // =====================================================================
  // dict -> XML: _dict_to_xml, _dict_to_xml_element

  /** The child elements `_dict_to_xml_element(d, parent)` appends, one per key, in order. */
  function DictChildren(libs: Libs, d: seq<Entry>): (cs: seq<Element>)
    ensures |cs| == |d|
    ensures forall i :: 0 <= i < |d| ==> cs[i] == EntryElement(libs, d[i])
    decreases d
  {
    if d == [] then [] else [EntryElement(libs, d[0])] + DictChildren(libs, d[1..])
  }

  /** The element for one key: a dict nests, a list becomes `item` children, a scalar becomes text. */
  function EntryElement(libs: Libs, e: Entry): (el: Element)
    ensures el.tag == e.key
    decreases e
  {
    match e.val
    case VDict(d) => Element(e.key, "", DictChildren(libs, d))
    case VList(items) => Element(e.key, "", ItemElements(libs, items))
    case v => Element(e.key, PyStr(libs, v), [])
  }

  function ItemElements(libs: Libs, items: seq<Value>): (cs: seq<Element>)
    ensures |cs| == |items|
    ensures forall i :: 0 <= i < |items| ==> cs[i] == ItemElement(libs, items[i])
    decreases items
  {
    if items == [] then [] else [ItemElement(libs, items[0])] + ItemElements(libs, items[1..])
  }

  function ItemElement(libs: Libs, v: Value): (el: Element)
    ensures el.tag == "item"
    decreases v
  {
    match v
    case VDict(d) => Element("item", "", DictChildren(libs, d))
    case _ => Element("item", PyStr(libs, v), [])
  }

  lemma DictChildrenSnoc(libs: Libs, d: seq<Entry>, i: nat)
    requires i < |d|
    ensures DictChildren(libs, d[..i + 1]) == DictChildren(libs, d[..i]) + [EntryElement(libs, d[i])]
  {
    var a, b := DictChildren(libs, d[..i + 1]), DictChildren(libs, d[..i]) + [EntryElement(libs, d[i])];
    assert |a| == |b|;
    forall k | 0 <= k < |a| ensures a[k] == b[k] {
      assert d[..i + 1][k] == if k < i then d[..i][k] else d[i];
    }
  }

  lemma ItemElementsSnoc(libs: Libs, items: seq<Value>, j: nat)
    requires j < |items|
    ensures ItemElements(libs, items[..j + 1]) == ItemElements(libs, items[..j]) + [ItemElement(libs, items[j])]
  {
    var a, b := ItemElements(libs, items[..j + 1]), ItemElements(libs, items[..j]) + [ItemElement(libs, items[j])];
    assert |a| == |b|;
    forall k | 0 <= k < |a| ensures a[k] == b[k] {
      assert items[..j + 1][k] == if k < j then items[..j][k] else items[j];
    }
  }

  /** The tree `_dict_to_xml` builds before printing it: a `data` root. */
  function XmlRoot(libs: Libs, d: seq<Entry>): (el: Element)
    ensures el.tag == "data" && el.text == "" && |el.children| == |d|
    ensures forall i :: 0 <= i < |d| ==> el.children[i].tag == d[i].key
  {
    Element("data", "", DictChildren(libs, d))
  }

  /** `_dict_to_xml(d)`: the pretty-printed document; minidom raises on a malformed one. */
  function DictToXml(libs: Libs, d: seq<Entry>): (r: Result<string>)
    ensures r.Ok? <==> libs.xmlPretty(XmlRoot(libs, d)).Some?
    ensures r.Ok? ==> r.value == libs.xmlPretty(XmlRoot(libs, d)).value
    ensures r.Raised? ==> r.error == "ExpatError"
  {
    match libs.xmlPretty(XmlRoot(libs, d))
    case Some(s) => Ok(s)
    case None => Raised("ExpatError")
  }

  /**
   * `_dict_to_xml_element(d, parent)`: appends one child per key to `parent`,
   * in the dict's order.
   */
  method DictToXmlElement(libs: Libs, d: seq<Entry>, parent: Element) returns (p: Element)
    ensures p == parent.(children := parent.children + DictChildren(libs, d))
    decreases d
  {
    p := parent;
    var i := 0;
    while i < |d|
      invariant 0 <= i <= |d|
      invariant p == parent.(children := parent.children + DictChildren(libs, d[..i]))
    {
      var child := EntryToXmlElement(libs, d[i]);
      DictChildrenSnoc(libs, d, i);
      p := p.(children := p.children + [child]);
      i := i + 1;
    }
    assert d[..i] == d;
  }

  /** One turn of that loop: the child for `key` filled from `value`. */
  method EntryToXmlElement(libs: Libs, entry: Entry) returns (child: Element)
    ensures child == EntryElement(libs, entry)
    decreases entry
  {
    child := Element(entry.key, "", []);
    match entry.val {
      case VDict(sub) =>
        child := DictToXmlElement(libs, sub, child);
      case VList(items) =>
        child := ListToXmlItems(libs, items, child);
      case other =>
        child := child.(text := PyStr(libs, other));
    }
  }

  /** A list value: one `item` child per element, a dict element filled recursively. */
  method ListToXmlItems(libs: Libs, items: seq<Value>, parent: Element) returns (p: Element)
    ensures p == parent.(children := parent.children + ItemElements(libs, items))
    decreases items
  {
    p := parent;
    var j := 0;
    while j < |items|
      invariant 0 <= j <= |items|
      invariant p == parent.(children := parent.children + ItemElements(libs, items[..j]))
    {
      var itemElem := Element("item", "", []);
      match items[j] {
        case VDict(sub) =>
          itemElem := DictToXmlElement(libs, sub, itemElem);
        case other =>
          itemElem := itemElem.(text := PyStr(libs, other));
      }
      assert itemElem == ItemElement(libs, items[j]);
      ItemElementsSnoc(libs, items, j);
      p := p.(children := p.children + [itemElem]);
      j := j + 1;
    }
    assert items[..j] == items;
  }

  // =====================================================================
  // XML -> dict: _xml_to_dict, _xml_element_to_dict

  /**
   * `_xml_element_to_dict(e)`: the stripped text of a text element, otherwise a
   * dict of its children by tag.  An element with both text and children makes
   * the code index a str, which raises TypeError.
   */
  function ElementToDict(e: Element): (r: Result<Value>)
    ensures r.Ok? ==> r.value.VStr? || r.value.VDict?
    decreases e, 1
  {
    Collect(e.children, if Strip(e.text) != "" then VStr(Strip(e.text)) else VDict([]))
  }

  /** Folds the children into `acc` in document order. */
  function Collect(cs: seq<Element>, acc: Value): (r: Result<Value>)
    requires acc.VStr? || acc.VDict?
    ensures r.Ok? ==> r.value.VStr? || r.value.VDict?
    decreases cs, 0
  {
    if cs == [] then Ok(acc)
    else match ElementToDict(cs[0])
      case Raised(e) => Raised(e)
      case Ok(v) =>
        match Absorb(acc, cs[0].tag, v)
        case Raised(e) => Raised(e)
        case Ok(rest) => Collect(cs[1..], rest)
  }

  /** One child's value entered under its tag: a repeated tag turns the entry into a list. */
  function Absorb(acc: Value, tag: string, v: Value): (r: Result<Value>)
    ensures r.Ok? <==> acc.VDict?
    ensures r.Ok? ==> r.value.VDict?
  {
    match acc
    case VDict(d) =>
      Ok(VDict(match Lookup(d, tag)
               case None => Put(d, tag, v)
               case Some(VList(items)) => Put(d, tag, VList(items + [v]))
               case Some(prev) => Put(d, tag, VList([prev, v]))))
    case _ => Raised("TypeError")
  }

  /** `_xml_to_dict(s)`: ElementTree raises ParseError on malformed text. */
  function XmlToDict(libs: Libs, s: string): (r: Result<Value>)
    ensures libs.xmlParse(s).None? ==> r == Raised("ParseError")
    ensures libs.xmlParse(s).Some? ==> r == ElementToDict(libs.xmlParse(s).value)
    ensures r.Ok? ==> r.value.VStr? || r.value.VDict?
  {
    match libs.xmlParse(s)
    case None => Raised("ParseError")
    case Some(root) => ElementToDict(root)
  }

  /** A child that converts and is absorbed passes the fold on to the remaining children. */
  lemma CollectCons(cs: seq<Element>, acc: Value, v: Value, after: Value)
    requires cs != [] && (acc.VStr? || acc.VDict?)
    requires ElementToDict(cs[0]) == Ok(v) && Absorb(acc, cs[0].tag, v) == Ok(after)
    ensures Collect(cs, acc) == Collect(cs[1..], after)
  {
  }

  /** The loop body's update of `result` for one child: a repeated tag collects its values in a list. */
  method AddChild(d: seq<Entry>, tag: string, v: Value) returns (next: seq<Entry>)
    ensures Absorb(VDict(d), tag, v) == Ok(VDict(next))
  {
    match Lookup(d, tag) {
      case None =>
        next := Put(d, tag, v);
      case Some(VList(items)) =>
        next := Put(d, tag, VList(items + [v]));
      case Some(prev) =>
        next := Put(d, tag, VList([prev, v]));
    }
  }

  /** `_xml_element_to_dict` as the code runs it: a loop over the children that updates `result`. */
  method XmlElementToDict(e: Element) returns (r: Result<Value>)
    ensures r == ElementToDict(e)
    decreases e
  {
    var result := if Strip(e.text) != "" then VStr(Strip(e.text)) else VDict([]);
    var i := 0;
    assert e.children[i..] == e.children;
    while i < |e.children|
      invariant 0 <= i <= |e.children|
      invariant result.VStr? || result.VDict?
      invariant Collect(e.children[i..], result) == ElementToDict(e)
    {
      var child := e.children[i];
      assert e.children[i..][0] == child && e.children[i..][1..] == e.children[i + 1..];
      var childData := XmlElementToDict(child);
      if childData.Raised? {
        return Raised(childData.error);
      }
      if !result.VDict? {
        return Raised("TypeError");
      }
      var next := AddChild(result.entries, child.tag, childData.value);
      CollectCons(e.children[i..], result, childData.value, VDict(next));
      result := VDict(next);
      i := i + 1;
    }
    assert e.children[i..] == [];
    return Ok(result);
  }

  // =====================================================================
  // _to_csv

  /** The text the csv module writes for one value: None is empty, everything else is `str()`. */
  function Cell(libs: Libs, v: Value): string
  {
    if v.VNone? then "" else PyStr(libs, v)
  }

  /**
   * `DictWriter` on one row: AttributeError for a non-dict row, ValueError for a
   * key outside the field names, otherwise one cell per field name with "" for
   * a missing key.
   */
  function DictRow(libs: Libs, fields: seq<string>, row: Value): (r: Result<seq<string>>)
    ensures r.Ok? <==> row.VDict? && forall k :: k in Keys(row.entries) ==> k in fields
    ensures r.Ok? ==> (|r.value| == |fields| &&
      forall i :: 0 <= i < |fields| ==> r.value[i] == Cell(libs, Get(row.entries, fields[i], VStr(""))))
  {
    if !row.VDict? then Raised("AttributeError")
    else if exists k :: k in Keys(row.entries) && k !in fields then Raised("ValueError")
    else Ok(RowCells(libs, fields, row.entries))
  }

  /** One cell per field name: the dict's value, "" where the key is missing. */
  function RowCells(libs: Libs, fields: seq<string>, d: seq<Entry>): (r: seq<string>)
    ensures |r| == |fields| && forall i :: 0 <= i < |fields| ==> r[i] == Cell(libs, Get(d, fields[i], VStr("")))
  {
    seq(|fields|, i requires 0 <= i < |fields| => Cell(libs, Get(d, fields[i], VStr(""))))
  }

  /** `writerows(items)`: the rows in order, or the first row's error. */
  function DictRows(libs: Libs, fields: seq<string>, items: seq<Value>): (r: Result<seq<seq<string>>>)
    ensures r.Ok? ==> |r.value| == |items|
    decreases |items|
  {
    if items == [] then Ok([])
    else
      var init := items[..|items| - 1];
      match DictRows(libs, fields, init)
      case Raised(e) => Raised(e)
      case Ok(rows) =>
        match DictRow(libs, fields, items[|items| - 1])
        case Raised(e) => Raised(e)
        case Ok(row) => Ok(rows + [row])
  }

  /** `writerows` succeeds exactly when every item is a dict whose keys are field names. */
  lemma {:induction false} DictRowsOk(libs: Libs, fields: seq<string>, items: seq<Value>)
    ensures DictRows(libs, fields, items).Ok? <==> forall i :: 0 <= i < |items| ==> DictRow(libs, fields, items[i]).Ok?
    decreases |items|
  {
    if items != [] {
      var init := items[..|items| - 1];
      DictRowsOk(libs, fields, init);
      assert forall i :: 0 <= i < |init| ==> init[i] == items[i];
    }
  }

  /** The i-th row written is the i-th item's row. */
  lemma {:induction false} DictRowsAt(libs: Libs, fields: seq<string>, items: seq<Value>, i: nat)
    requires i < |items| && DictRows(libs, fields, items).Ok?
    ensures DictRow(libs, fields, items[i]).Ok? &&
      DictRows(libs, fields, items).value[i] == DictRow(libs, fields, items[i]).value
    decreases |items|
  {
    var init := items[..|items| - 1];
    assert DictRows(libs, fields, init).Ok? && DictRow(libs, fields, items[|items| - 1]).Ok?;
    var rows := DictRows(libs, fields, init).value;
    var row := DictRow(libs, fields, items[|items| - 1]).value;
    assert DictRows(libs, fields, items).value == rows + [row];
    if i < |init| {
      DictRowsAt(libs, fields, init, i);
      assert init[i] == items[i];
      assert (rows + [row])[i] == rows[i];
    } else {
      assert (rows + [row])[i] == row;
    }
  }

  lemma DictRowsValues(libs: Libs, fields: seq<string>, items: seq<Value>)
    requires DictRows(libs, fields, items).Ok?
    ensures forall i :: 0 <= i < |items| ==>
      DictRow(libs, fields, items[i]).Ok? && DictRows(libs, fields, items).value[i] == DictRow(libs, fields, items[i]).value
  {
    forall i | 0 <= i < |items| ensures DictRow(libs, fields, items[i]).Ok? &&
      DictRows(libs, fields, items).value[i] == DictRow(libs, fields, items[i]).value
    {
      DictRowsAt(libs, fields, items, i);
    }
  }

  lemma {:induction false} DictRowsPrefixRaised(libs: Libs, fields: seq<string>, items: seq<Value>, j: nat)
    requires j <= |items| && DictRows(libs, fields, items[..j]).Raised?
    ensures DictRows(libs, fields, items) == DictRows(libs, fields, items[..j])
    decreases |items|
  {
    if j < |items| {
      var init := items[..|items| - 1];
      assert init[..j] == items[..j];
      DictRowsPrefixRaised(libs, fields, init, j);
    } else {
      assert items[..j] == items;
    }
  }

  /** The header row and one row per dict, for a list whose first element is a dict. */
  function TableRows(libs: Libs, items: seq<Value>): (r: Result<seq<seq<string>>>)
    requires items != [] && items[0].VDict?
    ensures var fields := Keys(items[0].entries);
      && (r.Ok? <==> DictRows(libs, fields, items).Ok?)
      && (r.Ok? ==> r.value == [fields] + DictRows(libs, fields, items).value)
  {
    var fields := Keys(items[0].entries);
    match DictRows(libs, fields, items)
    case Raised(e) => Raised(e)
    case Ok(rows) => Ok([fields] + rows)
  }

  /** One `key,value` row per entry of a dict. */
  function PairRows(libs: Libs, d: seq<Entry>): (r: seq<seq<string>>)
    ensures |r| == |d| && forall i :: 0 <= i < |d| ==> r[i] == [d[i].key, Cell(libs, d[i].val)]
  {
    seq(|d|, i requires 0 <= i < |d| => [d[i].key, Cell(libs, d[i].val)])
  }

  /** The fallback rows: a list item is a row of its own, any other item a one-cell row. */
  function ItemRow(libs: Libs, item: Value): (row: seq<string>)
  {
    match item
    case VList(xs) => seq(|xs|, i requires 0 <= i < |xs| => Cell(libs, xs[i]))
    case _ => [Cell(libs, item)]
  }

  function ItemRows(libs: Libs, items: seq<Value>): (r: seq<seq<string>>)
    ensures |r| == |items| && forall i :: 0 <= i < |items| ==> r[i] == ItemRow(libs, items[i])
  {
    seq(|items|, i requires 0 <= i < |items| => ItemRow(libs, items[i]))
  }

  /**
   * The rows `_to_csv` writes, or the exception the csv module raises: a list
   * of dicts gives a header and one row per dict, a dict one row per key,
   * anything else one row per item.
   */
  function CsvRows(libs: Libs, data: Value): (r: Result<seq<seq<string>>>)
    ensures data.VList? && data.items != [] && data.items[0].VDict? ==> r == TableRows(libs, data.items)
    ensures data.VDict? ==> r == Ok(PairRows(libs, data.entries))
    ensures data.VList? && (data.items == [] || !data.items[0].VDict?) ==> r == Ok(ItemRows(libs, data.items))
  {
    if data.VList? && data.items != [] && data.items[0].VDict? then TableRows(libs, data.items)
    else if data.VList? then Ok(ItemRows(libs, data.items))
    else if data.VDict? then Ok(PairRows(libs, data.entries))
    else Ok([[Cell(libs, data)]])
  }

  /**
   * A list led by a dict: the header is the first dict's keys and each item
   * gives one row, or the writer raises when some item cannot be written.
   */
  lemma CsvRowsOfDicts(libs: Libs, items: seq<Value>)
    requires items != [] && items[0].VDict?
    ensures var fields := Keys(items[0].entries); var r := CsvRows(libs, VList(items));
      && (r.Ok? <==> forall i :: 0 <= i < |items| ==> DictRow(libs, fields, items[i]).Ok?)
      && (r.Ok? ==> (|r.value| == |items| + 1 && r.value[0] == fields &&
           forall i :: 0 <= i < |items| ==> r.value[i + 1] == DictRow(libs, fields, items[i]).value))
  {
    var fields := Keys(items[0].entries);
    var r := CsvRows(libs, VList(items));
    var rows := DictRows(libs, fields, items);
    assert r == TableRows(libs, items);
    DictRowsOk(libs, fields, items);
    if rows.Ok? {
      assert r.value == [fields] + rows.value;
      forall i | 0 <= i < |items| ensures r.value[i + 1] == DictRow(libs, fields, items[i]).value {
        DictRowsAt(libs, fields, items, i);
        assert r.value[i + 1] == rows.value[i];
      }
    }
  }

  /** What the buffer holds after the rows are written one after the other. */
  function CsvText(libs: Libs, rows: seq<seq<string>>): string
    decreases |rows|
  {
    if rows == [] then "" else CsvText(libs, rows[..|rows| - 1]) + libs.csvLine(rows[|rows| - 1])
  }

  /** `_to_csv(data)` */
  function CsvOutput(libs: Libs, data: Value): Result<string>
  {
    match CsvRows(libs, data)
    case Ok(rows) => Ok(CsvText(libs, rows))
    case Raised(e) => Raised(e)
  }

  /** Appending one row to the buffer. */
  lemma CsvTextSnoc(libs: Libs, rows: seq<seq<string>>, row: seq<string>)
    ensures CsvText(libs, rows + [row]) == CsvText(libs, rows) + libs.csvLine(row)
  {
    assert (rows + [row])[..|rows + [row]| - 1] == rows;
  }

  /** `_to_csv` as the code runs it: rows written into a string buffer one at a time. */
  method ToCsv(libs: Libs, data: Value) returns (r: Result<string>)
    ensures r == CsvOutput(libs, data)
  {
    match data {
      case VList(items) =>
        if items != [] && items[0].VDict? {
          r := WriteTable(libs, items);
        } else {
          var out := WriteRows(libs, ItemRows(libs, items));
          r := Ok(out);
        }
      case VDict(d) =>
        var out := WriteRows(libs, PairRows(libs, d));
        r := Ok(out);
      case _ =>
        var out := WriteRows(libs, [[Cell(libs, data)]]);
        r := Ok(out);
    }
  }

  /** `csv.writer`: each row written in turn. */
  method WriteRows(libs: Libs, rows: seq<seq<string>>) returns (out: string)
    ensures out == CsvText(libs, rows)
  {
    out := "";
    var i := 0;
    while i < |rows|
      invariant 0 <= i <= |rows|
      invariant out == CsvText(libs, rows[..i])
    {
      CsvTextSnoc(libs, rows[..i], rows[i]);
      assert rows[..i] + [rows[i]] == rows[..i + 1];
      out := out + libs.csvLine(rows[i]);
      i := i + 1;
    }
    assert rows[..i] == rows;
  }

  /** The rows of one more item: those of the items before it and then its own, or its error. */
  lemma DictRowsStep(libs: Libs, fields: seq<string>, items: seq<Value>, i: nat)
    requires i < |items| && DictRows(libs, fields, items[..i]).Ok?
    ensures DictRow(libs, fields, items[i]).Raised? ==>
      DictRows(libs, fields, items[..i + 1]) == Raised(DictRow(libs, fields, items[i]).error)
    ensures DictRow(libs, fields, items[i]).Ok? ==>
      DictRows(libs, fields, items[..i + 1]) ==
      Ok(DictRows(libs, fields, items[..i]).value + [DictRow(libs, fields, items[i]).value])
  {
    assert items[..i + 1][..i] == items[..i];
  }

  /** Writing one more good row extends the table text by that row's line. */
  lemma TableTextStep(libs: Libs, fields: seq<string>, items: seq<Value>, i: nat)
    requires i < |items| && DictRows(libs, fields, items[..i]).Ok? && DictRow(libs, fields, items[i]).Ok?
    ensures DictRows(libs, fields, items[..i + 1]).Ok?
    ensures CsvText(libs, [fields] + DictRows(libs, fields, items[..i + 1]).value) ==
      CsvText(libs, [fields] + DictRows(libs, fields, items[..i]).value) + libs.csvLine(DictRow(libs, fields, items[i]).value)
  {
    DictRowsStep(libs, fields, items, i);
    var done := DictRows(libs, fields, items[..i]).value;
    var row := DictRow(libs, fields, items[i]).value;
    CsvTextSnoc(libs, [fields] + done, row);
    assert [fields] + done + [row] == [fields] + (done + [row]);
  }

  /** `csv.DictWriter`: `writeheader()` and then `writerows(items)`, stopping at the first bad row. */
  method WriteTable(libs: Libs, items: seq<Value>) returns (r: Result<string>)
    requires items != [] && items[0].VDict?
    ensures TableRows(libs, items).Ok? ==> r == Ok(CsvText(libs, TableRows(libs, items).value))
    ensures TableRows(libs, items).Raised? ==> r == Raised(TableRows(libs, items).error)
  {
    var fields := Keys(items[0].entries);
    CsvTextSnoc(libs, [], fields);
    var out := libs.csvLine(fields);
    var i := 0;
    while i < |items|
      invariant 0 <= i <= |items|
      invariant DictRows(libs, fields, items[..i]).Ok?
      invariant out == CsvText(libs, [fields] + DictRows(libs, fields, items[..i]).value)
    {
      var row := DictRow(libs, fields, items[i]);
      if row.Raised? {
        DictRowsStep(libs, fields, items, i);
        DictRowsPrefixRaised(libs, fields, items, i + 1);
        return Raised(row.error);
      }
      TableTextStep(libs, fields, items, i);
      out := out + libs.csvLine(row.value);
      i := i + 1;
    }
    assert items[..i] == items;
    return Ok(out);
  }

  // =====================================================================
  // _csv_to_list

  /** Every value is a string or None. */
  predicate StringValued(d: seq<Entry>)
  {
    forall e :: e in d ==> e.val.VStr? || e.val.VNone?
  }

  /** `DictReader` on one row: header names paired with cells, None for missing cells. */
  function RecordFrom(header: seq<string>, row: seq<string>, acc: seq<Entry>): (r: seq<Entry>)
    ensures forall k :: k in Keys(r) <==> k in Keys(acc) || k in header
    ensures StringValued(acc) ==> StringValued(r)
    decreases |header|
  {
    if header == [] then acc
    else if row == [] then
      PutKeys(acc, header[0], VNone);
      RecordFrom(header[1..], [], Put(acc, header[0], VNone))
    else
      PutKeys(acc, header[0], VStr(row[0]));
      RecordFrom(header[1..], row[1..], Put(acc, header[0], VStr(row[0])))
  }

  function Record(header: seq<string>, row: seq<string>): (r: seq<Entry>)
    ensures forall k :: k in Keys(r) <==> k in header
    ensures StringValued(r)
  {
    RecordFrom(header, row, [])
  }

  /** One record per data row; empty rows are skipped. */
  function Records(header: seq<string>, rows: seq<seq<string>>): (r: seq<Value>)
    ensures |r| <= |rows|
    ensures forall v :: v in r ==> (v.VDict? && StringValued(v.entries) &&
      forall k :: k in Keys(v.entries) <==> k in header)
    ensures (forall j :: 0 <= j < |rows| ==> rows[j] != []) ==>
      |r| == |rows| && forall j :: 0 <= j < |rows| ==> r[j] == VDict(Record(header, rows[j]))
  {
    if rows == [] then []
    else if rows[0] == [] then Records(header, rows[1..])
    else [VDict(Record(header, rows[0]))] + Records(header, rows[1..])
  }

  /**
   * `_csv_to_list(s)`: the first row is the header; every other non-empty row
   * becomes a dict over exactly the header's names, whose values are strings or None.
   */
  function CsvToList(libs: Libs, s: string): (r: Value)
    ensures r.VList?
    ensures var rows := libs.csvRead(s);
      rows != [] ==> forall v :: v in r.items ==>
        v.VDict? && StringValued(v.entries) && forall k :: k in Keys(v.entries) <==> k in rows[0]
    ensures libs.csvRead(s) == [] ==> r == VList([])
  {
    var rows := libs.csvRead(s);
    if rows == [] then VList([]) else VList(Records(rows[0], rows[1..]))
  }

  // =====================================================================
  // Packet, alert and notification builders

  /** `for key, value in d.items(): m[key] = str(value)` into an empty protobuf map. */
  method CopyAsStrings(libs: Libs, d: seq<Entry>) returns (m: map<string, string>)
    ensures m == StrMap(libs, d)
  {
    m := map[];
    var i := 0;
    assert d[0..] == d;
    while i < |d|
      invariant 0 <= i <= |d|
      invariant AssignAll(m, StrPairs(libs, d[i..])) == StrMap(libs, d)
    {
      assert d[i..][1..] == d[i + 1..];
      m := m[d[i].key := PyStr(libs, d[i].val)];
      i := i + 1;
    }
  }

  /**
   * `create_data_packet_generic`: JSON, XML and TEXT content go in their own
   * string field, every other format in `generic_data`; exactly one content
   * field is set.
   */
  function PacketOf(libs: Libs, env: Env, appId: string, dataType: string, sourceId: string,
                    data: Value, f: DataFormat, metadata: seq<Entry>, timestamp: Option<Timestamp>,
                    schemaVersion: string): (r: Result<DataPacket>)
    ensures r.Ok? ==>
      && r.value.packetId == env.uuid(0)
      && r.value.appId == appId && r.value.dataType == dataType && r.value.sourceId == sourceId
      && r.value.schemaVersion == schemaVersion
      && r.value.timestamp == timestamp.GetOr(env.now)
      && r.value.metadata == StrMap(libs, metadata)
      && r.value.payload.None?
      && (r.value.jsonData.Some? <==> f == JSON)
      && r.value.xmlData == (if f == XML then Some(PyStr(libs, data)) else None)
      && r.value.textData == (if f == TEXT then Some(PyStr(libs, data)) else None)
      && (r.value.genericData.Some? <==> f !in {JSON, XML, TEXT})
    ensures f == JSON ==> (r.Ok? <==> data.VStr? || JsonSerializable(data))
    ensures f == JSON && r.Ok? ==>
      r.value.jsonData == Some(if data.VStr? then data.s else libs.jsonDumps(data))
    ensures f !in {JSON, XML, TEXT} ==>
      && (r.Ok? <==> GenericDataOf(libs, data, f, "", []).Ok?)
      && (r.Ok? ==> r.value.genericData == Some(GenericDataOf(libs, data, f, "", []).value))
    ensures f == XML || f == TEXT ==> r.Ok?
  {
    var base := DataPacket(env.uuid(0), appId, dataType, sourceId, schemaVersion,
                           timestamp.GetOr(env.now), StrMap(libs, metadata),
                           None, None, None, None, None);
    WithContent(libs, base, data, f)
  }

  /** The content step of `create_data_packet_generic`: the one field the format selects. */
  function WithContent(libs: Libs, base: DataPacket, data: Value, f: DataFormat): Result<DataPacket>
  {
    if f == JSON then
      if data.VStr? then Ok(base.(jsonData := Some(data.s)))
      else (match JsonDumps(libs, data)
            case Ok(s) => Ok(base.(jsonData := Some(s)))
            case Raised(e) => Raised(e))
    else if f == XML then Ok(base.(xmlData := Some(PyStr(libs, data))))
    else if f == TEXT then Ok(base.(textData := Some(PyStr(libs, data))))
    else
      match GenericDataOf(libs, data, f, "", [])
      case Ok(g) => Ok(base.(genericData := Some(g)))
      case Raised(e) => Raised(e)
  }

  /** `create_data_packet_generic` as the code runs it. */
  method CreateDataPacketGeneric(libs: Libs, env: Env, appId: string, dataType: string, sourceId: string,
                                 data: Value, f: DataFormat, metadata: seq<Entry>,
                                 timestamp: Option<Timestamp>, schemaVersion: string)
    returns (r: Result<DataPacket>)
    ensures r == PacketOf(libs, env, appId, dataType, sourceId, data, f, metadata, timestamp, schemaVersion)
  {
    var ts := timestamp.GetOr(env.now);
    var m := CopyAsStrings(libs, metadata);
    var packet := DataPacket(env.uuid(0), appId, dataType, sourceId, schemaVersion, ts, m,
                             None, None, None, None, None);
    r := FillContent(libs, packet, data, f);
  }

  /** The content branches of `create_data_packet_generic`, filling the packet's field for the format. */
  method FillContent(libs: Libs, packet: DataPacket, data: Value, f: DataFormat) returns (r: Result<DataPacket>)
    ensures r == WithContent(libs, packet, data, f)
  {
    if f == JSON {
      if data.VStr? {
        return Ok(packet.(jsonData := Some(data.s)));
      }
      var s := JsonDumps(libs, data);
      if s.Raised? {
        return Raised(s.error);
      }
      return Ok(packet.(jsonData := Some(s.value)));
    } else if f == XML {
      return Ok(packet.(xmlData := Some(PyStr(libs, data))));
    } else if f == TEXT {
      return Ok(packet.(textData := Some(PyStr(libs, data))));
    }
    var g := CreateGenericData(libs, data, f, "", []);
    if g.Raised? {
      return Raised(g.error);
    }
    return Ok(packet.(genericData := Some(g.value)));
  }

  /** `create_data_packet`: the legacy packet carrying a serialised protobuf payload. */
  method CreateDataPacket(libs: Libs, env: Env, appId: string, dataType: string, sourceId: string,
                          payload: bytes, metadata: seq<Entry>, timestamp: Option<Timestamp>)
    returns (p: DataPacket)
    ensures p.packetId == env.uuid(0) && p.appId == appId && p.dataType == dataType
    ensures p.sourceId == sourceId && p.schemaVersion == ""
    ensures p.payload == Some(payload)
    ensures p.jsonData.None? && p.xmlData.None? && p.textData.None? && p.genericData.None?
    ensures p.timestamp == timestamp.GetOr(env.now)
    ensures p.metadata == StrMap(libs, metadata)
  {
    p := DataPacket(env.uuid(0), appId, dataType, sourceId, "", Timestamp(0, 0), map[],
                    None, None, None, None, Some(payload));
    p := p.(timestamp := timestamp.GetOr(env.now));
    var m := CopyAsStrings(libs, metadata);
    p := p.(metadata := m);
  }

  /**
   * `extract_packet_data(packet, return_format)`: the first content field set,
   * in the order json_data, xml_data, text_data, generic_data, payload; None
   * when none is set.
   */
  function ExtractPacketData(libs: Libs, p: DataPacket, returnFormat: string): (r: Result<Value>)
    ensures p.jsonData.Some? && returnFormat != "dict" ==> r == Ok(VStr(p.jsonData.value))
    ensures p.jsonData.Some? && returnFormat == "dict" && libs.jsonLoads(p.jsonData.value).Some? ==>
      r == Ok(libs.jsonLoads(p.jsonData.value).value)
    ensures p.jsonData.Some? && returnFormat == "dict" && libs.jsonLoads(p.jsonData.value).None? ==>
      r == Raised("JSONDecodeError")
    ensures p.jsonData.None? && p.xmlData.Some? && returnFormat == "dict" ==> r == XmlToDict(libs, p.xmlData.value)
    ensures p.jsonData.None? && p.xmlData.Some? && returnFormat != "dict" ==> r == Ok(VStr(p.xmlData.value))
    ensures p.jsonData.None? && p.xmlData.None? && p.textData.Some? ==> r == Ok(VStr(p.textData.value))
    ensures p.jsonData.None? && p.xmlData.None? && p.textData.None? && p.genericData.Some? ==>
      r == ExtractData(libs, p.genericData.value, returnFormat)
    ensures p.jsonData.None? && p.xmlData.None? && p.textData.None? && p.genericData.None? ==>
      r == Ok(if p.payload.Some? then VBytes(p.payload.value) else VNone)
  {
    if p.jsonData.Some? then
      if returnFormat == "dict" then
        (match libs.jsonLoads(p.jsonData.value) case Some(v) => Ok(v) case None => Raised("JSONDecodeError"))
      else Ok(VStr(p.jsonData.value))
    else if p.xmlData.Some? then
      if returnFormat == "dict" then XmlToDict(libs, p.xmlData.value) else Ok(VStr(p.xmlData.value))
    else if p.textData.Some? then Ok(VStr(p.textData.value))
    else if p.genericData.Some? then ExtractData(libs, p.genericData.value, returnFormat)
    else if p.payload.Some? then Ok(VBytes(p.payload.value))
    else Ok(VNone)
  }

  /** `alert.affected_entities.extend(affected)`: protobuf accepts only strings. */
  function AffectedIds(affected: seq<Value>): (r: Result<seq<string>>)
    ensures r.Ok? <==> forall i :: 0 <= i < |affected| ==> affected[i].VStr?
    ensures r.Ok? ==> (|r.value| == |affected| &&
      forall i :: 0 <= i < |affected| ==> r.value[i] == affected[i].s)
  {
    if affected == [] then Ok([])
    else if !affected[0].VStr? then Raised("TypeError")
    else match AffectedIds(affected[1..])
      case Raised(e) => Raised(e)
      case Ok(rest) => Ok([affected[0].s] + rest)
  }

  /** The structured data of an alert: `json_details` and `generic_alert_data`. */
  function AlertDetails(libs: Libs, alertData: Value, f: DataFormat): (r: Result<(string, Option<GenericData>)>)
    ensures !Truthy(alertData) ==> r == Ok(("", None))
    ensures Truthy(alertData) && f == JSON ==>
      && (r.Ok? <==> alertData.VStr? || JsonSerializable(alertData))
      && (r.Ok? ==> r.value == (if alertData.VStr? then alertData.s else libs.jsonDumps(alertData), None))
    ensures Truthy(alertData) && f != JSON ==>
      && (r.Ok? <==> GenericDataOf(libs, alertData, f, "", []).Ok?)
      && (r.Ok? ==> r.value == ("", Some(GenericDataOf(libs, alertData, f, "", []).value)))
  {
    if !Truthy(alertData) then Ok(("", None))
    else if f == JSON then
      if alertData.VStr? then Ok((alertData.s, None))
      else (match JsonDumps(libs, alertData) case Ok(s) => Ok((s, None)) case Raised(e) => Raised(e))
    else
      match GenericDataOf(libs, alertData, f, "", [])
      case Ok(g) => Ok(("", Some(g)))
      case Raised(e) => Raised(e)
  }

  /**
   * `create_alert_with_data`, as the k-th uuid drawn by its caller: every
   * context value is stringified, and truthy alert data goes to `json_details`
   * for JSON and to `generic_alert_data` otherwise.
   */
  function AlertOf(libs: Libs, env: Env, k: nat, appId: string, alertType: string, severity: string,
                   message: string, score: real, context: seq<Entry>, alertData: Value, f: DataFormat,
                   affected: seq<Value>, sourcePacketId: string): (r: Result<Alert>)
    ensures r.Ok? <==> AffectedIds(affected).Ok? && AlertDetails(libs, alertData, f).Ok?
    ensures r.Ok? ==>
      && r.value.alertId == env.uuid(k) && r.value.appId == appId && r.value.timestamp == env.now
      && r.value.alertType == alertType && r.value.severity == severity && r.value.message == message
      && r.value.score == score && r.value.sourcePacketId == sourcePacketId
      && r.value.context == StrMap(libs, context)
      && r.value.affectedEntities == AffectedIds(affected).value
      && (r.value.jsonDetails, r.value.genericAlertData) == AlertDetails(libs, alertData, f).value
  {
    match AffectedIds(affected)
    case Raised(e) => Raised(e)
    case Ok(ids) =>
      match AlertDetails(libs, alertData, f)
      case Raised(e) => Raised(e)
      case Ok(details) =>
        Ok(Alert(env.uuid(k), appId, env.now, alertType, severity, message, score,
                 StrMap(libs, context), ids, sourcePacketId, details.0, details.1))
  }

  /** `create_alert_with_data` as the code runs it: fields set in turn, the context in a loop. */
  method CreateAlertWithData(libs: Libs, env: Env, k: nat, appId: string, alertType: string,
                             severity: string, message: string, score: real, context: seq<Entry>,
                             alertData: Value, f: DataFormat, affected: seq<Value>,
                             sourcePacketId: string) returns (r: Result<Alert>)
    ensures r == AlertOf(libs, env, k, appId, alertType, severity, message, score, context,
                         alertData, f, affected, sourcePacketId)
  {
    var alert := Alert(env.uuid(k), appId, env.now, alertType, severity, message, score,
                       map[], [], sourcePacketId, "", None);
    var ctx := CopyAsStrings(libs, context);
    alert := alert.(context := ctx);
    var ids := AffectedIds(affected);
    if ids.Raised? {
      return Raised(ids.error);
    }
    alert := alert.(affectedEntities := ids.value);
    var details := StructuredData(libs, alertData, f);
    if details.Raised? {
      return Raised(details.error);
    }
    alert := alert.(jsonDetails := details.value.0, genericAlertData := details.value.1);
    return Ok(alert);
  }

  /** The alert-data branch of `create_alert_with_data`, as the code runs it. */
  method StructuredData(libs: Libs, alertData: Value, f: DataFormat) returns (r: Result<(string, Option<GenericData>)>)
    ensures r == AlertDetails(libs, alertData, f)
  {
    if !Truthy(alertData) {
      return Ok(("", None));
    }
    if f == JSON {
      if alertData.VStr? {
        return Ok((alertData.s, None));
      }
      var s := JsonDumps(libs, alertData);
      if s.Raised? {
        return Raised(s.error);
      }
      return Ok((s.value, None));
    }
    var g := CreateGenericData(libs, alertData, f, "", []);
    if g.Raised? {
      return Raised(g.error);
    }
    return Ok(("", Some(g.value)));
  }

  /**
   * `create_notification_with_content`: the notification is never marked sent,
   * and its message is the HTML, the JSON dump of rich content, or the text.
   */
  function NotificationWithContent(libs: Libs, env: Env, appId: string, notificationType: string,
                                   channel: string, recipientId: string, content: Value,
                                   contentFormat: string, alertId: string, templateId: string)
    : (r: Result<Notification>)
    ensures r.Ok? ==> !r.value.sentSuccessfully
    ensures r.Ok? ==> (
      && r.value.notificationId == env.uuid(0) && r.value.timestamp == env.now
      && r.value.appId == appId && r.value.channel == channel && r.value.recipientId == recipientId
      && r.value.alertId == alertId && r.value.templateId == templateId
      && r.value.notificationType == notificationType)
    ensures contentFormat == "html" ==>
      r.Ok? && r.value.content == HtmlContent(PyStr(libs, content)) && r.value.message == PyStr(libs, content)
    ensures contentFormat != "html" && contentFormat == "rich" && content.VDict? ==>
      && (r.Ok? <==> JsonSerializable(content))
      && (r.Ok? ==> r.value.content.RichContent? && r.value.content.rich.format == JSON &&
                    r.value.message == libs.jsonDumpsAscii(content))
    ensures contentFormat != "html" && !(contentFormat == "rich" && content.VDict?) ==>
      r.Ok? && r.value.content == TextContent(PyStr(libs, content)) && r.value.message == PyStr(libs, content)
  {
    var base := Notification(env.uuid(0), appId, env.now, notificationType, channel, recipientId,
                             "", false, alertId, templateId, NoContent);
    if contentFormat == "html" then
      Ok(base.(content := HtmlContent(PyStr(libs, content)), message := PyStr(libs, content)))
    else if contentFormat == "rich" && content.VDict? then
      match GenericDataOf(libs, content, JSON, "", [])
      case Raised(e) => Raised(e)
      case Ok(g) => Ok(base.(content := RichContent(g), message := libs.jsonDumpsAscii(content)))
    else
      Ok(base.(content := TextContent(PyStr(libs, content)), message := PyStr(libs, content)))
  }
}
