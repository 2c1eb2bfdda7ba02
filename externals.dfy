// The code the Origami core calls but does not contain: the json, yaml, csv,
// ElementTree/minidom, hashlib and protobuf libraries, float and datetime
// formatting (collected in `Libs`), and the clock, uuid4 and random sources
// (collected in `Env`).  Each is a function value, so the model holds for
// every behaviour of the library that has the stated type.

module Externals {
  import opened PyRuntime
  import opened Messages

  /** A `hexdigest()` of SHA-256: 64 lower-case hexadecimal digits. */
  type HexDigest = s: string | |s| == 64 && forall i :: 0 <= i < |s| ==> s[i] in "0123456789abcdef"
    witness seq(64, i => '0')

  /** An ElementTree element.  An element without text has text "". */
  datatype Element = Element(tag: string, text: string, children: seq<Element>)

  datatype Libs = Libs(
    /** `str(v)` of a float, bytes, list or dict value */
    formatValue: Value -> string,
    /** `str(x)` of a numeric protobuf field */
    formatNumber: real -> string,
    utf8Encode: string -> bytes,
    /** `b.decode('utf-8')`, None when it raises UnicodeDecodeError */
    utf8Decode: bytes -> Option<string>,
    /** `json.dumps(v, ensure_ascii=False)` of a serialisable value */
    jsonDumps: Value -> string,
    /** `json.dumps(v)` of a serialisable value, with the default ASCII escaping */
    jsonDumpsAscii: Value -> string,
    /** `json.loads(s)`, None when it raises */
    jsonLoads: string -> Option<Value>,
    /** `yaml.dump(v, default_flow_style=False)` */
    yamlDump: Value -> string,
    /** `yaml.safe_load(s)`, None when it raises */
    yamlSafeLoad: string -> Option<Value>,
    sha256Hex: bytes -> HexDigest,
    /** `ET.tostring` followed by minidom's `toprettyxml(indent="  ")`, None when it raises */
    xmlPretty: Element -> Option<string>,
    /** `ET.fromstring(s)`, None when it raises */
    xmlParse: string -> Option<Element>,
    /** the text `csv.writer.writerow(row)` writes */
    csvLine: seq<string> -> string,
    /** the rows `csv.reader` reads from a string */
    csvRead: string -> seq<seq<string>>,
    /** `float(s)` of a string, None when it raises ValueError */
    parseFloat: string -> Option<real>,
    /** `datetime.isoformat()` */
    isoFormat: Timestamp -> string,
    /** `strftime('%Y-%m-%d %H:%M')` */
    formatMinute: Timestamp -> string,
    /** `ParseFromString` into the named message types, None when it raises */
    decodeSensorReading: bytes -> Option<SensorReading>,
    decodeMedicationEvent: bytes -> Option<MedicationEvent>,
    decodeCropSensorReading: bytes -> Option<CropSensorReading>,
    /** whether `ParseFromString` of a message of the given type name accepts the bytes */
    decodes: (string, bytes) -> bool)

  /**
   * The non-deterministic inputs of one call: `datetime.utcnow()`, the k-th
   * `uuid4()` and the k-th `random.random()` drawn during the call.
   */
  datatype Env = Env(now: Timestamp, uuid: nat -> string, random: nat -> real)

  /** `str(v)` */
  function PyStr(libs: Libs, v: Value): string
  {
    match v
    case VStr(s) => s
    case VNone => "None"
    case VBool(b) => if b then "True" else "False"
    case VInt(i) => IntToString(i)
    case _ => libs.formatValue(v)
  }

  /** The items of a dict with each value passed through `str()`. */
  function StrPairs(libs: Libs, d: seq<Entry>): (r: seq<(string, string)>)
    ensures |r| == |d|
    ensures forall i :: 0 <= i < |d| ==> r[i] == (d[i].key, PyStr(libs, d[i].val))
  {
    if d == [] then [] else [(d[0].key, PyStr(libs, d[0].val))] + StrPairs(libs, d[1..])
  }

  /** `{k: str(v) for k, v in d.items()}` assigned into a protobuf string map. */
  function StrMap(libs: Libs, d: seq<Entry>): (r: map<string, string>)
    ensures forall k :: k in r <==> k in Keys(d)
    ensures DistinctKeys(d) ==> forall i :: 0 <= i < |d| ==> r[d[i].key] == PyStr(libs, d[i].val)
  {
    var ps := StrPairs(libs, d);
    AssignAllKeys(map[], ps);
    assert forall k :: Assigns(ps, k) <==> k in Keys(d) by {
      forall k | k in Keys(d) ensures Assigns(ps, k) {
        var i :| 0 <= i < |d| && Keys(d)[i] == k;
        assert ps[i].0 == k;
      }
    }
    assert DistinctKeys(d) ==> forall i :: 0 <= i < |d| ==> AssignAll(map[], ps)[d[i].key] == PyStr(libs, d[i].val) by {
      if DistinctKeys(d) {
        forall i | 0 <= i < |d| ensures AssignAll(map[], ps)[d[i].key] == PyStr(libs, d[i].val) {
          forall j | i < j < |ps| ensures ps[j].0 != ps[i].0 {
            assert Keys(d)[j] != Keys(d)[i];
          }
          AssignAllLastWins(map[], ps, i);
        }
      }
    }
    AssignAll(map[], ps)
  }

  /** The values `json.dumps` accepts: it raises TypeError on bytes. */
  predicate JsonSerializable(v: Value)
  {
    match v
    case VBytes(_) => false
    case VList(items) => forall i :: 0 <= i < |items| ==> JsonSerializable(items[i])
    case VDict(d) => forall i :: 0 <= i < |d| ==> JsonSerializable(d[i].val)
    case _ => true
  }

  /** `json.dumps(v, ensure_ascii=False)` */
  function JsonDumps(libs: Libs, v: Value): (r: Result<string>)
    ensures r.Ok? <==> JsonSerializable(v)
  {
    if JsonSerializable(v) then Ok(libs.jsonDumps(v)) else Raised("TypeError")
  }

  /** `s.encode('utf-8')` */
  function Encode(libs: Libs, s: string): bytes
  {
    libs.utf8Encode(s)
  }

  /** `b.decode('utf-8')` */
  function Decode(libs: Libs, b: bytes): (r: Result<string>)
  {
    match libs.utf8Decode(b)
    case Some(s) => Ok(s)
    case None => Raised("UnicodeDecodeError")
  }
}
