/**
 * Values as the Go SDK handles them: the dynamic values stored in its
 * `map[string]interface{}` attribute maps, OpenTelemetry's typed attribute
 * values and key-value pairs, and the order in which a loop over a map
 * visits its keys. Go leaves that order unspecified, so every loop over a
 * map is given it explicitly, as a sequence listing each key once.
 */
module GoValues {
  import Text
  import Digits

  /**
   * A dynamic Go value. `GInt` is Go's `int`, `GInt64` its `int64`;
   * `GTime` carries a `time.Time`'s RFC 3339 rendering and its `%v` one;
   * `GOther` is any other value, by its `%v` (or `String()`) text.
   */
  datatype GoValue =
    | GNil
    | GString(s: string)
    | GInt(i: int)
    | GInt64(i: int)
    | GFloat64(f: real)
    | GBool(b: bool)
    | GStrings(ss: seq<string>)
    | GInts(ns: seq<int>)
    | GInt64s(ns: seq<int>)
    | GFloat64s(fs: seq<real>)
    | GBools(bs: seq<bool>)
    | GTime(rfc3339: string, text: string)
    | GOther(text: string)

  /** OpenTelemetry's attribute value types: `attribute.Int` and `attribute.IntSlice` store 64-bit integers. */
  datatype AttrValue =
    | AString(s: string)
    | ABool(b: bool)
    | AInt64(i: int)
    | AFloat64(f: real)
    | AStrings(ss: seq<string>)
    | AInt64s(ns: seq<int>)
    | AFloat64s(fs: seq<real>)
    | ABools(bs: seq<bool>)

  /** `attribute.KeyValue`. */
  datatype KeyValue = KeyValue(key: string, value: AttrValue)

  type GoMap = map<string, GoValue>

  /** `order` lists each key of the set exactly once: one visiting order of a Go map loop. */
  predicate Enumerates(order: seq<string>, keys: set<string>) {
    (forall i, j :: 0 <= i < j < |order| ==> order[i] != order[j]) && (set k | k in order) == keys
  }

  /** The keys of a list of attributes, in order. */
  function Keys(kvs: seq<KeyValue>): (ks: seq<string>)
    ensures |ks| == |kvs|
    ensures forall i :: 0 <= i < |kvs| ==> ks[i] == kvs[i].key
  {
    seq(|kvs|, i requires 0 <= i < |kvs| => kvs[i].key)
  }

  function BoolText(b: bool): string {
    if b then "true" else "false"
  }

  function JoinInts(ns: seq<int>): string
    decreases |ns|
  {
    if |ns| == 0 then "" else if |ns| == 1 then Digits.Decimal(ns[0]) else Digits.Decimal(ns[0]) + " " + JoinInts(ns[1..])
  }

  function JoinBools(bs: seq<bool>): string
    decreases |bs|
  {
    if |bs| == 0 then "" else if |bs| == 1 then BoolText(bs[0]) else BoolText(bs[0]) + " " + JoinBools(bs[1..])
  }

  /** The values no typed case of the SDK's conversions catches. */
  predicate Untyped(v: GoValue) {
    v.GNil? || v.GInt64s? || v.GBools? || v.GTime? || v.GOther?
  }

  /** `fmt.Sprintf("%v", v)` for the values that reach a conversion's fallback case. */
  function Display(v: GoValue): string
    requires Untyped(v) || v.GString?
  {
    match v
    case GNil => "<nil>"
    case GString(s) => s
    case GInt64s(ns) => "[" + JoinInts(ns) + "]"
    case GBools(bs) => "[" + JoinBools(bs) + "]"
    case GTime(_, text) => text
    case GOther(text) => text
  }
}
