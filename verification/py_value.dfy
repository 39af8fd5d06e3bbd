/**
 * Python's dynamic values as they flow through the SDK: attribute values,
 * keyword arguments and the objects returned by provider clients.
 */
module PyValues {
  import opened Wrappers
  import OrderedDict
  import Digits
  import Text
  import PyStringRepr

  datatype PyValue =
    | PNone
    | PStr(s: string)
    | PBool(b: bool)
    | PInt(i: int)
      /** A float, carried as its `repr` text: the SDK only passes floats along or prints them. */
    | PFloat(text: string)
    | PList(items: seq<PyValue>)
    | PTuple(items: seq<PyValue>)
    | PDict(entries: seq<(string, PyValue)>)
      /**
       * Any other object: its class name, what `str()` gives for it, and what
       * `repr()` gives for it, which is what a container shows for it.
       */
    | PObject(className: string, text: string, repr: string)

  /** A Python dictionary of attributes. */
  type Attrs = OrderedDict.Dict<PyValue>

  /** A raised exception: its class name and its message, which is what `str(e)` gives. */
  datatype PyException = PyException(className: string, message: string)

  function BoolText(b: bool): string {
    if b then "True" else "False"
  }

  /** `type(v).__name__`. */
  function TypeName(v: PyValue): string {
    match v
    case PNone => "NoneType"
    case PStr(_) => "str"
    case PBool(_) => "bool"
    case PInt(_) => "int"
    case PFloat(_) => "float"
    case PList(_) => "list"
    case PTuple(_) => "tuple"
    case PDict(_) => "dict"
    case PObject(c, _, _) => c
  }

  /** What `len()` gives for a sized value; `len()` of anything else raises `TypeError`. */
  function Len(v: PyValue): Option<int> {
    match v
    case PStr(t) => Some(|t|)
    case PList(items) => Some(|items|)
    case PTuple(items) => Some(|items|)
    case PDict(entries) => Some(|entries|)
    case _ => None
  }

  /** The `AttributeError` Python raises when `v` has no attribute `name`. */
  function NoAttribute(v: PyValue, name: string): PyException {
    PyException("AttributeError", "'" + TypeName(v) + "' object has no attribute '" + name + "'")
  }

  /**
   * Python's `str(v)`. A list, tuple or dict shows the `repr` of each element
   * and of each key, so strings inside it are quoted and escaped.
   */
  function Str(v: PyValue): string
    decreases v, 1
  {
    match v
    case PNone => "None"
    case PStr(s) => s
    case PBool(b) => BoolText(b)
    case PInt(i) => Digits.Decimal(i)
    case PFloat(t) => t
    case PList(items) => "[" + Text.Join(ReprAll(v, items), ", ") + "]"
    case PTuple(items) =>
      if |items| == 1 then "(" + Repr(items[0]) + ",)"
      else "(" + Text.Join(ReprAll(v, items), ", ") + ")"
    case PDict(entries) =>
      "{" + Text.Join(seq(|entries|, i requires 0 <= i < |entries| =>
                          PyStringRepr.StringRepr(entries[i].0) + ": " + Repr(entries[i].1)), ", ") + "}"
    case PObject(_, text, _) => text
  }

  /** Python's `repr(v)`: strings are quoted and escaped, objects show their own repr, the rest is `str`. */
  function Repr(v: PyValue): string
    decreases v, 2
  {
    match v
    case PStr(s) => PyStringRepr.StringRepr(s)
    case PObject(_, _, r) => r
    case _ => Str(v)
  }

  function ReprAll(ghost parent: PyValue, items: seq<PyValue>): seq<string>
    requires forall i :: 0 <= i < |items| ==> items[i] < parent
    decreases parent, 0
  {
    seq(|items|, i requires 0 <= i < |items| => Repr(items[i]))
  }

  /** A one-element list shows the repr of its element between brackets. */
  lemma SingletonListStr(x: PyValue)
    ensures Str(PList([x])) == "[" + Repr(x) + "]"
  {
    var v := PList([x]);
    assert ReprAll(v, v.items) == [Repr(x)];
  }

  /** A one-entry dictionary shows the repr of its key, a colon, and the repr of its value. */
  lemma SingletonDictStr(key: string, x: PyValue)
    ensures Str(PDict([(key, x)])) == "{" + PyStringRepr.StringRepr(key) + ": " + Repr(x) + "}"
  {
    var d := PDict([(key, x)]);
    var shown := seq(1, i requires 0 <= i < 1 =>
                   PyStringRepr.StringRepr(d.entries[i].0) + ": " + Repr(d.entries[i].1));
    assert shown == [PyStringRepr.StringRepr(key) + ": " + Repr(x)];
  }

  /** `str()` of a list holding one dictionary with one string entry, as `str(messages)` records a chat message. */
  lemma MessageListStr(key: string, s: string)
    ensures Str(PList([PDict([(key, PStr(s))])]))
            == "[{" + PyStringRepr.StringRepr(key) + ": " + PyStringRepr.StringRepr(s) + "}]"
  {
    var k := PyStringRepr.StringRepr(key);
    var t := PyStringRepr.StringRepr(s);
    SingletonDictStr(key, PStr(s));
    SingletonListStr(PDict([(key, PStr(s))]));
    assert "[" + ("{" + k + ": " + t + "}") + "]" == "[{" + k + ": " + t + "}]";
  }

  /**
   * A message text holding an apostrophe and no double quote is recorded in
   * double quotes, not between two single quotes that would clash with it.
   */
  lemma ApostropheMessageStr(key: string, s: string)
    requires forall i :: 0 <= i < |s| ==> ' ' <= s[i] <= '~' && s[i] != '\\'
    requires '\'' in s && '"' !in s
    ensures Str(PList([PDict([(key, PStr(s))])]))
            == "[{" + PyStringRepr.StringRepr(key) + ": \"" + s + "\"}]"
  {
    MessageListStr(key, s);
    PyStringRepr.PlainStringRepr(s);
    var k := PyStringRepr.StringRepr(key);
    assert "[{" + k + ": " + ("\"" + s + "\"") + "}]" == "[{" + k + ": \"" + s + "\"}]";
  }

  /** An object inside a list is shown by its repr, not by its str. */
  lemma ObjectInListStr(className: string, text: string, repr: string)
    ensures Str(PList([PObject(className, text, repr)])) == "[" + repr + "]"
  {
    SingletonListStr(PObject(className, text, repr));
  }
}
