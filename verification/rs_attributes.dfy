/**
 * The Rust SDK's attribute helpers (`attributes.rs`): building OpenTelemetry
 * key-values from a string map, redacting sensitive entries, merging two
 * maps and rendering lists as comma-joined strings. The key-value type is
 * OpenTelemetry's, shared with the Go model. A loop over a `HashMap`
 * visits its keys in an unspecified order, given here as `order`.
 */
module RsAttributes {
  import Text
  import Digits
  import opened GoValues
  import GoTracer

  /**
   * `create_llm_attributes`, `create_vector_db_attributes`,
   * `create_framework_attributes` and `create_workflow_attributes`, which
   * share one body: a string key-value per map entry.
   */
  function CreateAttributes(attrs: map<string, string>, order: seq<string>): seq<KeyValue>
    requires Enumerates(order, attrs.Keys)
  {
    seq(|order|, i requires 0 <= i < |order| => KeyValue(order[i], AString(attrs[order[i]])))
  }

  /**
   * One key-value per map entry: the keys are the map's, each once, and
   * each carries its entry's value as a string.
   */
  lemma CreateAttributesProperties(attrs: map<string, string>, order: seq<string>)
    requires Enumerates(order, attrs.Keys)
    ensures var kvs := CreateAttributes(attrs, order);
            && |kvs| == |attrs|
            && (forall k :: k in Keys(kvs) <==> k in attrs)
            && (forall i, j :: 0 <= i < j < |kvs| ==> kvs[i].key != kvs[j].key)
            && (forall i :: 0 <= i < |kvs| ==> kvs[i].value == AString(attrs[kvs[i].key]))
  {
    assert Keys(CreateAttributes(attrs, order)) == order;
    GoTracer.DistinctCard(order);
  }

  /** The keys `sanitize_attributes` redacts; only exact matches count. */
  const SensitiveKeys: seq<string> :=
    ["password", "secret", "token", "key", "auth", "credential", "api_key", "access_token", "refresh_token"]

  const Redacted: string := "[REDACTED]"

  /** The loop of `sanitize_attributes` over `keys`: each key present is overwritten with the marker. */
  function Redact(attrs: map<string, string>, keys: seq<string>): map<string, string>
    decreases |keys|
  {
    if |keys| == 0 then attrs
    else
      var last := keys[|keys| - 1];
      var before := Redact(attrs, keys[..|keys| - 1]);
      if last in before then before[last := Redacted] else before
  }

  /**
   * Redacting adds and removes no key; an entry whose key is listed reads
   * as the marker and every other entry keeps its value.
   */
  lemma {:induction false} RedactProperties(attrs: map<string, string>, keys: seq<string>)
    ensures Redact(attrs, keys).Keys == attrs.Keys
    ensures forall k :: k in attrs ==> Redact(attrs, keys)[k] == if k in keys then Redacted else attrs[k]
    decreases |keys|
  {
    if keys != [] {
      var init := keys[..|keys| - 1];
      RedactProperties(attrs, init);
      assert forall k :: k in keys <==> k in init || k == keys[|keys| - 1];
    }
  }

  /** `sanitize_attributes(&mut attrs)`, returning the map as it is afterwards. */
  function SanitizeAttributes(attrs: map<string, string>): map<string, string> {
    Redact(attrs, SensitiveKeys)
  }

  /**
   * Sanitizing keeps the set of keys, replaces the value of exactly the
   * listed keys with "[REDACTED]", leaves every other entry alone, and
   * doing it twice is doing it once.
   */
  lemma SanitizeAttributesProperties(attrs: map<string, string>)
    ensures SanitizeAttributes(attrs).Keys == attrs.Keys
    ensures forall k :: k in attrs && k in SensitiveKeys ==> SanitizeAttributes(attrs)[k] == Redacted
    ensures forall k :: k in attrs && k !in SensitiveKeys ==> SanitizeAttributes(attrs)[k] == attrs[k]
    ensures SanitizeAttributes(SanitizeAttributes(attrs)) == SanitizeAttributes(attrs)
  {
    RedactProperties(attrs, SensitiveKeys);
    RedactProperties(SanitizeAttributes(attrs), SensitiveKeys);
  }

  /** The loop of `merge_attributes`: each entry of `other`, visited in `order`, is inserted into `base`. */
  function InsertAll(base: map<string, string>, other: map<string, string>, order: seq<string>): map<string, string>
    requires forall k :: k in order ==> k in other
    decreases |order|
  {
    if |order| == 0 then base
    else
      var last := order[|order| - 1];
      InsertAll(base, other, order[..|order| - 1])[last := other[last]]
  }

  lemma {:induction false} InsertAllUnion(base: map<string, string>, other: map<string, string>, order: seq<string>)
    requires forall k :: k in order ==> k in other
    ensures InsertAll(base, other, order) == base + map k | k in other && k in order :: other[k]
    decreases |order|
  {
    if order != [] {
      var init := order[..|order| - 1];
      InsertAllUnion(base, other, init);
      assert forall k :: k in order <==> k in init || k == order[|order| - 1];
    }
  }

  /** `merge_attributes(base, other)`, visiting `other` in `order`. */
  function MergeAttributes(base: map<string, string>, other: map<string, string>, order: seq<string>): map<string, string>
    requires Enumerates(order, other.Keys)
  {
    InsertAll(base, other, order)
  }

  /**
   * The merge has the keys of both maps, and the value from `other`
   * wherever `other` has the key: whatever order the loop visits `other`
   * in, the result is the map union with `other` winning.
   */
  lemma MergeAttributesUnion(base: map<string, string>, other: map<string, string>, order: seq<string>)
    requires Enumerates(order, other.Keys)
    ensures MergeAttributes(base, other, order) == base + other
    ensures MergeAttributes(base, other, order).Keys == base.Keys + other.Keys
    ensures forall k :: k in base && k !in other ==> MergeAttributes(base, other, order)[k] == base[k]
  {
    assert forall k :: k in other ==> k in (set k | k in order);
    InsertAllUnion(base, other, order);
    assert (map k | k in other && k in order :: other[k]) == other;
  }

  /** `helpers::string_slice(key, value)`: the strings joined with commas. */
  function StringSlice(key: string, values: seq<string>): (kv: KeyValue)
    ensures kv.key == key && kv.value.AString?
  {
    KeyValue(key, AString(Text.Join(values, ",")))
  }

  /** Comma-free strings, at least one of them, can be recovered from their joined attribute by splitting. */
  lemma StringSliceRoundTrip(key: string, values: seq<string>)
    requires |values| >= 1
    requires forall k :: 0 <= k < |values| ==> ',' !in values[k]
    ensures Text.Split(StringSlice(key, values).value.s, ',') == values
  {
    Text.JoinSplit(values, ',');
  }

  /** `helpers::int_slice(key, value)`: the integers' decimal texts joined with commas. */
  function IntSlice(key: string, values: seq<int>): (kv: KeyValue)
    ensures kv.key == key && kv.value.AString?
  {
    StringSlice(key, seq(|values|, i requires 0 <= i < |values| => Digits.Decimal(values[i])))
  }

  /** A decimal text holds digits and possibly a minus sign, never a comma. */
  lemma DecimalHasNoComma(n: int)
    ensures ',' !in Digits.Decimal(n)
  {
    var m := if n < 0 then -n else n;
    Digits.ToDigitsValid(m, 10);
    var d := Digits.ToDigits(m, 10);
    assert forall i :: 0 <= i < |d| ==> Digits.DigitValue(d[i]) < 10;
  }

  /**
   * Splitting an integer slice attribute on commas gives each integer's
   * decimal text, in order, and a non-negative one reads back as the number.
   */
  lemma IntSliceRoundTrip(key: string, values: seq<int>)
    requires |values| >= 1
    ensures var parts := Text.Split(IntSlice(key, values).value.s, ',');
            && |parts| == |values|
            && (forall i :: 0 <= i < |values| ==> parts[i] == Digits.Decimal(values[i]))
            && (forall i :: 0 <= i < |values| && values[i] >= 0 ==> Digits.FromDigits(parts[i], 10) == values[i])
  {
    var texts := seq(|values|, i requires 0 <= i < |values| => Digits.Decimal(values[i]));
    forall k | 0 <= k < |texts| ensures ',' !in texts[k] {
      DecimalHasNoComma(values[k]);
    }
    StringSliceRoundTrip(key, texts);
    forall i | 0 <= i < |values| && values[i] >= 0 ensures Digits.FromDigits(texts[i], 10) == values[i] {
      Digits.DecimalRoundTrip(values[i]);
    }
  }

  /** `helpers::float_slice(key, value)`, with `render` as Rust's float `to_string`. */
  function FloatSlice(key: string, values: seq<real>, render: real -> string): (kv: KeyValue)
    ensures kv.key == key && kv.value.AString?
  {
    StringSlice(key, seq(|values|, i requires 0 <= i < |values| => render(values[i])))
  }
}
