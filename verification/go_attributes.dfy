/**
 * The Go SDK's attribute helpers (`attributes.go`): the fixed attribute
 * lists for LLM, vector-database, framework and workflow spans, the
 * redaction of sensitive keys, and the merging of attribute maps.
 */
module GoAttributes {
  import opened GoValues
  import Text

  const LLMProviderKey := "llm.provider"
  const LLMModelKey := "llm.model"
  const LLMOperationTypeKey := "llm.operation.type"

  /** `CreateLLMAttributes(provider, model, operation)`. */
  function CreateLLMAttributes(provider: string, model: string, operation: string): (kvs: seq<KeyValue>)
    ensures Keys(kvs) == [LLMProviderKey, LLMModelKey, LLMOperationTypeKey]
    ensures kvs[0].value == AString(provider) && kvs[1].value == AString(model) && kvs[2].value == AString(operation)
  {
    [KeyValue(LLMProviderKey, AString(provider)), KeyValue(LLMModelKey, AString(model)),
     KeyValue(LLMOperationTypeKey, AString(operation))]
  }

  /** `CreateVectorDBAttributes(system, operation)`. */
  function CreateVectorDBAttributes(system: string, operation: string): (kvs: seq<KeyValue>)
    ensures Keys(kvs) == ["db.system", "db.operation"]
    ensures kvs[0].value == AString(system) && kvs[1].value == AString(operation)
  {
    [KeyValue("db.system", AString(system)), KeyValue("db.operation", AString(operation))]
  }

  /** `CreateFrameworkAttributes(name, operation)`. */
  function CreateFrameworkAttributes(name: string, operation: string): (kvs: seq<KeyValue>)
    ensures Keys(kvs) == ["framework.name", "framework.operation"]
    ensures kvs[0].value == AString(name) && kvs[1].value == AString(operation)
  {
    [KeyValue("framework.name", AString(name)), KeyValue("framework.operation", AString(operation))]
  }

  /** `CreateWorkflowAttributes(name, runID)`. */
  function CreateWorkflowAttributes(name: string, runID: string): (kvs: seq<KeyValue>)
    ensures Keys(kvs) == ["workflow.name", "workflow.run_id"]
    ensures kvs[0].value == AString(name) && kvs[1].value == AString(runID)
  {
    [KeyValue("workflow.name", AString(name)), KeyValue("workflow.run_id", AString(runID))]
  }

  /** The substrings `isSensitiveKey` looks for, in its order. */
  const SensitiveKeys: seq<string> :=
    ["password", "secret", "token", "key", "auth", "credential", "api_key", "access_token", "refresh_token"]

  /** The loop of `isSensitiveKey`: does the lower-cased key contain one of `patterns`? */
  function ContainsAny(lowered: string, patterns: seq<string>): bool
    decreases |patterns|
  {
    patterns != [] && (Text.Contains(lowered, patterns[0]) || ContainsAny(lowered, patterns[1..]))
  }

  /** `isSensitiveKey(key)`. */
  function IsSensitiveKey(key: string): bool {
    ContainsAny(Text.Lower(key), SensitiveKeys)
  }

  lemma {:induction false} ContainsAnyIff(lowered: string, patterns: seq<string>)
    ensures ContainsAny(lowered, patterns) <==> exists i :: 0 <= i < |patterns| && Text.Occurs(lowered, patterns[i])
    decreases |patterns|
  {
    if patterns != [] {
      Text.ContainsIffOccurs(lowered, patterns[0]);
      ContainsAnyIff(lowered, patterns[1..]);
      if ContainsAny(lowered, patterns[1..]) {
        var i :| 0 <= i < |patterns[1..]| && Text.Occurs(lowered, patterns[1..][i]);
        assert Text.Occurs(lowered, patterns[i + 1]);
      }
      if exists i :: 0 <= i < |patterns| && Text.Occurs(lowered, patterns[i]) {
        var i :| 0 <= i < |patterns| && Text.Occurs(lowered, patterns[i]);
        if i > 0 {
          assert patterns[1..][i - 1] == patterns[i];
        }
      }
    }
  }

  /**
   * A key is sensitive exactly when, lower-cased, it contains one of the
   * nine listed words anywhere, so "monkey" counts through "key".
   */
  lemma IsSensitiveKeyIff(key: string)
    ensures IsSensitiveKey(key) <==> exists i :: 0 <= i < |SensitiveKeys| && Text.Occurs(Text.Lower(key), SensitiveKeys[i])
  {
    ContainsAnyIff(Text.Lower(key), SensitiveKeys);
  }

  /** Substring matching is not whole-word matching: "monkey" and "AUTHOR" are redacted. */
  lemma SensitiveKeyExamples()
    ensures IsSensitiveKey("monkey") && IsSensitiveKey("AUTHOR")
  {
    assert Text.Lower("monkey") == "monkey";
    assert Text.Lower("AUTHOR") == "author";
    assert Text.Contains("monkey", "key") by {
      assert Text.OccursAt("monkey", "key", 3);
      Text.ContainsIffOccurs("monkey", "key");
    }
    assert Text.Contains("author", "auth") by {
      assert Text.OccursAt("author", "auth", 0);
      Text.ContainsIffOccurs("author", "auth");
    }
  }

  /** A key holding none of the words is kept: "name" is not redacted. */
  lemma NameIsNotSensitive()
    ensures !IsSensitiveKey("name")
  {
    assert Text.Lower("name") == "name";
    IsSensitiveKeyIff("name");
    forall i, j | 0 <= i < |SensitiveKeys| ensures !Text.OccursAt("name", SensitiveKeys[i], j) {
      if i == 3 {
        assert "name"[0..3] == "nam" && "name"[1..4] == "ame";
      } else if i == 4 {
        assert "name"[0..4] == "name";
      } else {
        LongSensitiveKeys(i);
      }
    }
  }

  /** Every listed word but "key" and "auth" is longer than four characters. */
  lemma LongSensitiveKeys(i: nat)
    requires i < |SensitiveKeys| && i != 3 && i != 4
    ensures |SensitiveKeys[i]| > 4
  {
    if i < 3 {
      assert |SensitiveKeys[0]| == 8 && |SensitiveKeys[1]| == 6 && |SensitiveKeys[2]| == 5;
    } else {
      assert |SensitiveKeys[5]| == 10 && |SensitiveKeys[6]| == 7;
      assert |SensitiveKeys[7]| == 12 && |SensitiveKeys[8]| == 13;
    }
  }

  /** `SanitizeAttributes(attrs)`: a new map with every sensitive key's value replaced by "[REDACTED]". */
  function SanitizeAttributes(attrs: GoMap): GoMap {
    map k | k in attrs :: if IsSensitiveKey(k) then GString("[REDACTED]") else attrs[k]
  }

  /**
   * Redaction keeps the key set, masks exactly the sensitive keys and
   * leaves every other value as it was; redacting twice is redacting once.
   */
  lemma SanitizeAttributesProperties(attrs: GoMap)
    ensures var r := SanitizeAttributes(attrs);
            && r.Keys == attrs.Keys
            && (forall k :: k in r ==> (r[k] == if IsSensitiveKey(k) then GString("[REDACTED]") else attrs[k]))
            && SanitizeAttributes(r) == r
  {
  }

  /** `MergeAttributes(attrs...)`: each map's entries in turn, a later map's value winning. */
  function MergeAttributes(maps: seq<GoMap>): GoMap
    decreases |maps|
  {
    if |maps| == 0 then map[] else MergeAttributes(maps[..|maps| - 1]) + maps[|maps| - 1]
  }

  /** The index of the last map holding `k`, when one does. */
  function LastHolder(maps: seq<GoMap>, k: string): (i: int)
    ensures -1 <= i < |maps|
    ensures i >= 0 ==> k in maps[i]
    ensures forall j :: i < j < |maps| ==> k !in maps[j]
    decreases |maps|
  {
    if |maps| == 0 then -1
    else if k in maps[|maps| - 1] then |maps| - 1
    else LastHolder(maps[..|maps| - 1], k)
  }

  /** The merged map holds every key of every map, and no other; no maps give the empty map. */
  lemma {:induction false} MergeAttributesKeys(maps: seq<GoMap>)
    ensures forall k :: k in MergeAttributes(maps) <==> exists i :: 0 <= i < |maps| && k in maps[i]
    ensures maps == [] ==> MergeAttributes(maps) == map[]
    decreases |maps|
  {
    if maps != [] {
      var init := maps[..|maps| - 1];
      MergeAttributesKeys(init);
      forall k ensures k in MergeAttributes(maps) <==> exists i :: 0 <= i < |maps| && k in maps[i] {
        if k in MergeAttributes(init) {
          var i :| 0 <= i < |init| && k in init[i];
          assert maps[i] == init[i];
        }
        if exists i :: 0 <= i < |maps| && k in maps[i] {
          var i :| 0 <= i < |maps| && k in maps[i];
          if i < |maps| - 1 {
            assert init[i] == maps[i];
          }
        }
      }
    }
  }

  /** Each merged key has the value of the last map that holds it: later maps win. */
  lemma {:induction false} MergeAttributesLaterWins(maps: seq<GoMap>, k: string)
    requires k in MergeAttributes(maps)
    ensures LastHolder(maps, k) >= 0 && MergeAttributes(maps)[k] == maps[LastHolder(maps, k)][k]
    decreases |maps|
  {
    var init := maps[..|maps| - 1];
    if k !in maps[|maps| - 1] {
      MergeAttributesLaterWins(init, k);
    }
  }
}
