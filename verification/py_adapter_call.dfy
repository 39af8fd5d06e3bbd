/**
 * The shape every Python provider wrapper shares: build the LLM bag from
 * the call's model, operation and extra arguments, run `traced_call`
 * inside `_create_llm_span_sync`, and after a return hand the response's
 * usage to `_handle_usage_metrics`. Each provider supplies its request
 * writes, its response writes and where its usage object comes from.
 */
module PyAdapterCall {
  import opened Wrappers
  import opened PyValues
  import opened Spans
  import OrderedDict
  import opened PyAdapterBase
  import PyTypes

  /**
   * `_create_llm_attributes(model=..., operation_type=..., **extras)` when
   * no extra argument rebinds a required one: the bag, which carries the
   * provider, the model and the operation.
   */
  function AdapterBag(provider: string, model: PyValue, operation: string, extras: Attrs): (bag: Attrs)
    requires NoRequiredNames(extras) && OrderedDict.UniqueKeys(extras)
    ensures CreateAdapterAttributes(provider, model, operation, extras) == Ok(bag)
    ensures var ek := OrderedDict.Keys(extras);
            && ("llm.provider" !in ek ==> OrderedDict.Get(bag, "llm.provider") == Some(PStr(provider)))
            && ("llm.model" !in ek ==> OrderedDict.Get(bag, "llm.model") == Some(model))
            && ("llm.operation.type" !in ek ==> OrderedDict.Get(bag, "llm.operation.type") == Some(PStr(operation)))
  {
    CreateAdapterAttributesProperties(provider, model, operation, extras);
    CreateAdapterAttributes(provider, model, operation, extras).value
  }

  /**
   * One wrapped API call. `response` and `usage` describe the value the
   * original call returned (the response writes and the truthy usage
   * object, if any); they are ignored when it raised.
   */
  function AdapterCall<R>(provider: string, spanName: string, operation: string, model: PyValue, extras: Attrs,
                          current: Parent, request: Writes, original: Outcome<R>, response: Writes,
                          usage: Option<Usage>): Call<R>
    requires NoRequiredNames(extras) && OrderedDict.UniqueKeys(extras)
  {
    var (uw, records) := HandleUsage(provider, model, usage);
    TracedCall(spanName, AdapterBag(provider, model, operation, extras), current, request, original,
               response + uw, records)
  }

  /**
   * The wrapper as written: its `traced_call` opens with
   * `self._set_request_attributes(span, model, **kwargs)`, passing the
   * call's own keyword arguments, and goes on with the provider's
   * `extraRequest` writes.
   */
  function AdapterCallAsWritten<R>(provider: string, spanName: string, operation: string, model: PyValue, extras: Attrs,
                                   current: Parent, kwargs: Attrs, extraRequest: Writes, original: Outcome<R>,
                                   response: Writes, usage: Option<Usage>): Call<R>
    requires NoRequiredNames(extras) && OrderedDict.UniqueKeys(extras)
  {
    var (uw, records) := HandleUsage(provider, model, usage);
    TracedCallAsWritten(spanName, AdapterBag(provider, model, operation, extras), current, model, kwargs, extraRequest,
                        original, response + uw, records)
  }

  /**
   * A wrapped call made with `model=` ends, as written, in `TypeError`
   * whatever the API would have answered: the API is not reached (no
   * event), no attribute is set, no usage is recorded, and the span ends
   * once with an error status. Without `model=` it is the call with the
   * corrected helper.
   */
  lemma AdapterCallAsWrittenDefect<R>(provider: string, spanName: string, operation: string, model: PyValue, extras: Attrs,
                                      current: Parent, kwargs: Attrs, extraRequest: Writes, original: Outcome<R>,
                                      response: Writes, usage: Option<Usage>)
    requires NoRequiredNames(extras) && OrderedDict.UniqueKeys(extras)
    ensures var c := AdapterCallAsWritten(provider, spanName, operation, model, extras, current, kwargs, extraRequest,
                                          original, response, usage);
            "model" in OrderedDict.Keys(kwargs) ==>
              && c.traced.outcome.Raised? && c.traced.outcome.error.className == "TypeError"
              && c.traced.span.name == spanName
              && c.usage == [] && Assignments(c.traced.log) == [] && Events(c.traced.log) == []
              && CountEnds(c.traced.log) == 1 && LastStatus(c.traced.log).Some?
              && LastStatus(c.traced.log).value.0 == StatusError
    ensures "model" !in OrderedDict.Keys(kwargs) ==>
              AdapterCallAsWritten(provider, spanName, operation, model, extras, current, kwargs, extraRequest,
                                   original, response, usage)
              == AdapterCall(provider, spanName, operation, model, extras, current, RequestWrites(model, kwargs) + extraRequest,
                             original, response, usage)
  {
    var (uw, records) := HandleUsage(provider, model, usage);
    var bag := AdapterBag(provider, model, operation, extras);
    TracedCallAsWrittenDefect(spanName, bag, current, model, kwargs, extraRequest, original, response + uw, records);
  }

  /** Writes after which a key is never named leave it as it was. */
  lemma LastValueSkip(a: Writes, b: Writes, k: string)
    requires forall i :: 0 <= i < |b| ==> b[i].0 != k
    ensures LastValue(a + b, k) == LastValue(a, k)
  {
    LastValueConcat(a, b, k);
    LastValueUnwritten(b, k);
  }

  /**
   * A wrapped call: the original's result or exception passes through; the
   * span is a client span named `spanName` whose bag names the provider,
   * the model and the operation; it ends once, last, OK exactly when the
   * original returned; and a usage record is made exactly when the
   * original returned with a usage object.
   */
  lemma AdapterCallShape<R>(provider: string, spanName: string, operation: string, model: PyValue, extras: Attrs,
                            current: Parent, request: Writes, original: Outcome<R>, response: Writes,
                            usage: Option<Usage>)
    requires NoRequiredNames(extras) && OrderedDict.UniqueKeys(extras)
    requires "llm.provider" !in OrderedDict.Keys(extras) && "llm.model" !in OrderedDict.Keys(extras)
    requires "llm.operation.type" !in OrderedDict.Keys(extras)
    ensures var c := AdapterCall(provider, spanName, operation, model, extras, current, request, original, response, usage);
            && c.traced.outcome == original
            && c.traced.span.name == spanName && c.traced.span.kind == Client
            && OrderedDict.Get(c.traced.span.attributes, "llm.provider") == Some(PStr(provider))
            && OrderedDict.Get(c.traced.span.attributes, "llm.model") == Some(model)
            && OrderedDict.Get(c.traced.span.attributes, "llm.operation.type") == Some(PStr(operation))
            && CountEnds(c.traced.log) == 1 && c.traced.log[|c.traced.log| - 1] == End
            && (LastStatus(c.traced.log) == Some((StatusOk, None)) <==> original.Returned?)
            && Events(c.traced.log) == (if original.Returned? then ["llm.request.start", "llm.response.received"]
                                        else ["llm.request.start"])
            && c.usage == (if original.Returned? && usage.Some? then [UsageRecord(provider, model, usage.value)] else [])
  {
    var (uw, records) := HandleUsage(provider, model, usage);
    var bag := AdapterBag(provider, model, operation, extras);
    TracedCallProperties(spanName, bag, current, request, original, response + uw, records);
  }

  /** The writes a wrapped call makes to the span: the request's, then after a return the response's and the usage's. */
  lemma AdapterCallEffective<R>(provider: string, spanName: string, operation: string, model: PyValue, extras: Attrs,
                                current: Parent, request: Writes, original: Outcome<R>, response: Writes,
                                usage: Option<Usage>)
    requires NoRequiredNames(extras) && OrderedDict.UniqueKeys(extras)
    ensures var c := AdapterCall(provider, spanName, operation, model, extras, current, request, original, response, usage);
            var tokens := if original.Returned? then HandleUsage(provider, model, usage).0 else [];
            forall k :: OrderedDict.Get(Assignments(c.traced.log), k) ==
                        LastValue(request + (if original.Returned? then response else []) + tokens, k)
  {
    var (uw, records) := HandleUsage(provider, model, usage);
    var bag := AdapterBag(provider, model, operation, extras);
    assert AdapterCall(provider, spanName, operation, model, extras, current, request, original, response, usage)
        == TracedCall(spanName, bag, current, request, original, response + uw, records);
    UsageAssignments(spanName, bag, current, request, original, response, uw, records);
  }

  /** With the usage writes after the response's, the assignments follow the request, response and usage writes. */
  lemma UsageAssignments<R>(spanName: string, bag: Attrs, current: Parent, request: Writes,
                            original: Outcome<R>, response: Writes, uw: Writes, records: seq<PyTypes.TokenUsage>)
    ensures var c := TracedCall(spanName, bag, current, request, original, response + uw, records);
            var tokens := if original.Returned? then uw else [];
            forall k :: OrderedDict.Get(Assignments(c.traced.log), k) ==
                        LastValue(request + (if original.Returned? then response else []) + tokens, k)
  {
    TracedCallAssignments(spanName, bag, current, request, original, response + uw, records);
    if original.Returned? {
      assert Effective(request, original, response + uw) == request + response + uw;
    } else {
      assert Effective(request, original, response + uw) == request + [] + [];
    }
  }

  /**
   * Every attribute other than the token counts holds the last value the
   * request writes, and after a return the response writes, gave it.
   */
  lemma AdapterCallAttributes<R>(provider: string, spanName: string, operation: string, model: PyValue, extras: Attrs,
                                 current: Parent, request: Writes, original: Outcome<R>, response: Writes,
                                 usage: Option<Usage>)
    requires NoRequiredNames(extras) && OrderedDict.UniqueKeys(extras)
    ensures var c := AdapterCall(provider, spanName, operation, model, extras, current, request, original, response, usage);
            forall k :: k !in TokenKeys ==>
              OrderedDict.Get(Assignments(c.traced.log), k) == LastValue(request + (if original.Returned? then response else []), k)
  {
    AdapterCallEffective(provider, spanName, operation, model, extras, current, request, original, response, usage);
    HandleUsageProperties(provider, model, usage);
    var later := if original.Returned? then response else [];
    var tokens := if original.Returned? then HandleUsage(provider, model, usage).0 else [];
    forall k | k !in TokenKeys
      ensures LastValue(request + later + tokens, k) == LastValue(request + later, k)
    {
      LastValueConcat(request + later, tokens, k);
    }
  }

  /** The same for one key. */
  lemma AdapterCallAttribute<R>(provider: string, spanName: string, operation: string, model: PyValue, extras: Attrs,
                                current: Parent, request: Writes, original: Outcome<R>, response: Writes,
                                usage: Option<Usage>, k: string)
    requires NoRequiredNames(extras) && OrderedDict.UniqueKeys(extras)
    requires k !in TokenKeys
    ensures var c := AdapterCall(provider, spanName, operation, model, extras, current, request, original, response, usage);
            OrderedDict.Get(Assignments(c.traced.log), k) == LastValue(request + (if original.Returned? then response else []), k)
  {
    AdapterCallAttributes(provider, spanName, operation, model, extras, current, request, original, response, usage);
  }

  /** After a return with usage, each token count the usage object has is on the span. */
  lemma AdapterCallTokens<R>(provider: string, spanName: string, operation: string, model: PyValue, extras: Attrs,
                             current: Parent, request: Writes, original: Outcome<R>, response: Writes,
                             usage: Option<Usage>)
    requires NoRequiredNames(extras) && OrderedDict.UniqueKeys(extras)
    requires original.Returned? && usage.Some?
    ensures var c := AdapterCall(provider, spanName, operation, model, extras, current, request, original, response, usage);
            var u := usage.value;
            && (u.promptTokens.Some? ==> OrderedDict.Get(Assignments(c.traced.log), "llm.prompt.tokens") == AsInt(u.promptTokens))
            && (u.completionTokens.Some? ==>
                  OrderedDict.Get(Assignments(c.traced.log), "llm.completion.tokens") == AsInt(u.completionTokens))
            && (u.totalTokens.Some? ==> OrderedDict.Get(Assignments(c.traced.log), "llm.total.tokens") == AsInt(u.totalTokens))
  {
    AdapterCallEffective(provider, spanName, operation, model, extras, current, request, original, response, usage);
    var uw := UsageWrites(usage.value);
    assert HandleUsage(provider, model, usage).0 == uw;
    LastValueOnce(uw, 0);
    LastValueOnce(uw, 1);
    LastValueOnce(uw, 2);
    LastValueConcat(request + response, uw, "llm.prompt.tokens");
    LastValueConcat(request + response, uw, "llm.completion.tokens");
    LastValueConcat(request + response, uw, "llm.total.tokens");
  }

  /** Writes none of which names a token count. */
  predicate NoTokenKeys(ws: Writes) {
    forall j :: 0 <= j < |ws| ==> ws[j].0 !in TokenKeys
  }

  /**
   * A wrapper that reads no usage object and writes no token count itself
   * leaves every token count unset and records no usage.
   */
  lemma AdapterCallNoUsage<R>(provider: string, spanName: string, operation: string, model: PyValue, extras: Attrs,
                              current: Parent, request: Writes, original: Outcome<R>, response: Writes)
    requires NoRequiredNames(extras) && OrderedDict.UniqueKeys(extras)
    requires NoTokenKeys(request) && NoTokenKeys(response)
    ensures var c := AdapterCall(provider, spanName, operation, model, extras, current, request, original, response, None);
            && c.usage == []
            && forall t :: t in TokenKeys ==> OrderedDict.Get(Assignments(c.traced.log), t) == None
  {
    AdapterCallEffective(provider, spanName, operation, model, extras, current, request, original, response, None);
    var ws := request + (if original.Returned? then response else []) + [];
    forall t | t in TokenKeys
      ensures LastValue(ws, t) == None
    {
      LastValueUnwritten(ws, t);
    }
  }

  /** Writes each of which names a token count. */
  predicate TokenWrites(ws: Writes) {
    forall j :: 0 <= j < |ws| ==> ws[j].0 in TokenKeys
  }

  /** The keys the writes name, in order. */
  function WriteKeys(ws: Writes): (ks: seq<string>)
    ensures |ks| == |ws| && forall i :: 0 <= i < |ws| ==> ks[i] == ws[i].0
  {
    seq(|ws|, i requires 0 <= i < |ws| => ws[i].0)
  }

  /**
   * When every write names its own key, none of them a token count, the
   * last value of the key a write names is that write's value, unless it
   * is a response write that did not take effect.
   */
  lemma LastValueDistinct(request: Writes, response: Writes, returned: bool, i: nat)
    requires PyTypes.Distinct(WriteKeys(request) + WriteKeys(response) + TokenKeys)
    requires i < |request| + |response|
    ensures (request + response)[i].0 !in TokenKeys
    ensures LastValue(request + (if returned then response else []), (request + response)[i].0) ==
            (if i < |request| || returned then (request + response)[i].1 else None)
  {
    var ws := request + response;
    var keys := WriteKeys(request) + WriteKeys(response) + TokenKeys;
    assert forall j :: 0 <= j < |ws| ==> keys[j] == ws[j].0;
    var k := ws[i].0;
    forall t | 0 <= t < |TokenKeys|
      ensures TokenKeys[t] != k
    {
      assert keys[|ws| + t] == TokenKeys[t];
    }
    if returned {
      LastValueOnce(ws, i);
    } else if i < |request| {
      assert request + [] == request;
      assert forall j :: 0 <= j < |request| ==> request[j] == ws[j];
      LastValueOnce(request, i);
    } else {
      assert request + [] == request;
      assert forall j :: 0 <= j < |request| ==> request[j] == ws[j];
      LastValueUnwritten(request, k);
    }
  }

  /**
   * When every write names its own key, none of them a token count, the
   * attribute a write names ends up holding that write's value, except
   * that a response write takes no effect when the call raised.
   */
  lemma KeyAt<R>(provider: string, spanName: string, operation: string, model: PyValue, extras: Attrs,
                 current: Parent, request: Writes, original: Outcome<R>, response: Writes,
                 usage: Option<Usage>, i: nat)
    requires NoRequiredNames(extras) && OrderedDict.UniqueKeys(extras)
    requires PyTypes.Distinct(WriteKeys(request) + WriteKeys(response) + TokenKeys)
    requires i < |request| + |response|
    ensures var c := AdapterCall(provider, spanName, operation, model, extras, current, request, original, response, usage);
            var ws := request + response;
            OrderedDict.Get(Assignments(c.traced.log), ws[i].0) ==
            (if i < |request| || original.Returned? then ws[i].1 else None)
  {
    LastValueDistinct(request, response, original.Returned?, i);
    AdapterCallAttribute(provider, spanName, operation, model, extras, current, request, original, response, usage,
                         (request + response)[i].0);
  }

  /** Token-count writes after the others leave every other key's last value alone. */
  lemma LastValueBeforeTokens(request: Writes, head: Writes, tail: Writes, returned: bool, i: nat)
    requires PyTypes.Distinct(WriteKeys(request) + WriteKeys(head) + TokenKeys)
    requires TokenWrites(tail)
    requires i < |request| + |head|
    ensures (request + head)[i].0 !in TokenKeys
    ensures LastValue(request + (if returned then head + tail else []), (request + head)[i].0) ==
            (if i < |request| || returned then (request + head)[i].1 else None)
  {
    LastValueDistinct(request, head, returned, i);
    var k := (request + head)[i].0;
    if returned {
      assert request + (head + tail) == (request + head) + tail;
      LastValueSkip(request + head, tail, k);
    } else {
      assert request + [] == request;
    }
  }

  /**
   * The same when the response writes end with token counts (a provider
   * that copies its usage object onto the span itself): those later writes
   * leave every other attribute alone.
   */
  lemma KeyAtBeforeTokens<R>(provider: string, spanName: string, operation: string, model: PyValue, extras: Attrs,
                             current: Parent, request: Writes, original: Outcome<R>, head: Writes, tail: Writes,
                             usage: Option<Usage>, i: nat)
    requires NoRequiredNames(extras) && OrderedDict.UniqueKeys(extras)
    requires PyTypes.Distinct(WriteKeys(request) + WriteKeys(head) + TokenKeys)
    requires TokenWrites(tail)
    requires i < |request| + |head|
    ensures var c := AdapterCall(provider, spanName, operation, model, extras, current, request, original, head + tail, usage);
            var ws := request + head;
            OrderedDict.Get(Assignments(c.traced.log), ws[i].0) ==
            (if i < |request| || original.Returned? then ws[i].1 else None)
  {
    LastValueBeforeTokens(request, head, tail, original.Returned?, i);
    AdapterCallAttribute(provider, spanName, operation, model, extras, current, request, original, head + tail, usage,
                         (request + head)[i].0);
  }

  /** The same, for the `j`-th response write counted from the start of the response writes. */
  lemma KeyInHead<R>(provider: string, spanName: string, operation: string, model: PyValue, extras: Attrs,
                     current: Parent, request: Writes, original: Outcome<R>, head: Writes, tail: Writes,
                     usage: Option<Usage>, j: nat)
    requires NoRequiredNames(extras) && OrderedDict.UniqueKeys(extras)
    requires PyTypes.Distinct(WriteKeys(request) + WriteKeys(head) + TokenKeys)
    requires TokenWrites(tail)
    requires j < |head|
    ensures var c := AdapterCall(provider, spanName, operation, model, extras, current, request, original, head + tail, usage);
            OrderedDict.Get(Assignments(c.traced.log), head[j].0) == (if original.Returned? then head[j].1 else None)
  {
    assert (request + head)[|request| + j] == head[j] by {
      PastPrefix(request, head, j);
    }
    KeyAtBeforeTokens(provider, spanName, operation, model, extras, current, request, original, head, tail, usage, |request| + j);
  }

  lemma PastPrefix<T>(a: seq<T>, b: seq<T>, j: nat)
    requires j < |b|
    ensures (a + b)[|a| + j] == b[j]
  {
  }

  /**
   * Writing a run again straight after writing it changes no key's last
   * value: the repeated writes decide whatever the first ones did.
   */
  lemma LastValueRepeatedRun(a: Writes, s: Writes, b: Writes, k: string)
    requires |s| <= |b| && b[..|s|] == s
    ensures LastValue(a + s + b, k) == LastValue(a + b, k)
  {
    LastValueConcat(a + s, b, k);
    LastValueConcat(a, b, k);
    LastValueConcat(a, s, k);
    assert b == s + b[|s|..];
    LastValueConcat(s, b[|s|..], k);
  }

  /**
   * Request and response writes that leave a key with the last value that
   * `req` and `head + tail` would leave it leave it as those would.
   */
  lemma LastValueEquivalent(request: Writes, response: Writes, req: Writes, head: Writes, tail: Writes,
                            returned: bool, i: nat)
    requires PyTypes.Distinct(WriteKeys(req) + WriteKeys(head) + TokenKeys)
    requires TokenWrites(tail)
    requires i < |req| + |head|
    requires LastValue(request, (req + head)[i].0) == LastValue(req, (req + head)[i].0)
    requires LastValue(response, (req + head)[i].0) == LastValue(head + tail, (req + head)[i].0)
    ensures (req + head)[i].0 !in TokenKeys
    ensures LastValue(request + (if returned then response else []), (req + head)[i].0) ==
            (if i < |req| || returned then (req + head)[i].1 else None)
  {
    LastValueBeforeTokens(req, head, tail, returned, i);
    var k := (req + head)[i].0;
    var later, reduced := if returned then response else [], if returned then head + tail else [];
    LastValueConcat(request, later, k);
    LastValueConcat(req, reduced, k);
  }

  /**
   * The same as KeyAtBeforeTokens for writes that leave the key with the
   * last value `req` and `head + tail` would leave it, such as writes that
   * name some keys twice.
   */
  lemma KeyAtEquivalent<R>(provider: string, spanName: string, operation: string, model: PyValue, extras: Attrs,
                           current: Parent, request: Writes, original: Outcome<R>, response: Writes, req: Writes,
                           head: Writes, tail: Writes, usage: Option<Usage>, i: nat)
    requires NoRequiredNames(extras) && OrderedDict.UniqueKeys(extras)
    requires PyTypes.Distinct(WriteKeys(req) + WriteKeys(head) + TokenKeys)
    requires TokenWrites(tail)
    requires i < |req| + |head|
    requires LastValue(request, (req + head)[i].0) == LastValue(req, (req + head)[i].0)
    requires LastValue(response, (req + head)[i].0) == LastValue(head + tail, (req + head)[i].0)
    ensures var c := AdapterCall(provider, spanName, operation, model, extras, current, request, original, response, usage);
            var ws := req + head;
            OrderedDict.Get(Assignments(c.traced.log), ws[i].0) ==
            (if i < |req| || original.Returned? then ws[i].1 else None)
  {
    LastValueEquivalent(request, response, req, head, tail, original.Returned?, i);
    AdapterCallAttribute(provider, spanName, operation, model, extras, current, request, original, response, usage,
                         (req + head)[i].0);
  }

  /** A write that a later write to the same key overrides changes no key's last value. */
  lemma LastValueOverridden(a: Writes, w: (string, Option<PyValue>), b: Writes, k: string)
    requires exists j :: 0 <= j < |b| && b[j].0 == w.0 && b[j].1.Some?
    ensures LastValue(a + [w] + b, k) == LastValue(a + b, k)
  {
    LastValueConcat(a + [w], b, k);
    LastValueConcat(a, b, k);
    LastValueConcat(a, [w], k);
    if k == w.0 {
      var j :| 0 <= j < |b| && b[j].0 == w.0 && b[j].1.Some?;
      LastValueConcat(b[..j + 1], b[j + 1..], k);
      assert b == b[..j + 1] + b[j + 1..];
    }
  }
}
