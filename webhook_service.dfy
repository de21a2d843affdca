/** `WebhookService`: runs a list of enrichers over a webhook payload, in
    order, each on the payload the previous ones produced. A successful result
    is merged into the accumulated payload (its keys overwrite); a failing
    enricher is skipped and the next one runs. */
module WebhookService {
  import opened Results
  import opened PyValues
  import opened Protocols
  import Enrichers

  /** `enriched.update(result)`. */
  function Update(acc: Payload, result: Payload): (r: Payload)
    ensures r.Keys == acc.Keys + result.Keys
    ensures forall k :: k in result ==> r[k] == result[k]
    ensures forall k :: k in acc && k !in result ==> r[k] == acc[k]
  {
    acc + result
  }

  /** One pass of the loop body: merge on success, keep on failure. */
  function Step(e: Enricher, acc: Payload): Payload {
    match e(acc)
    case Ok(result) => Update(acc, result)
    case Err(_) => acc
  }

  /** The payload after the given enrichers have run, in order. No step
      removes a key: every key of the input is a key of the output. */
  function Process(es: seq<Enricher>, payload: Payload): (r: Payload)
    ensures payload.Keys <= r.Keys
    decreases |es|
  {
    if es == [] then payload else Step(es[|es| - 1], Process(es[..|es| - 1], payload))
  }

  class WebhookService {
    const enrichers: seq<Enricher>

    constructor(enrichers: seq<Enricher>)
      ensures this.enrichers == enrichers
    {
      this.enrichers := enrichers;
    }

    /** `process_webhook`: the enriched payload, and the payload each enricher
        was handed, in the order they were called. The caller's payload is a
        value and cannot be changed. */
    method ProcessWebhook(payload: Payload) returns (enriched: Payload, calls: seq<Payload>)
      ensures enriched == Process(enrichers, payload)
      ensures |calls| == |enrichers|
      ensures forall i :: 0 <= i < |calls| ==> calls[i] == Process(enrichers[..i], payload)
      ensures payload.Keys <= enriched.Keys
    {
      enriched := payload;
      calls := [];
      for i := 0 to |enrichers|
        invariant enriched == Process(enrichers[..i], payload)
        invariant |calls| == i
        invariant forall j :: 0 <= j < i ==> calls[j] == Process(enrichers[..j], payload)
      {
        assert enrichers[..i + 1][..i] == enrichers[..i];
        calls := calls + [enriched];
        var outcome := enrichers[i](enriched);
        match outcome {
          case Ok(result) =>
            enriched := enriched + result;
          case Err(_) =>
        }
      }
      assert enrichers[..|enrichers|] == enrichers;
    }
  }

  // ---------------------------------------------------------------------------
  // Properties

  /** Running two lists one after the other is running their concatenation. */
  lemma {:induction false} ProcessConcat(a: seq<Enricher>, b: seq<Enricher>, payload: Payload)
    ensures Process(a + b, payload) == Process(b, Process(a, payload))
    decreases |b|
  {
    if b == [] {
      assert a + b == a;
    } else {
      assert (a + b)[..|a + b| - 1] == a + b[..|b| - 1];
      ProcessConcat(a, b[..|b| - 1], payload);
    }
  }

  /** When every enricher fails on the payload it is handed (or there are
      none), the output is the input. */
  lemma {:induction false} AllFailuresKeepPayload(es: seq<Enricher>, payload: Payload)
    requires forall i :: 0 <= i < |es| ==> es[i](Process(es[..i], payload)).Err?
    ensures Process(es, payload) == payload
    decreases |es|
  {
    if es != [] {
      var init := es[..|es| - 1];
      assert forall i :: 0 <= i < |init| ==> init[..i] == es[..i];
      AllFailuresKeepPayload(init, payload);
    }
  }

  /** An enricher that always raises leaves every later enricher's input as if
      it had not been in the list. */
  lemma FailingEnricherIsSkipped(a: seq<Enricher>, e: Enricher, b: seq<Enricher>, payload: Payload)
    requires forall p :: e(p).Err?
    ensures Process(a + [e] + b, payload) == Process(a + b, payload)
  {
    ProcessConcat(a + [e], b, payload);
    ProcessConcat(a, [e], payload);
    ProcessConcat(a, b, payload);
    assert Process([e], Process(a, payload)) == Process(a, payload) by {
      assert [e][..0] == [];
    }
  }

  /** The keys the last successful enricher returned hold its values in the
      output, and every other key keeps the value it had before that step. */
  lemma LastResultWins(es: seq<Enricher>, e: Enricher, payload: Payload)
    requires e(Process(es, payload)).Ok?
    ensures var before := Process(es, payload);
            var result := e(before).value;
            var after := Process(es + [e], payload);
            && (forall k :: k in result ==> after[k] == result[k])
            && (forall k :: k in before && k !in result ==> after[k] == before[k])
  {
    assert (es + [e])[..|es|] == es;
  }

  /** Each step whose enricher only touches the given keys keeps the whole run
      within those keys. */
  lemma {:induction false} ProcessChangesOnly(es: seq<Enricher>, payload: Payload, keys: set<string>)
    requires forall i, p :: 0 <= i < |es| && es[i](p).Ok? ==> ChangesOnly(p, p + es[i](p).value, keys)
    ensures ChangesOnly(payload, Process(es, payload), keys)
    decreases |es|
  {
    if es != [] {
      var init := es[..|es| - 1];
      ProcessChangesOnly(init, payload, keys);
      var mid := Process(init, payload);
      ChangesOnlyTrans(payload, mid, Process(es, payload), keys);
    }
  }

  lemma ChangesOnlyTrans(p: Payload, q: Payload, r: Payload, keys: set<string>)
    requires ChangesOnly(p, q, keys) && ChangesOnly(q, r, keys)
    ensures ChangesOnly(p, r, keys)
  {
  }

  /** Merging an enricher's result back changes only what the enricher itself
      changed. */
  lemma MergeChangesOnly(p: Payload, result: Payload, keys: set<string>)
    requires ChangesOnly(p, result, keys)
    ensures p + result == result
  {
  }

  /** The service as configured in production: the GitHub enricher, then the
      Zenhub enricher. Whatever the clients answer, the output differs from
      the webhook only in `github_issue` and `zenhub_issue`, and keeps every
      key the webhook had. */
  lemma StandardPipeline(payload: Payload, fetch: Enrichers.IssueFetch, token: Option<string>,
                         repoId: Enrichers.RepoIdFetch, board: Enrichers.BoardFetch)
    ensures ChangesOnly(payload,
                        Process([Enrichers.GitHubEnricher(fetch), Enrichers.ZenhubEnricher(token, repoId, board)], payload),
                        {Enrichers.GitHubKey, Enrichers.ZenhubKey})
  {
    var es := [Enrichers.GitHubEnricher(fetch), Enrichers.ZenhubEnricher(token, repoId, board)];
    var keys := {Enrichers.GitHubKey, Enrichers.ZenhubKey};
    forall i, p | 0 <= i < |es| && es[i](p).Ok?
      ensures ChangesOnly(p, p + es[i](p).value, keys)
    {
      MergeChangesOnly(p, es[i](p).value, keys);
    }
    ProcessChangesOnly(es, payload, keys);
  }
}
