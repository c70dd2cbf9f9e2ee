/** `ChatbotIngestor`: one conversational turn, composed of extraction, store writes,
    validation, trigger filtering and invocation, next-action suggestion and the reply. */
module Ingestor {
  import opened Results
  import opened Text
  import opened Values
  import opened Context
  import opened Validation
  import opened Orchestrator

  const CompanyInfo := "company_info"
  const UnknownIntent := "unknown"

  /** The two replies `_generate_response` chooses between. */
  const CompanyFollowUp := "Gracias por la información " + "sobre tu empresa. "
                           + "¿Podrías contarme más " + "sobre tu producto principal?"
  const DefaultReply := "Entiendo. " + "¿Hay algo más que necesites compartir?"

  datatype ProcessResult = ProcessResult(
    responseText: string,
    contextUpdated: ContextView,
    validationStatus: map<string, ValidationResult>,
    agentsTriggered: seq<string>,
    nextSuggestedAction: string)

  /** `_extract_intent_and_data`: keyword spotting on the lower-cased text. */
  function ExtractIntentAndData(text: string): (r: (string, Dict))
    ensures r.0 == CompanyInfo || r.0 == UnknownIntent
    ensures r.0 == UnknownIntent ==> r.1 == map[]
    ensures r.0 == CompanyInfo ==> r.1.Keys == {"company_type"} && r.1["company_type"].VStr?
  {
    var lowered := Lower(text);
    if Contains(lowered, "empresa") then
      (CompanyInfo, map["company_type" := VStr(if Contains(lowered, "startup") then "startup" else "empresa")])
    else (UnknownIntent, map[])
  }

  /** Extraction yields "company_info" exactly when the lower-cased text contains
      "empresa", with `company_type` "startup" exactly when it also contains
      "startup"; otherwise the intent is "unknown" and nothing is extracted. */
  lemma ExtractionCases(text: string)
    ensures var (intent, fields) := ExtractIntentAndData(text);
      && (intent == CompanyInfo <==> Contains(Lower(text), "empresa"))
      && (intent == CompanyInfo ==>
            && fields.Keys == {"company_type"}
            && (fields["company_type"] == VStr("startup") <==> Contains(Lower(text), "startup"))
            && (fields["company_type"] == VStr("empresa") <==> !Contains(Lower(text), "startup")))
      && (intent != CompanyInfo ==> intent == UnknownIntent && fields == map[])
  {
  }

  /** "empresa" written in any mix of ASCII cases anywhere in the text is recognised. */
  lemma MentionAnywhereIsRecognised(text: string, i: nat)
    requires i + 7 <= |text| && Lower(text[i..i + 7]) == "empresa"
    ensures ExtractIntentAndData(text).0 == CompanyInfo
  {
    var lowered := Lower(text);
    assert lowered[i..i + 7] == Lower(text[i..i + 7]);
    assert OccursAt(lowered, "empresa", i);
    ContainsIffOccurs(lowered, "empresa");
  }

  /** `_generate_response`: the validation and agent results are accepted and not consulted. */
  function GenerateResponse(intent: string, validationResults: map<string, ValidationResult>,
                            agentResults: map<string, Value>): (r: string)
    ensures r == CompanyFollowUp || r == DefaultReply
  {
    if intent == CompanyInfo then CompanyFollowUp else DefaultReply
  }

  /** The reply depends on the intent alone: the follow-up question exactly for
      "company_info", the default reply for every other intent. */
  lemma ResponseDependsOnlyOnIntent(intent: string, v1: map<string, ValidationResult>, a1: map<string, Value>,
                                    v2: map<string, ValidationResult>, a2: map<string, Value>)
    ensures GenerateResponse(intent, v1, a1) == GenerateResponse(intent, v2, a2)
    ensures GenerateResponse(intent, v1, a1) == CompanyFollowUp <==> intent == CompanyInfo
    ensures GenerateResponse(intent, v1, a1) == DefaultReply <==> intent != CompanyInfo
  {
    assert CompanyFollowUp[0] == 'G' && DefaultReply[0] == 'E';
  }

  /** The per-field verdicts of a turn. */
  function ValidationStatus(engine: Engine, fields: Dict, context: ContextView): (r: map<string, ValidationResult>)
    ensures r.Keys == fields.Keys
  {
    map f | f in fields :: ValidateField(engine, f, fields[f], context)
  }

  /** Invoking `names` in order, as `process_message` does: the results gathered by
      agent name, or the error of the first invocation that fails, which ends the
      run; and the requests sent, the failing one included. */
  function Run(agents: map<string, AgentConfig>, names: seq<string>, context: ContextView,
               reply: Request -> Reply): (Result<map<string, Value>>, seq<Request>)
  {
    if names == [] then (Ok(map[]), [])
    else
      var (earlier, sent) := Run(agents, names[..|names| - 1], context, reply);
      var last := names[|names| - 1];
      if earlier.Err? then (earlier, sent)
      else
        var posted := if last in agents then [Request(agents[last].endpoint, EncodeContext(context))] else [];
        match InvokeOutcome(agents, last, context, reply)
        case Ok(v) => (Ok(earlier.value[last := v]), sent + posted)
        case Err(e) => (Err(e), sent + posted)
  }

  /** A run succeeds exactly when every invocation does; its results are then keyed
      by exactly the invoked names, each holding that agent's result. */
  lemma {:induction false} RunSucceedsIff(agents: map<string, AgentConfig>, names: seq<string>, context: ContextView,
                                          reply: Request -> Reply)
    ensures Run(agents, names, context, reply).0.Ok?
            <==> forall j :: 0 <= j < |names| ==> InvokeOutcome(agents, names[j], context, reply).Ok?
    ensures Run(agents, names, context, reply).0.Ok? ==>
      var results := Run(agents, names, context, reply).0.value;
      && (forall n :: n in results <==> n in names)
      && (forall n :: n in results ==> InvokeOutcome(agents, n, context, reply) == Ok(results[n]))
  {
    if names != [] {
      var init := names[..|names| - 1];
      RunSucceedsIff(agents, init, context, reply);
      assert forall j :: 0 <= j < |init| ==> init[j] == names[j];
      assert names == init + [names[|names| - 1]];
      assert forall n :: n in names <==> n in init || n == names[|names| - 1];
    }
  }

  /** Once an invocation has failed, the rest of the run adds nothing. */
  lemma {:induction false} RunStopsAtFailure(agents: map<string, AgentConfig>, names: seq<string>, context: ContextView,
                                             reply: Request -> Reply, j: nat)
    requires j <= |names| && Run(agents, names[..j], context, reply).0.Err?
    ensures Run(agents, names, context, reply) == Run(agents, names[..j], context, reply)
    decreases |names|
  {
    if j < |names| {
      var init := names[..|names| - 1];
      assert init[..j] == names[..j];
      RunStopsAtFailure(agents, init, context, reply, j);
    } else {
      assert names[..j] == names;
    }
  }

  /** A failed run carries the error of its earliest failing invocation, `k`, and is
      the run of the names up to and including that one. */
  lemma {:induction false} RunFailsAtFirstFailure(agents: map<string, AgentConfig>, names: seq<string>,
                                                  context: ContextView, reply: Request -> Reply)
    returns (k: nat)
    requires Run(agents, names, context, reply).0.Err?
    ensures k < |names|
    ensures forall j :: 0 <= j < k ==> InvokeOutcome(agents, names[j], context, reply).Ok?
    ensures InvokeOutcome(agents, names[k], context, reply) == Err(Run(agents, names, context, reply).0.error)
    ensures Run(agents, names, context, reply) == Run(agents, names[..k + 1], context, reply)
  {
    var init := names[..|names| - 1];
    if Run(agents, init, context, reply).0.Err? {
      assert Run(agents, names, context, reply) == Run(agents, init, context, reply);
      k := RunFailsAtFirstFailure(agents, init, context, reply);
      assert init[..k + 1] == names[..k + 1];
      forall j | 0 <= j <= k
        ensures init[j] == names[j]
      {
      }
    } else {
      k := |names| - 1;
      assert names[..k + 1] == names;
      RunLastFails(agents, names, context, reply);
    }
  }

  /** When every invocation but the last succeeds, a failed run is the last one's failure. */
  lemma RunLastFails(agents: map<string, AgentConfig>, names: seq<string>,
                     context: ContextView, reply: Request -> Reply)
    requires names != [] && Run(agents, names[..|names| - 1], context, reply).0.Ok?
    requires Run(agents, names, context, reply).0.Err?
    ensures forall j :: 0 <= j < |names| - 1 ==> InvokeOutcome(agents, names[j], context, reply).Ok?
    ensures InvokeOutcome(agents, names[|names| - 1], context, reply) == Err(Run(agents, names, context, reply).0.error)
  {
    var init := names[..|names| - 1];
    RunSucceedsIff(agents, init, context, reply);
    forall j | 0 <= j < |names| - 1
      ensures InvokeOutcome(agents, names[j], context, reply).Ok?
    {
      assert init[j] == names[j];
    }
  }

  /** One more invocation after a successful prefix: its request, if any, is appended,
      and its outcome either extends the results or becomes the run's error. */
  lemma RunExtends(agents: map<string, AgentConfig>, names: seq<string>, i: nat,
                   context: ContextView, reply: Request -> Reply)
    requires i < |names| && Run(agents, names[..i], context, reply).0.Ok?
    ensures Run(agents, names[..i + 1], context, reply).1 == Run(agents, names[..i], context, reply).1
              + (if names[i] in agents then [Request(agents[names[i]].endpoint, EncodeContext(context))] else [])
    ensures InvokeOutcome(agents, names[i], context, reply).Ok? ==>
              Run(agents, names[..i + 1], context, reply).0
              == Ok(Run(agents, names[..i], context, reply).0.value[names[i] := InvokeOutcome(agents, names[i], context, reply).value])
    ensures InvokeOutcome(agents, names[i], context, reply).Err? ==>
              Run(agents, names[..i + 1], context, reply).0 == Err(InvokeOutcome(agents, names[i], context, reply).error)
  {
    assert names[..i + 1][..i] == names[..i];
  }

  /** A run over registered agents that succeeds sends one request per agent, in
      order, each to that agent's endpoint with the encoded context. */
  lemma {:induction false} RunRequestsInOrder(agents: map<string, AgentConfig>, names: seq<string>,
                                              context: ContextView, reply: Request -> Reply)
    requires forall n :: n in names ==> n in agents
    requires Run(agents, names, context, reply).0.Ok?
    ensures var sent := Run(agents, names, context, reply).1;
      && |sent| == |names|
      && forall j :: 0 <= j < |names| ==> sent[j] == Request(agents[names[j]].endpoint, EncodeContext(context))
  {
    if names != [] {
      var init := names[..|names| - 1];
      var last := names[|names| - 1];
      var (earlier, sent) := Run(agents, init, context, reply);
      assert earlier.Ok?;
      assert last in agents;
      var req := Request(agents[last].endpoint, EncodeContext(context));
      assert Run(agents, names, context, reply).1 == sent + [req];
      assert forall n :: n in init ==> n in names;
      RunRequestsInOrder(agents, init, context, reply);
      assert forall j :: 0 <= j < |init| ==> init[j] == names[j];
    }
  }

  /** A turn whose invocations all succeed sends exactly one request per triggered
      agent, in registration order, each to that agent's endpoint. */
  lemma TurnInvokesEachTriggeredAgentOnce(order: seq<string>, agents: map<string, AgentConfig>,
                                          snapshot: ContextView, reply: Request -> Reply)
    requires RegistryValid(order, agents)
    requires Run(agents, Eligible(order, agents, snapshot), snapshot, reply).0.Ok?
    ensures var triggered := Eligible(order, agents, snapshot);
      var sent := Run(agents, triggered, snapshot, reply).1;
      && |sent| == |triggered|
      && Distinct(triggered)
      && forall j :: 0 <= j < |triggered| ==>
           triggered[j] in agents && sent[j] == Request(agents[triggered[j]].endpoint, EncodeContext(snapshot))
  {
    EligibleIsOrderedFilter(order, agents, snapshot);
    RunRequestsInOrder(agents, Eligible(order, agents, snapshot), snapshot, reply);
  }

  class ChatbotIngestor {
    const store: ContextManager
    const engine: Engine
    const orchestrator: AgentOrchestrator

    constructor(store: ContextManager, engine: Engine, orchestrator: AgentOrchestrator)
      ensures this.store == store && this.engine == engine && this.orchestrator == orchestrator
    {
      this.store := store;
      this.engine := engine;
      this.orchestrator := orchestrator;
    }

    /** The turn's store writes: one `update_context` call per extracted field. */
    method WriteFields(sessionId: string, fields: Dict)
      requires store.Valid() && sessionId in store.sessions
      modifies store
      ensures store.Valid()
      ensures store.sessions == old(store.sessions)[sessionId := WithFields(old(store.sessions)[sessionId], fields)]
    {
      ghost var record := store.sessions[sessionId];
      var pending := fields.Keys;
      ghost var written: Dict := map[];
      while pending != {}
        invariant pending <= fields.Keys
        invariant written == map f | f in fields && f !in pending :: fields[f]
        invariant store.Valid()
        invariant store.sessions == old(store.sessions)[sessionId := WithFields(record, written)]
        decreases pending
      {
        var field :| field in pending;
        var _ := store.UpdateContext(sessionId, field, fields[field]);
        WithFieldsStep(record, written, field, fields[field]);
        written := written[field := fields[field]];
        pending := pending - {field};
      }
      assert written == fields;
    }

    /** The turn's validation: every extracted field against the snapshot. */
    method ValidateFields(fields: Dict, context: ContextView) returns (results: map<string, ValidationResult>)
      ensures results == ValidationStatus(engine, fields, context)
    {
      results := map[];
      var unchecked := fields.Keys;
      while unchecked != {}
        invariant unchecked <= fields.Keys
        invariant results == map f | f in fields && f !in unchecked :: ValidateField(engine, f, fields[f], context)
        decreases unchecked
      {
        var field :| field in unchecked;
        results := results[field := ValidateField(engine, field, fields[field], context)];
        unchecked := unchecked - {field};
      }
    }

    /** The turn's invocations, in trigger order; the first failure ends them and
        its error propagates. */
    method InvokeTriggered(triggered: seq<string>, context: ContextView, reply: Request -> Reply)
      returns (r: Result<map<string, Value>>)
      requires orchestrator.Valid()
      modifies orchestrator
      ensures orchestrator.Valid()
      ensures orchestrator.order == old(orchestrator.order) && orchestrator.agents == old(orchestrator.agents)
      ensures var (outcome, sent) := Run(old(orchestrator.agents), triggered, context, reply);
        r == outcome && orchestrator.Posts() == old(orchestrator.Posts()) + sent
    {
      ghost var agents := orchestrator.agents;
      ghost var before := orchestrator.Posts();
      var results: map<string, Value> := map[];
      var i := 0;
      while i < |triggered|
        invariant 0 <= i <= |triggered|
        invariant orchestrator.agents == agents && orchestrator.order == old(orchestrator.order)
        invariant Run(agents, triggered[..i], context, reply).0 == Ok(results)
        invariant orchestrator.Posts() == before + Run(agents, triggered[..i], context, reply).1
      {
        var name := triggered[i];
        RunExtends(agents, triggered, i, context, reply);
        var res := orchestrator.InvokeAgent(name, context, reply);
        if res.Err? {
          RunStopsAtFailure(agents, triggered, context, reply, i + 1);
          return Err(res.error);
        }
        results := results[name := res.value];
        i := i + 1;
      }
      assert triggered[..i] == triggered;
      r := Ok(results);
    }

    /** `process_message`. The context is read once, before this turn's writes, and
        that snapshot is what validation, trigger checking, invocation, next-action
        and the returned `context_updated` all see. An invocation that fails ends the
        turn with its error, after the store writes and the requests sent so far. */
    method ProcessMessage(text: string, sessionId: string, userRole: string, reply: Request -> Reply)
      returns (r: Result<ProcessResult>)
      requires store.Valid() && orchestrator.Valid()
      modifies store, orchestrator
      ensures store.Valid() && orchestrator.Valid()
      ensures orchestrator.order == old(orchestrator.order) && orchestrator.agents == old(orchestrator.agents)
      ensures sessionId !in old(store.sessions) ==>
        && r == Err(NotFound(sessionId))
        && store.sessions == old(store.sessions)
        && orchestrator.Posts() == old(orchestrator.Posts())
      ensures sessionId in old(store.sessions) ==>
        var snapshot := View(old(store.sessions)[sessionId]);
        var (intent, fields) := ExtractIntentAndData(text);
        var triggered := Eligible(old(orchestrator.order), old(orchestrator.agents), snapshot);
        var (invoked, sent) := Run(old(orchestrator.agents), triggered, snapshot, reply);
        && store.sessions == old(store.sessions)[sessionId := WithFields(old(store.sessions)[sessionId], fields)]
        && orchestrator.Posts() == old(orchestrator.Posts()) + sent
        && (invoked.Err? ==> r == Err(invoked.error))
        && (invoked.Ok? ==>
              r == Ok(ProcessResult(
                     GenerateResponse(intent, ValidationStatus(engine, fields, snapshot), invoked.value),
                     snapshot,
                     ValidationStatus(engine, fields, snapshot),
                     triggered,
                     NextAction(engine.structureRules, snapshot.data))))
    {
      var (intent, extractedData) := ExtractIntentAndData(text);
      var got := store.GetContext(sessionId);
      if got.Err? {
        return Err(got.error);
      }
      var context := got.value;
      WriteFields(sessionId, extractedData);
      var validationResults := ValidateFields(extractedData, context);
      var triggered := orchestrator.CheckTriggers(context);
      var invoked := InvokeTriggered(triggered, context, reply);
      if invoked.Err? {
        return Err(invoked.error);
      }
      var nextAction := SuggestNextAction(engine, context);
      r := Ok(ProcessResult(
             GenerateResponse(intent, validationResults, invoked.value),
             context,
             validationResults,
             triggered,
             nextAction));
    }
  }
}
