/** `AgentOrchestrator`: the agent registry, the trigger filter and agent invocation. */
module Orchestrator {
  import opened Results
  import opened Text
  import opened Values
  import opened Context

  /** A trigger condition. The source stores an arbitrary callable over the context;
      here it is a small expression language over the `get_context` view. */
  datatype Trigger =
    | Always
    | FieldPresent(field: string)
    | FieldFilled(field: string)
    | CompletionAtLeast(num: nat, den: nat)
    | AgentResultPresent(agent: string)
    | And(left: Trigger, right: Trigger)
    | Or(left: Trigger, right: Trigger)
    | Not(inner: Trigger)

  /** An agent's entry under `agent_triggers` carries a "result" (where the report
      generator reads earlier agents' results). */
  predicate HasResult(ctx: ContextView, agent: string)
  {
    agent in ctx.agentTriggers && ctx.agentTriggers[agent].VDict? && "result" in ctx.agentTriggers[agent].entries
  }

  predicate Holds(t: Trigger, ctx: ContextView)
  {
    match t
    case Always => true
    case FieldPresent(f) => f in ctx.data
    case FieldFilled(f) => f in ctx.data && Truthy(ctx.data[f])
    case CompletionAtLeast(num, den) =>
      |ctx.data| > 0 && Filled(ctx.data) * den >= num * |ctx.data|
    case AgentResultPresent(a) => HasResult(ctx, a)
    case And(l, r) => Holds(l, ctx) && Holds(r, ctx)
    case Or(l, r) => Holds(l, ctx) || Holds(r, ctx)
    case Not(i) => !Holds(i, ctx)
  }

  datatype AgentConfig = AgentConfig(name: string, triggerCondition: Trigger, endpoint: string)

  /** An HTTP POST of a JSON body to an agent's endpoint. */
  datatype Request = Request(endpoint: string, body: Dict)

  datatype JsonBody = Parsed(v: Value) | Malformed(reason: string)

  /** What the remote side answers to a request: a status with a body, or a failure
      of the transport (connection refused, timeout, ...). */
  datatype Reply = Reply(status: int, body: JsonBody) | TransportFailure(reason: string)

  function NotRegistered(name: string): string
  {
    "Agente no encontrado: " + name
  }

  function CommError(reason: string): string
  {
    "Error al comunicarse con el agente: " + reason
  }

  /** The JSON object posted to an agent: the `get_context` view with `created_at`
      rendered as a JSON value. */
  function EncodeContext(ctx: ContextView): Dict
  {
    map["session_id" := VStr(ctx.sessionId),
        "user_role" := VStr(ctx.userRole),
        "created_at" := VInt(ctx.createdAt),
        "data" := VDict(ctx.data),
        "validation_state" := VDict(ctx.validationState),
        "agent_triggers" := VDict(ctx.agentTriggers)]
  }

  /** The handling of a reply inside `invoke_agent`'s `try`: only status 200 yields a
      result; every other outcome is re-raised wrapped in the communication error. */
  function ReplyOutcome(rep: Reply): Result<Value>
  {
    match rep
    case TransportFailure(reason) => Err(CommError(reason))
    case Reply(status, body) =>
      if status != 200 then Err(CommError("Error al invocar agente: " + IntToString(status)))
      else match body
        case Parsed(v) => Ok(v)
        case Malformed(reason) => Err(CommError(reason))
  }

  /** `invoke_agent`'s outcome for a registry, an agent name, a context and the
      remote side's behaviour `reply`. */
  function InvokeOutcome(agents: map<string, AgentConfig>, name: string, ctx: ContextView,
                         reply: Request -> Reply): (r: Result<Value>)
    ensures r.Ok? ==> name in agents
  {
    if name !in agents then Err(NotRegistered(name))
    else ReplyOutcome(reply(Request(agents[name].endpoint, EncodeContext(ctx))))
  }

  /** An unregistered name fails with "Agente no encontrado" whatever the remote side
      would do; a registered one yields a result exactly when the agent answers 200
      with a JSON body, and that body is the result. */
  lemma InvokeOutcomeCases(agents: map<string, AgentConfig>, name: string, ctx: ContextView,
                           reply: Request -> Reply)
    ensures name !in agents ==> InvokeOutcome(agents, name, ctx, reply) == Err(NotRegistered(name))
    ensures name in agents ==>
      var rep := reply(Request(agents[name].endpoint, EncodeContext(ctx)));
      (InvokeOutcome(agents, name, ctx, reply).Ok? <==> rep.Reply? && rep.status == 200 && rep.body.Parsed?)
      && (InvokeOutcome(agents, name, ctx, reply).Ok? ==> InvokeOutcome(agents, name, ctx, reply).value == rep.body.v)
      && (InvokeOutcome(agents, name, ctx, reply).Err? ==>
            exists reason :: InvokeOutcome(agents, name, ctx, reply).error == CommError(reason))
  {
    if name in agents {
      var rep := reply(Request(agents[name].endpoint, EncodeContext(ctx)));
      match rep
      case TransportFailure(reason) =>
      case Reply(status, body) =>
        if status != 200 {
          assert InvokeOutcome(agents, name, ctx, reply).error
                 == CommError("Error al invocar agente: " + IntToString(status));
        }
    }
  }

  /** The message Python's `json.dumps` raises on the `datetime` under "created_at". */
  const DatetimeNotSerializable := "Object of type datetime is not JSON serializable"

  /** As written, `invoke_agent` hands the `get_context` dict itself to aiohttp's
      `json=`; its default encoder rejects the `datetime` stored under "created_at". */
  function EncodeContextAsWritten(ctx: ContextView): Result<Dict>
  {
    Err(DatetimeNotSerializable)
  }

  /** `invoke_agent` as written: the encoding error is raised inside the `try` and
      re-raised as a communication error before any request leaves. */
  function InvokeOutcomeAsWritten(agents: map<string, AgentConfig>, name: string, ctx: ContextView,
                                  reply: Request -> Reply): (r: Result<Value>)
    ensures name !in agents ==> r == Err(NotRegistered(name))
    ensures name in agents ==> r == Err(CommError(DatetimeNotSerializable))
  {
    if name !in agents then Err(NotRegistered(name))
    else
      var endpoint := agents[name].endpoint;
      match EncodeContextAsWritten(ctx)
      case Err(e) => Err(CommError(e))
      case Ok(body) => ReplyOutcome(reply(Request(endpoint, body)))
  }

  /** The discrepancy: for a registered agent that would answer 200 with a body, the
      code as written still fails, for every context; the corrected encoding delivers
      the body. */
  lemma AsWrittenInvocationAlwaysFails(agents: map<string, AgentConfig>, name: string, ctx: ContextView,
                                       reply: Request -> Reply, v: Value)
    requires name in agents
    requires reply(Request(agents[name].endpoint, EncodeContext(ctx))) == Reply(200, Parsed(v))
    ensures InvokeOutcomeAsWritten(agents, name, ctx, reply) == Err(CommError(DatetimeNotSerializable))
    ensures InvokeOutcome(agents, name, ctx, reply) == Ok(v)
  {
  }

  /** The encoded body carries the session's data unchanged under "data". */
  lemma EncodeContextKeepsData(ctx: ContextView)
    ensures "data" in EncodeContext(ctx) && EncodeContext(ctx)["data"] == VDict(ctx.data)
    ensures EncodeContext(ctx)["agent_triggers"] == VDict(ctx.agentTriggers)
  {
  }

  /** The names of `order`, in that order, that are registered and whose trigger
      holds on `ctx`. */
  function Eligible(order: seq<string>, agents: map<string, AgentConfig>, ctx: ContextView): (r: seq<string>)
    ensures |r| <= |order|
    ensures forall n :: n in r ==> n in agents && n in order
  {
    if order == [] then []
    else
      (if order[0] in agents && Holds(agents[order[0]].triggerCondition, ctx) then [order[0]] else [])
      + Eligible(order[1..], agents, ctx)
  }

  /** `Eligible` is exactly the triggered agents: every one of them and nothing else,
      in registration order, none twice. */
  lemma {:induction false} EligibleIsOrderedFilter(order: seq<string>, agents: map<string, AgentConfig>, ctx: ContextView)
    requires Distinct(order)
    ensures forall n :: n in Eligible(order, agents, ctx) <==>
                        n in order && n in agents && Holds(agents[n].triggerCondition, ctx)
    ensures Subsequence(Eligible(order, agents, ctx), order)
    ensures Distinct(Eligible(order, agents, ctx))
  {
    if order != [] {
      assert Distinct(order[1..]) by {
        forall i, j | 0 <= i < j < |order[1..]| ensures order[1..][i] != order[1..][j] {
          assert order[1..][i] == order[i + 1] && order[1..][j] == order[j + 1];
        }
      }
      assert order[0] !in order[1..] by {
        forall j | 0 <= j < |order[1..]| ensures order[1..][j] != order[0] {
          assert order[1..][j] == order[j + 1];
        }
      }
      EligibleIsOrderedFilter(order[1..], agents, ctx);
      var rest := Eligible(order[1..], agents, ctx);
      if order[0] in agents && Holds(agents[order[0]].triggerCondition, ctx) {
        assert ([order[0]] + rest)[1..] == rest;
      } else {
        assert Eligible(order, agents, ctx) == rest;
      }
    }
  }

  /** The HTTP client session (`aiohttp.ClientSession`), recorded as the requests
      sent through it, in order: the observable side of the network. */
  datatype ClientSession = ClientSession(posts: seq<Request>)

  /** The registry's order lists each registered name once, and each entry is filed
      under its own name. */
  ghost predicate RegistryValid(order: seq<string>, agents: map<string, AgentConfig>)
  {
    && Distinct(order)
    && (forall n :: n in agents <==> n in order)
    && (forall n :: n in agents ==> agents[n].name == n)
  }

  class AgentOrchestrator {
    /** The registry's keys in insertion order, and the registry itself. */
    var order: seq<string>
    var agents: map<string, AgentConfig>
    /** `_session`, created on the first invocation. */
    var session: Option<ClientSession>

    ghost predicate Valid()
      reads this
    {
      RegistryValid(order, agents)
    }

    /** The requests sent so far. */
    ghost function Posts(): seq<Request>
      reads this
    {
      if session.None? then [] else session.value.posts
    }

    constructor()
      ensures Valid() && order == [] && agents == map[] && session == None
    {
      order := [];
      agents := map[];
      session := None;
    }

    /** `register_agent`: inserts or overwrites the entry for `name`; a new name goes
        last in registration order, a re-registered one keeps its place. */
    method RegisterAgent(name: string, triggerCondition: Trigger, endpoint: string)
      requires Valid()
      modifies this
      ensures Valid()
      ensures agents == old(agents)[name := AgentConfig(name, triggerCondition, endpoint)]
      ensures order == if name in old(agents) then old(order) else old(order) + [name]
      ensures session == old(session)
    {
      if name !in agents {
        assert name !in order;
        order := order + [name];
      }
      agents := agents[name := AgentConfig(name, triggerCondition, endpoint)];
    }

    /** `check_triggers`: reads the registry and changes nothing. */
    method CheckTriggers(context: ContextView) returns (triggered: seq<string>)
      ensures triggered == Eligible(order, agents, context)
    {
      triggered := [];
      var i := 0;
      while i < |order|
        invariant 0 <= i <= |order|
        invariant Eligible(order, agents, context) == triggered + Eligible(order[i..], agents, context)
      {
        var name := order[i];
        assert order[i..][1..] == order[i + 1..];
        ghost var rest := Eligible(order[i + 1..], agents, context);
        if name in agents && Holds(agents[name].triggerCondition, context) {
          assert Eligible(order[i..], agents, context) == [name] + rest;
          assert triggered + ([name] + rest) == (triggered + [name]) + rest;
          triggered := triggered + [name];
        } else {
          assert Eligible(order[i..], agents, context) == rest;
        }
        i := i + 1;
      }
    }

    /** `invoke_agent`: the registry lookup comes first; only a registered agent opens
        the client session and sends one request. */
    method InvokeAgent(agentName: string, context: ContextView, reply: Request -> Reply) returns (r: Result<Value>)
      requires Valid()
      modifies this
      ensures Valid() && order == old(order) && agents == old(agents)
      ensures r == InvokeOutcome(agents, agentName, context, reply)
      ensures agentName !in agents ==> session == old(session)
      ensures agentName in agents ==>
        session == Some(ClientSession(old(Posts()) + [Request(agents[agentName].endpoint, EncodeContext(context))]))
    {
      if agentName !in agents {
        return Err(NotRegistered(agentName));
      }
      var agent := agents[agentName];
      if session.None? {
        session := Some(ClientSession([]));
      }
      var req := Request(agent.endpoint, EncodeContext(context));
      session := Some(ClientSession(session.value.posts + [req]));
      r := ReplyOutcome(reply(req));
    }
  }
}
