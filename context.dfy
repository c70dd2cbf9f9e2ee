/** The session store: `ContextManager` over a database modelled as a map from
    session id to session record. */
module Context {
  import opened Results
  import opened Values

  /** A completion fraction `filled / total`, kept exact. */
  datatype Ratio = Ratio(filled: nat, total: nat)

  /** One row of the sessions table. A JSON column may be SQL NULL (`None`). */
  datatype SessionRecord = SessionRecord(
    id: string,
    userRole: string,
    createdAt: int,
    context: Option<Dict>,
    completionStatus: Option<map<string, Ratio>>,
    validationState: Option<Dict>,
    agentTriggers: Option<Dict>)

  /** What `get_context` returns (the `ContextData` shape, with `data` holding the
      session's context). */
  datatype ContextView = ContextView(
    sessionId: string,
    userRole: string,
    createdAt: int,
    data: Dict,
    validationState: Dict,
    agentTriggers: Dict)

  type Store = map<string, SessionRecord>

  /** Python's `column or {}`. */
  function OrEmpty<V>(m: Option<map<string, V>>): map<string, V>
  {
    if m.Some? then m.value else map[]
  }

  function NotFound(sessionId: string): string
  {
    "Sesión no encontrada: " + sessionId
  }

  function View(rec: SessionRecord): ContextView
  {
    ContextView(rec.id, rec.userRole, rec.createdAt,
                OrEmpty(rec.context), OrEmpty(rec.validationState), OrEmpty(rec.agentTriggers))
  }

  /** `get_context` on a store. */
  function Read(sessions: Store, sessionId: string): (r: Result<ContextView>)
    ensures r.Err? <==> sessionId !in sessions
    ensures r.Err? ==> r.error == NotFound(sessionId)
    ensures r.Ok? ==> r.value.data == OrEmpty(sessions[sessionId].context)
    ensures r.Ok? ==> r.value.validationState == OrEmpty(sessions[sessionId].validationState)
    ensures r.Ok? ==> r.value.agentTriggers == OrEmpty(sessions[sessionId].agentTriggers)
    ensures r.Ok? ==> (r.value.sessionId, r.value.userRole, r.value.createdAt)
                      == (sessions[sessionId].id, sessions[sessionId].userRole, sessions[sessionId].createdAt)
  {
    if sessionId in sessions then Ok(View(sessions[sessionId])) else Err(NotFound(sessionId))
  }

  /** The record after `update_context(field, value)`. */
  function WithField(rec: SessionRecord, field: string, value: Value): SessionRecord
  {
    rec.(context := Some(OrEmpty(rec.context)[field := value]))
  }

  /** The record after `update_context` was called once for each entry of `fields`. */
  function WithFields(rec: SessionRecord, fields: Dict): SessionRecord
  {
    if fields == map[] then rec else rec.(context := Some(OrEmpty(rec.context) + fields))
  }

  /** Writing one more field extends the batch of written fields. */
  lemma WithFieldsStep(rec: SessionRecord, fields: Dict, field: string, value: Value)
    ensures WithField(WithFields(rec, fields), field, value) == WithFields(rec, fields[field := value])
  {
    var base := OrEmpty(rec.context);
    assert field in fields[field := value];
    if fields == map[] {
      assert fields[field := value] == map[field := value];
      assert base[field := value] == base + map[field := value];
    } else {
      assert (base + fields)[field := value] == base + fields[field := value];
    }
  }

  /** A write is visible to the next read of the same session (read-your-write), touches
      only the context of that session, and leaves every other session as it was. */
  lemma ReadAfterWrite(sessions: Store, sessionId: string, field: string, value: Value, other: string)
    requires sessionId in sessions
    ensures var after := sessions[sessionId := WithField(sessions[sessionId], field, value)];
      && Read(after, sessionId).Ok?
      && Read(after, sessionId).value.data == Read(sessions, sessionId).value.data[field := value]
      && Read(after, sessionId).value.data[field] == value
      && Read(after, sessionId).value.(data := map[]) == Read(sessions, sessionId).value.(data := map[])
      && (other != sessionId ==> Read(after, other) == Read(sessions, other))
  {
  }

  /** The number of context entries whose value is not `None`. */
  function Filled(ctx: Dict): nat
  {
    |set k | k in ctx && ctx[k] != VNone|
  }

  lemma FilledAtMostTotal(ctx: Dict)
    ensures Filled(ctx) <= |ctx|
  {
    var filled := set k | k in ctx && ctx[k] != VNone;
    assert filled <= ctx.Keys;
    SubsetCardinality(filled, ctx.Keys);
  }

  lemma {:induction false} SubsetCardinality(a: set<string>, b: set<string>)
    requires a <= b
    ensures |a| <= |b|
    decreases |b|
  {
    if a != {} {
      var x :| x in a;
      SubsetCardinality(a - {x}, b - {x});
    }
  }

  /** `get_completion_status` on one record: the value returned and the record
      afterwards. A non-empty stored status is returned as it is; otherwise it is
      computed from the context and written back, unless the context is empty. */
  function CompletionStep(rec: SessionRecord): (r: (map<string, Ratio>, SessionRecord))
    ensures r.1 == rec || r.1 == rec.(completionStatus := Some(r.0))
    ensures r.1.context == rec.context && r.1.validationState == rec.validationState
  {
    var cached := OrEmpty(rec.completionStatus);
    if cached != map[] then (cached, rec)
    else
      var ctx := OrEmpty(rec.context);
      if |ctx| == 0 then (map[], rec)
      else
        var computed := map["general" := Ratio(Filled(ctx), |ctx|)];
        (computed, rec.(completionStatus := Some(computed)))
  }

  /** A freshly computed completion is `{"general": filled/total}` with the fraction
      in [0, 1], and it is what gets stored. */
  lemma CompletionIsFraction(rec: SessionRecord)
    requires OrEmpty(rec.completionStatus) == map[] && OrEmpty(rec.context) != map[]
    ensures var (c, after) := CompletionStep(rec);
      && c.Keys == {"general"}
      && c["general"] == Ratio(Filled(OrEmpty(rec.context)), |OrEmpty(rec.context)|)
      && 0 <= c["general"].filled <= c["general"].total
      && c["general"].total > 0
      && after == rec.(completionStatus := Some(c))
  {
    FilledAtMostTotal(OrEmpty(rec.context));
  }

  /** With an empty context nothing is computed and nothing is written. */
  lemma EmptyContextNoCompletion(rec: SessionRecord)
    requires OrEmpty(rec.completionStatus) == map[] && OrEmpty(rec.context) == map[]
    ensures CompletionStep(rec) == (map[], rec)
  {
  }

  /** Once a completion status is stored it is returned as it is, however the
      context changes afterwards: the cached value is never recomputed. */
  lemma {:induction false} CompletionNeverRecomputed(rec: SessionRecord, writes: seq<(string, Value)>)
    requires OrEmpty(rec.completionStatus) != map[]
    ensures CompletionStep(ApplyWrites(rec, writes)) == (OrEmpty(rec.completionStatus), ApplyWrites(rec, writes))
    decreases |writes|
  {
    if writes != [] {
      CompletionNeverRecomputed(WithField(rec, writes[0].0, writes[0].1), writes[1..]);
    }
  }

  /** A sequence of `update_context` calls on one record, in order. */
  function ApplyWrites(rec: SessionRecord, writes: seq<(string, Value)>): SessionRecord
    decreases |writes|
  {
    if writes == [] then rec else ApplyWrites(WithField(rec, writes[0].0, writes[0].1), writes[1..])
  }

  /** The session store. The database is the map `sessions`. */
  class ContextManager {
    var sessions: Store

    /** Every record is stored under its own id. */
    ghost predicate Valid()
      reads this
    {
      forall id :: id in sessions ==> sessions[id].id == id
    }

    constructor()
      ensures Valid() && sessions == map[]
    {
      sessions := map[];
    }

    /** `create_session`: `newId` is the id the database generates (a fresh uuid4) and
        `now` the creation time. */
    method CreateSession(userRole: string, newId: string, now: int) returns (id: string)
      requires Valid() && newId !in sessions
      modifies this
      ensures Valid() && id == newId
      ensures sessions == old(sessions)[id := SessionRecord(id, userRole, now,
                                                           Some(map[]), Some(map[]), Some(map[]), Some(map[]))]
    {
      id := newId;
      sessions := sessions[id := SessionRecord(id, userRole, now, Some(map[]), Some(map[]), Some(map[]), Some(map[]))];
    }

    /** `update_context`: sets one field of the session's context and returns the
        updated context. */
    method UpdateContext(sessionId: string, field: string, value: Value) returns (r: Result<Dict>)
      requires Valid()
      modifies this
      ensures Valid()
      ensures sessionId !in old(sessions) ==> r == Err(NotFound(sessionId)) && sessions == old(sessions)
      ensures sessionId in old(sessions) ==>
        && r == Ok(OrEmpty(old(sessions)[sessionId].context)[field := value])
        && sessions == old(sessions)[sessionId := WithField(old(sessions)[sessionId], field, value)]
    {
      if sessionId !in sessions {
        return Err(NotFound(sessionId));
      }
      var session := sessions[sessionId];
      var context := OrEmpty(session.context);
      context := context[field := value];
      sessions := sessions[sessionId := session.(context := Some(context))];
      r := Ok(context);
    }

    /** `get_context`. */
    function GetContext(sessionId: string): (r: Result<ContextView>)
      reads this
      ensures r.Err? <==> sessionId !in sessions
      ensures r.Err? ==> r.error == NotFound(sessionId)
      ensures r.Ok? ==> r.value == View(sessions[sessionId])
    {
      Read(sessions, sessionId)
    }

    /** `get_completion_status`. */
    method GetCompletionStatus(sessionId: string) returns (r: Result<map<string, Ratio>>)
      requires Valid()
      modifies this
      ensures Valid()
      ensures sessionId !in old(sessions) ==> r == Err(NotFound(sessionId)) && sessions == old(sessions)
      ensures sessionId in old(sessions) ==>
        var (completion, after) := CompletionStep(old(sessions)[sessionId]);
        r == Ok(completion) && sessions == old(sessions)[sessionId := after]
    {
      if sessionId !in sessions {
        return Err(NotFound(sessionId));
      }
      var session := sessions[sessionId];
      var completion := OrEmpty(session.completionStatus);
      if completion == map[] {
        var context := OrEmpty(session.context);
        var totalFields := |context|;
        if totalFields > 0 {
          completion := completion["general" := Ratio(Filled(context), totalFields)];
          sessions := sessions[sessionId := session.(completionStatus := Some(completion))];
        }
      }
      r := Ok(completion);
    }
  }
}
