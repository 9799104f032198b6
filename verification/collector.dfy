/**
 * The collector service: an in-memory table from session id to session record,
 * updated in place by three HTTP handlers (create a session, append data,
 * mark complete) plus a health probe.
 *
 * Ids and timestamps are parameters: the id generator and the clock are not
 * part of the model.
 */
module Collector {
  import opened Wrappers

  type Time = nat
  type SessionId = string
  type TypeName = string

  /** One submitted record: the payload as posted and the server's arrival time. */
  datatype Entry<P> = Entry(payload: P, timestamp: Time)

  /**
   * A session record. `startTime` and `completed` are optional because the
   * record auto-created by an append has neither; `endTime` appears on completion.
   */
  datatype Session<P> = Session(
    startTime: Option<Time>,
    completed: Option<bool>,
    endTime: Option<Time>,
    data: map<TypeName, seq<Entry<P>>>)

  type Table<P> = map<SessionId, Session<P>>

  /** JSON bodies the handlers answer with. */
  datatype Body =
    | SessionCreated(sessionId: SessionId)
    | Succeeded
    | Failed(error: string)
    | Healthy(status: string, timestamp: Time)

  datatype Response = Response(status: nat, body: Body)

  const SessionNotFound: string := "Session not found"

  /** The record a fresh `POST /api/session` stores. */
  function FreshSession<P>(now: Time): Session<P> {
    Session(startTime := Some(now), completed := Some(false), endTime := None, data := map[])
  }

  /** The bare `{ data: {} }` record an append stores for an unknown id. */
  function BareSession<P>(): Session<P> {
    Session(startTime := None, completed := None, endTime := None, data := map[])
  }

  /** The list stored under `ty` for session `id`, or the empty list when there is none. */
  function Entries<P>(t: Table<P>, id: SessionId, ty: TypeName): seq<Entry<P>> {
    if id in t && ty in t[id].data then t[id].data[ty] else []
  }

  /** The type names session `id` holds lists for (none when the session is unknown). */
  function TypesOf<P>(t: Table<P>, id: SessionId): set<TypeName> {
    if id in t then t[id].data.Keys else {}
  }

  /** Effect of `POST /api/session` on the table, for the generated id `id` at time `now`. */
  function Created<P>(t: Table<P>, id: SessionId, now: Time): (t': Table<P>)
    ensures t'.Keys == t.Keys + {id}
    ensures t'[id].startTime == Some(now) && t'[id].completed == Some(false)
    ensures t'[id].endTime.None? && t'[id].data == map[]
    ensures forall k :: k in t && k != id ==> k in t' && t'[k] == t[k]
  {
    t[id := FreshSession(now)]
  }

  /** Effect of `POST /api/data` on the table. */
  function Appended<P>(t: Table<P>, id: SessionId, ty: TypeName, payload: P, now: Time): (t': Table<P>)
    ensures t'.Keys == t.Keys + {id}
    // an unknown id gets a record with no start time, no completion flag and no end time
    ensures id !in t ==> t'[id].startTime.None? && t'[id].completed.None? && t'[id].endTime.None?
    // a known record keeps every field except its data
    ensures id in t ==>
      t'[id].startTime == t[id].startTime && t'[id].completed == t[id].completed && t'[id].endTime == t[id].endTime
    ensures t'[id].data.Keys == TypesOf(t, id) + {ty}
    // exactly one entry, placed last, carrying the payload and the arrival time
    ensures Entries(t', id, ty) == Entries(t, id, ty) + [Entry(payload, now)]
    ensures forall ty' :: ty' != ty ==> Entries(t', id, ty') == Entries(t, id, ty')
    ensures forall k :: k in t && k != id ==> k in t' && t'[k] == t[k]
  {
    var s := if id in t then t[id] else BareSession();
    var list := if ty in s.data then s.data[ty] else [];
    t[id := s.(data := s.data[ty := list + [Entry(payload, now)]])]
  }

  /** Effect and answer of `POST /api/complete`. */
  function Completed<P>(t: Table<P>, id: SessionId, now: Time): (r: (Table<P>, Response))
    ensures id !in t ==> r.0 == t && r.1 == Response(404, Failed(SessionNotFound))
    ensures id in t ==> r.1 == Response(200, Succeeded) && r.0.Keys == t.Keys
    ensures id in t ==> r.0[id].completed == Some(true) && r.0[id].endTime == Some(now)
    ensures id in t ==> r.0[id].startTime == t[id].startTime && r.0[id].data == t[id].data
    ensures forall k :: k in t && k != id ==> k in r.0 && r.0[k] == t[k]
  {
    if id !in t then (t, Response(404, Failed(SessionNotFound)))
    else (t[id := t[id].(completed := Some(true), endTime := Some(now))], Response(200, Succeeded))
  }

  /** A request reaching the collector, carrying the id and clock reading it is handled with. */
  datatype Request<P> =
    | CreateSession(id: SessionId, now: Time)
    | SubmitData(id: SessionId, ty: TypeName, payload: P, now: Time)
    | Complete(id: SessionId, now: Time)

  function Step<P>(t: Table<P>, req: Request<P>): Table<P> {
    match req
    case CreateSession(id, now) => Created(t, id, now)
    case SubmitData(id, ty, payload, now) => Appended(t, id, ty, payload, now)
    case Complete(id, now) => Completed(t, id, now).0
  }

  /** The table after handling `reqs` one after another, in arrival order. */
  function Run<P>(t: Table<P>, reqs: seq<Request<P>>): Table<P>
    decreases |reqs|
  {
    if reqs == [] then t else Run(Step(t, reqs[0]), reqs[1..])
  }

  /** The entries the appends in `reqs` for session `id` and type `ty` carry, in arrival order. */
  function Arrived<P>(reqs: seq<Request<P>>, id: SessionId, ty: TypeName): seq<Entry<P>>
    decreases |reqs|
  {
    if reqs == [] then []
    else
      var head := match reqs[0]
        case SubmitData(i, y, p, now) => if i == id && y == ty then [Entry(p, now)] else []
        case _ => [];
      head + Arrived(reqs[1..], id, ty)
  }

  /** No request in `reqs` re-creates session `id` (generated ids are fresh). */
  predicate NoCreateOf<P>(reqs: seq<Request<P>>, id: SessionId) {
    forall i :: 0 <= i < |reqs| ==> !(reqs[i].CreateSession? && reqs[i].id == id)
  }

  /** Some request in `reqs` creates session `id` or appends to it. */
  predicate WritesTo<P>(reqs: seq<Request<P>>, id: SessionId) {
    exists i :: 0 <= i < |reqs| && (reqs[i].CreateSession? || reqs[i].SubmitData?) && reqs[i].id == id
  }

  /** One request changes the list of `(id, ty)` only by appending that request's own entry. */
  lemma StepEntries<P>(t: Table<P>, req: Request<P>, id: SessionId, ty: TypeName)
    requires !(req.CreateSession? && req.id == id)
    ensures Entries(Step(t, req), id, ty) == Entries(t, id, ty) + Arrived([req], id, ty)
  {
    assert [req][1..] == [];
    match req
    case CreateSession(i, now) =>
    case SubmitData(i, y, p, now) =>
    case Complete(i, now) =>
  }

  /** `Arrived` splits at the first request. */
  lemma ArrivedCons<P>(reqs: seq<Request<P>>, id: SessionId, ty: TypeName)
    requires reqs != []
    ensures Arrived(reqs, id, ty) == Arrived([reqs[0]], id, ty) + Arrived(reqs[1..], id, ty)
  {
    assert [reqs[0]][1..] == [];
  }

  lemma NoCreateOfTail<P>(reqs: seq<Request<P>>, id: SessionId)
    requires reqs != [] && NoCreateOf(reqs, id)
    ensures !(reqs[0].CreateSession? && reqs[0].id == id) && NoCreateOf(reqs[1..], id)
  {
    forall i | 0 <= i < |reqs[1..]| ensures !(reqs[1..][i].CreateSession? && reqs[1..][i].id == id) {
      assert reqs[1..][i] == reqs[i + 1];
    }
  }

  /**
   * Appends are kept in arrival order: after any run of requests that does not
   * re-create the session, each per-type list is the old list followed by the
   * appended entries in the order the requests arrived.
   */
  lemma {:induction false} RunAppendsInArrivalOrder<P>(t: Table<P>, reqs: seq<Request<P>>, id: SessionId, ty: TypeName)
    requires NoCreateOf(reqs, id)
    ensures Entries(Run(t, reqs), id, ty) == Entries(t, id, ty) + Arrived(reqs, id, ty)
    decreases |reqs|
  {
    if reqs != [] {
      var t1, rest := Step(t, reqs[0]), reqs[1..];
      NoCreateOfTail(reqs, id);
      StepEntries(t, reqs[0], id, ty);
      RunAppendsInArrivalOrder(t1, rest, id, ty);
      ArrivedCons(reqs, id, ty);
      RunCons(t, reqs);
      Regroup(Entries(t, id, ty), Arrived([reqs[0]], id, ty), Arrived(rest, id, ty));
    }
  }

  lemma RunCons<P>(t: Table<P>, reqs: seq<Request<P>>)
    requires reqs != []
    ensures Run(t, reqs) == Run(Step(t, reqs[0]), reqs[1..])
  {
  }

  lemma Regroup<T>(a: seq<T>, b: seq<T>, c: seq<T>)
    ensures (a + b) + c == a + (b + c)
  {
  }

  /**
   * A freshly created session collects exactly the entries submitted to it
   * afterwards, type by type, in arrival order.
   */
  lemma CreatedSessionCollectsArrivals<P>(t: Table<P>, id: SessionId, now: Time, reqs: seq<Request<P>>, ty: TypeName)
    requires NoCreateOf(reqs, id)
    ensures Entries(Run(t, [CreateSession(id, now)] + reqs), id, ty) == Arrived(reqs, id, ty)
  {
    var all := [CreateSession(id, now)] + reqs;
    assert all[0] == CreateSession(id, now) && all[1..] == reqs;
    RunAppendsInArrivalOrder(Created(t, id, now), reqs, id, ty);
  }

  /** Sessions are never deleted: every request keeps every existing id. */
  lemma {:induction false} RunKeepsSessions<P>(t: Table<P>, reqs: seq<Request<P>>)
    ensures t.Keys <= Run(t, reqs).Keys
    decreases |reqs|
  {
    if reqs != [] {
      assert t.Keys <= Step(t, reqs[0]).Keys;
      RunKeepsSessions(Step(t, reqs[0]), reqs[1..]);
    }
  }

  /**
   * Completion is final: once a session is marked completed it stays completed
   * under any further requests that do not re-create it.
   */
  lemma {:induction false} CompletionIsFinal<P>(t: Table<P>, reqs: seq<Request<P>>, id: SessionId)
    requires id in t && t[id].completed == Some(true)
    requires NoCreateOf(reqs, id)
    ensures id in Run(t, reqs) && Run(t, reqs)[id].completed == Some(true)
    decreases |reqs|
  {
    if reqs != [] {
      NoCreateOfTail(reqs, id);
      var t1 := Step(t, reqs[0]);
      assert id in t1 && t1[id].completed == Some(true);
      CompletionIsFinal(t1, reqs[1..], id);
    }
  }

  /**
   * Completing succeeds for any id that was created or merely written to
   * earlier: an append to an unknown id creates it, so completion finds it.
   */
  lemma {:induction false} CompleteSucceedsAfterWrite<P>(t: Table<P>, reqs: seq<Request<P>>, id: SessionId, now: Time)
    requires WritesTo(reqs, id)
    ensures id in Run(t, reqs)
    ensures Completed(Run(t, reqs), id, now).1 == Response(200, Succeeded)
    decreases |reqs|
  {
    var i :| 0 <= i < |reqs| && (reqs[i].CreateSession? || reqs[i].SubmitData?) && reqs[i].id == id;
    if i == 0 {
      assert id in Step(t, reqs[0]);
      RunKeepsSessions(Step(t, reqs[0]), reqs[1..]);
    } else {
      assert reqs[1..][i - 1] == reqs[i];
      assert WritesTo(reqs[1..], id);
      CompleteSucceedsAfterWrite(Step(t, reqs[0]), reqs[1..], id, now);
    }
  }

  /**
   * Completing twice: the second call still succeeds, the session stays
   * completed and its end time is the second call's time.
   */
  lemma CompleteTwiceOverwritesEndTime<P>(t: Table<P>, id: SessionId, first: Time, second: Time)
    requires id in t
    ensures var t1 := Completed(t, id, first).0;
      var (t2, r2) := Completed(t1, id, second);
      r2 == Response(200, Succeeded) && t2[id].completed == Some(true) && t2[id].endTime == Some(second)
      && t2[id].data == t[id].data
  {
  }

  /** The service object: the module-level `sessions` table and its handlers. */
  class CollectorService<P> {
    var sessions: Table<P>

    constructor ()
      ensures sessions == map[]
    {
      sessions := map[];
    }

    /** `GET /api/health`: status ok with the clock; the table is not touched. */
    method Health(now: Time) returns (r: Response)
      ensures r == Response(200, Healthy("ok", now))
    {
      r := Response(200, Healthy("ok", now));
    }

    /** `POST /api/session` with the generated id `id`. */
    method CreateSession(id: SessionId, now: Time) returns (r: Response)
      modifies this
      ensures sessions == Created(old(sessions), id, now)
      ensures r == Response(200, SessionCreated(id))
    {
      sessions := sessions[id := FreshSession(now)];
      r := Response(200, SessionCreated(id));
    }

    /** `POST /api/data`: lenient, always answers success. */
    method SubmitData(id: SessionId, ty: TypeName, payload: P, now: Time) returns (r: Response)
      modifies this
      ensures sessions == Appended(old(sessions), id, ty, payload, now)
      ensures r == Response(200, Succeeded)
    {
      // an unknown id gets the bare record, an absent type the empty list;
      // both writes are folded into the final one, as nothing observes them in between
      var s := if id in sessions then sessions[id] else BareSession();
      var list := if ty in s.data then s.data[ty] else [];
      sessions := sessions[id := s.(data := s.data[ty := list + [Entry(payload, now)]])];
      r := Response(200, Succeeded);
    }

    /** `POST /api/complete`: strict, 404 for an unknown id. */
    method Complete(id: SessionId, now: Time) returns (r: Response)
      modifies this
      ensures (sessions, r) == Completed(old(sessions), id, now)
    {
      if id !in sessions {
        return Response(404, Failed(SessionNotFound));
      }
      sessions := sessions[id := sessions[id].(completed := Some(true))];
      sessions := sessions[id := sessions[id].(endTime := Some(now))];
      r := Response(200, Succeeded);
      assert sessions == old(sessions)[id := old(sessions)[id].(completed := Some(true), endTime := Some(now))];
    }
  }
}
