/** The session table of workers/src/logic/sessionLogic.ts: a `Map` from
    session id to the session's status record, refreshed by heartbeats and
    expired after five minutes of silence. The map is a sequence of records
    in insertion order, as a JavaScript `Map` iterates; "now" is a
    parameter in milliseconds. */
module SessionLogic {
  import opened Wrappers
  import opened Seqs

  datatype SessionState = Active | Idle | Completed | Error

  /** `SessionStatus`; its free-form `metadata` is not part of this model. */
  datatype Session = Session(sessionId: string, status: SessionState, lastHeartbeat: int, messageCount: int, agents: seq<string>)

  /** Five minutes. */
  const STALE_MS: int := 5 * 60 * 1000

  /** Listed as active: heard from strictly within the last five minutes. */
  predicate IsActiveAt(s: Session, now: int) {
    s.lastHeartbeat > now - STALE_MS
  }

  /** Cleared as inactive: silent for strictly more than five minutes. */
  predicate IsStaleAt(s: Session, now: int) {
    s.lastHeartbeat < now - STALE_MS
  }

  /** A session heard from exactly five minutes ago is neither listed as
      active nor cleared; every other session is exactly one of the two. */
  lemma ThresholdGap(s: Session, now: int)
    ensures s.lastHeartbeat == now - STALE_MS ==> !IsActiveAt(s, now) && !IsStaleAt(s, now)
    ensures s.lastHeartbeat != now - STALE_MS ==> (IsActiveAt(s, now) <==> !IsStaleAt(s, now))
  {
  }

  /** Map keys are unique. */
  predicate DistinctIds(entries: seq<Session>) {
    forall i, j :: 0 <= i < j < |entries| ==> entries[i].sessionId != entries[j].sessionId
  }

  /** `cache.get(id)` */
  function Lookup(entries: seq<Session>, id: string): (r: Option<Session>)
    ensures r.Some? ==> r.value in entries && r.value.sessionId == id
    ensures r.None? <==> forall j :: 0 <= j < |entries| ==> entries[j].sessionId != id
  {
    match FindIndex(entries, (s: Session) => s.sessionId == id)
    case None => None
    case Some(k) => Some(entries[k])
  }

  /** `cache.set(s.sessionId, s)`: an existing key keeps its place and takes
      the new value; a new key goes to the end. */
  function Upsert(entries: seq<Session>, s: Session): (r: seq<Session>)
    ensures forall j :: 0 <= j < |entries| && entries[j].sessionId != s.sessionId ==> entries[j] in r
    ensures s in r
  {
    match FindIndex(entries, (e: Session) => e.sessionId == s.sessionId)
    case None => entries + [s]
    case Some(k) =>
      assert entries[k := s][k] == s;
      assert forall j :: 0 <= j < |entries| && entries[j].sessionId != s.sessionId ==>
               j != k && entries[k := s][j] == entries[j];
      entries[k := s]
  }

  /** A heartbeat makes the session the one found under its id and leaves
      every other id's lookup as it was; keys stay unique. */
  lemma {:induction false} UpsertLookup(entries: seq<Session>, s: Session, id: string)
    requires DistinctIds(entries)
    ensures DistinctIds(Upsert(entries, s))
    ensures Lookup(Upsert(entries, s), s.sessionId) == Some(s)
    ensures id != s.sessionId ==> Lookup(Upsert(entries, s), id) == Lookup(entries, id)
  {
    var r := Upsert(entries, s);
    match FindIndex(entries, (e: Session) => e.sessionId == s.sessionId)
    case None =>
      assert r == entries + [s];
      assert r[|entries|] == s;
      assert forall j :: 0 <= j < |entries| ==> r[j] == entries[j];
      LookupUnique(r, |entries|);
      if id != s.sessionId {
        LookupSame(entries, r, id);
      }
    case Some(k) =>
      assert r == entries[k := s];
      assert r[k] == s;
      LookupUnique(r, k);
      if id != s.sessionId {
        LookupSame(entries, r, id);
      }
  }

  /** In a table with unique keys the record at `k` is the one found under its id. */
  lemma LookupUnique(entries: seq<Session>, k: nat)
    requires DistinctIds(entries) && k < |entries|
    ensures Lookup(entries, entries[k].sessionId) == Some(entries[k])
  {
    var r := Lookup(entries, entries[k].sessionId);
    var i :| 0 <= i < |entries| && entries[i] == r.value;
  }

  /** Two tables that agree on every record except ones under other ids
      agree on the lookup of `id`. */
  lemma LookupSame(a: seq<Session>, b: seq<Session>, id: string)
    requires |a| <= |b|
    requires forall j :: 0 <= j < |a| && (a[j].sessionId == id || b[j].sessionId == id) ==> a[j] == b[j]
    requires forall j :: |a| <= j < |b| ==> b[j].sessionId != id
    ensures Lookup(a, id) == Lookup(b, id)
  {
    var ra, rb := FindIndex(a, (e: Session) => e.sessionId == id), FindIndex(b, (e: Session) => e.sessionId == id);
    if ra.Some? {
      assert b[ra.value] == a[ra.value];
      assert forall j :: 0 <= j < ra.value ==> b[j].sessionId != id;
    } else {
      assert forall j :: 0 <= j < |b| ==> b[j].sessionId != id;
    }
  }

  /** Set status and heartbeat on the record stored under `id`, in place. */
  function Touch(entries: seq<Session>, id: string, status: SessionState, now: int): (r: seq<Session>)
    ensures |r| == |entries|
    ensures forall j :: 0 <= j < |entries| ==>
              r[j] == if entries[j].sessionId == id then entries[j].(status := status, lastHeartbeat := now) else entries[j]
    decreases |entries|
  {
    if entries == [] then []
    else
      var head := if entries[0].sessionId == id then entries[0].(status := status, lastHeartbeat := now) else entries[0];
      [head] + Touch(entries[1..], id, status, now)
  }

  /** Touching an absent id changes nothing. */
  lemma TouchAbsent(entries: seq<Session>, id: string, status: SessionState, now: int)
    requires Lookup(entries, id).None?
    ensures Touch(entries, id, status, now) == entries
  {
  }

  function StaleCount(entries: seq<Session>, now: int): nat {
    Count(entries, (s: Session) => IsStaleAt(s, now))
  }

  class SessionTable {
    var entries: seq<Session>

    predicate Valid()
      reads this
    {
      DistinctIds(entries)
    }

    constructor ()
      ensures entries == [] && Valid()
    {
      entries := [];
    }

    /** `heartbeat`: the session is stored with its heartbeat set to now,
        replacing any record under its id, and the stored record returned. */
    method Heartbeat(session: Session, now: int) returns (updated: Session)
      requires Valid()
      modifies this
      ensures Valid()
      ensures updated == session.(lastHeartbeat := now)
      ensures entries == Upsert(old(entries), updated)
      ensures Lookup(entries, session.sessionId) == Some(updated)
    {
      updated := session.(lastHeartbeat := now);
      UpsertLookup(entries, updated, updated.sessionId);
      entries := Upsert(entries, updated);
    }

    /** `getSession`: the stored record whether or not it is stale; nothing
        only when the id is absent. */
    method GetSession(sessionId: string) returns (r: Option<Session>)
      ensures r == Lookup(entries, sessionId)
      ensures r.None? <==> forall j :: 0 <= j < |entries| ==> entries[j].sessionId != sessionId
    {
      r := Lookup(entries, sessionId);
    }

    /** `listActiveSessions`: exactly the sessions heard from in the last
        five minutes, in table order. */
    method ListActiveSessions(now: int) returns (sessions: seq<Session>)
      ensures sessions == Filter(entries, (s: Session) => IsActiveAt(s, now))
      ensures forall s :: s in sessions <==> s in entries && IsActiveAt(s, now)
    {
      var active := (s: Session) => IsActiveAt(s, now);
      sessions := [];
      var i := 0;
      while i < |entries|
        invariant 0 <= i <= |entries|
        invariant sessions == Filter(entries[..i], active)
      {
        FilterAppend(entries[..i], [entries[i]], active);
        assert entries[..i + 1] == entries[..i] + [entries[i]];
        if IsActiveAt(entries[i], now) {
          sessions := sessions + [entries[i]];
        }
        i := i + 1;
      }
      assert entries[..i] == entries;
      forall s
        ensures s in sessions <==> s in entries && IsActiveAt(s, now)
      {
        FilterMembership(entries, active, s);
      }
    }

    /** `closeSession`: a present session is marked completed as of now; an
        absent id changes nothing. */
    method CloseSession(sessionId: string, now: int)
      requires Valid()
      modifies this
      ensures Valid()
      ensures entries == Touch(old(entries), sessionId, Completed, now)
      ensures Lookup(old(entries), sessionId).None? ==> entries == old(entries)
    {
      var session := Lookup(entries, sessionId);
      if session.Some? {
        entries := Touch(entries, sessionId, Completed, now);
      } else {
        TouchAbsent(entries, sessionId, Completed, now);
      }
    }

    /** `updateSessionStatus`: nothing and no change for an absent id;
        otherwise the stored record takes the status and a fresh heartbeat
        and is returned. */
    method UpdateSessionStatus(sessionId: string, status: SessionState, now: int) returns (r: Option<Session>)
      requires Valid()
      modifies this
      ensures Valid()
      ensures r.None? <==> Lookup(old(entries), sessionId).None?
      ensures r.None? ==> entries == old(entries)
      ensures r.Some? ==> r == Some(Lookup(old(entries), sessionId).value.(status := status, lastHeartbeat := now))
      ensures r.Some? ==> entries == Touch(old(entries), sessionId, status, now) && Lookup(entries, sessionId) == r
    {
      var session := Lookup(entries, sessionId);
      if session.None? {
        return None;
      }
      var k := FindIndex(entries, (s: Session) => s.sessionId == sessionId).value;
      entries := Touch(entries, sessionId, status, now);
      assert entries[k] == session.value.(status := status, lastHeartbeat := now);
      LookupUnique(entries, k);
      r := Some(entries[k]);
    }

    /** `clearInactiveSessions`: deletes exactly the sessions silent for more
        than five minutes, keeps the rest in order, and counts the deletions. */
    method ClearInactiveSessions(now: int) returns (cleared: nat)
      requires Valid()
      modifies this
      ensures Valid()
      ensures entries == Filter(old(entries), (s: Session) => !IsStaleAt(s, now))
      ensures cleared == StaleCount(old(entries), now)
      ensures cleared == |old(entries)| - |entries|
    {
      var stale := (s: Session) => IsStaleAt(s, now);
      var live := (s: Session) => !IsStaleAt(s, now);
      var snapshot := entries;
      var kept: seq<Session> := [];
      cleared := 0;
      var i := 0;
      while i < |snapshot|
        invariant 0 <= i <= |snapshot|
        invariant kept == Filter(snapshot[..i], live)
        invariant cleared == |Filter(snapshot[..i], stale)|
        invariant cleared + |kept| == i
      {
        FilterAppend(snapshot[..i], [snapshot[i]], live);
        FilterAppend(snapshot[..i], [snapshot[i]], stale);
        assert snapshot[..i + 1] == snapshot[..i] + [snapshot[i]];
        if IsStaleAt(snapshot[i], now) {
          cleared := cleared + 1;
        } else {
          kept := kept + [snapshot[i]];
        }
        i := i + 1;
      }
      assert snapshot[..i] == snapshot;
      FilterKeepsDistinct(snapshot, live);
      entries := kept;
    }
  }

  /** Filtering a table with unique keys keeps them unique. */
  lemma {:induction false} FilterKeepsDistinct(entries: seq<Session>, p: Session -> bool)
    requires DistinctIds(entries)
    ensures DistinctIds(Filter(entries, p))
    decreases |entries|
  {
    if entries != [] {
      FilterKeepsDistinct(entries[1..], p);
      var rest := Filter(entries[1..], p);
      forall s | s in rest
        ensures s.sessionId != entries[0].sessionId
      {
        FilterMembership(entries[1..], p, s);
      }
    }
  }

  /** After clearing, every session left is either active or exactly at
      the five-minute threshold. */
  lemma ClearedTableIsRecent(entries: seq<Session>, now: int)
    ensures forall s :: s in Filter(entries, (x: Session) => !IsStaleAt(x, now)) ==>
              IsActiveAt(s, now) || s.lastHeartbeat == now - STALE_MS
  {
    forall s | s in Filter(entries, (x: Session) => !IsStaleAt(x, now))
      ensures IsActiveAt(s, now) || s.lastHeartbeat == now - STALE_MS
    {
      FilterMembership(entries, (x: Session) => !IsStaleAt(x, now), s);
    }
  }
}
