/// The in-memory session store: a map from phone number to session, with
/// whole-record writes, a shallow-merge update, removal, and a sweep that
/// drops sessions idle for more than an hour.
module SessionStore {
  import opened Domain

  /** Sessions idle for longer than this many milliseconds (one hour) expire. */
  const IdleLimit: int := 60 * 60 * 1000

  /** `lastActivity < now - 1 hour`. */
  predicate Expired(s: Session, now: int)
    ensures Expired(s, now) <==> now - s.lastActivity > IdleLimit
    ensures Expired(s, now) ==> s.lastActivity < now
  {
    s.lastActivity < now - IdleLimit
  }

  /** `sessions.get(phone) || null`. */
  function Lookup(m: map<string, Session>, phone: string): (r: Option<Session>)
    ensures r.Some? <==> phone in m
    ensures r.Some? ==> r.value == m[phone]
  {
    if phone in m then Some(m[phone]) else None
  }

  /** The map after `setSession(phone, data)` at time `now`. */
  function Put(m: map<string, Session>, phone: string, data: SessionData, now: int): (r: map<string, Session>)
    ensures r.Keys == m.Keys + {phone}
    ensures r[phone] == Session(data, now)
    ensures forall p :: p in m && p != phone ==> r[p] == m[p]
  {
    m[phone := Session(data, now)]
  }

  /** A write to one key leaves every other key as it was. */
  lemma PutIsolated(m: map<string, Session>, phone: string, data: SessionData, now: int)
    ensures Put(m, phone, data, now) - {phone} == m - {phone}
  {
  }

  /** The map after `updateSession(phone, updates)` at time `now`. */
  function Patch(m: map<string, Session>, phone: string, updates: SessionData, now: int): (r: map<string, Session>)
    ensures phone !in m ==> r == m
    ensures phone in m ==> r.Keys == m.Keys && r[phone] == Session(Merge(m[phone].data, updates), now)
    ensures forall p :: p in m && p != phone ==> r[p] == m[p]
  {
    if phone in m then Put(m, phone, Merge(m[phone].data, updates), now) else m
  }

  /** The map after `cleanupSessions()` at time `now`. */
  function Sweep(m: map<string, Session>, now: int): (r: map<string, Session>)
    ensures r.Keys <= m.Keys
    ensures forall p :: p in m ==> (p in r <==> !Expired(m[p], now))
    ensures forall p :: p in r ==> r[p] == m[p]
  {
    map p | p in m && !Expired(m[p], now) :: m[p]
  }

  lemma {:induction false} SubsetSize<T>(a: set<T>, b: set<T>)
    requires a <= b
    ensures |a| <= |b|
    decreases |b|
  {
    if a != {} {
      var x :| x in a;
      SubsetSize(a - {x}, b - {x});
    }
  }

  /** A sweep never adds sessions, and sweeping again at the same time
      removes nothing more. */
  lemma SweepShrinksAndSettles(m: map<string, Session>, now: int)
    ensures |Sweep(m, now)| <= |m|
    ensures Sweep(Sweep(m, now), now) == Sweep(m, now)
  {
    SubsetSize(Sweep(m, now).Keys, m.Keys);
  }

  /** An update that finds no session creates none. */
  lemma PatchAbsentIsNoOp(m: map<string, Session>, phone: string, updates: SessionData, now: int)
    requires phone !in m
    ensures Patch(m, phone, updates, now) == m && phone !in Patch(m, phone, updates, now)
  {
  }

  class SessionManager {
    var sessions: map<string, Session>

    constructor ()
      ensures sessions == map[]
    {
      sessions := map[];
    }

    /** The stored record for `phone`, or `None` when there is none. */
    method GetSession(phone: string) returns (r: Option<Session>)
      ensures r.Some? <==> phone in sessions
      ensures r.Some? ==> r.value == sessions[phone]
    {
      if phone in sessions {
        r := Some(sessions[phone]);
      } else {
        r := None;
      }
    }

    /** Replaces the record for `phone` wholesale and stamps it with `now`. */
    method SetSession(phone: string, data: SessionData, now: int)
      modifies this
      ensures sessions == Put(old(sessions), phone, data, now)
    {
      sessions := sessions[phone := Session(data, now)];
    }

    /** Shallow-merges `updates` over the record for `phone` and stamps it;
        does nothing when there is no record. */
    method UpdateSession(phone: string, updates: SessionData, now: int)
      modifies this
      ensures sessions == Patch(old(sessions), phone, updates, now)
    {
      var session := GetSession(phone);
      if session.Some? {
        SetSession(phone, Merge(session.value.data, updates), now);
      }
    }

    /** Removes the record for `phone`, if any. */
    method ClearSession(phone: string)
      modifies this
      ensures sessions == old(sessions) - {phone}
    {
      sessions := sessions - {phone};
    }

    /** Deletes every record idle for more than an hour at time `now`, one
        entry at a time. */
    method CleanupSessions(now: int)
      modifies this
      ensures sessions == Sweep(old(sessions), now)
    {
      var pending := sessions.Keys;
      while pending != {}
        invariant pending <= old(sessions).Keys
        invariant sessions.Keys <= old(sessions).Keys
        invariant forall p :: p in old(sessions) ==>
          (p in sessions <==> p in pending || !Expired(old(sessions)[p], now))
        invariant forall p :: p in sessions ==> sessions[p] == old(sessions)[p]
        decreases pending
      {
        var phone :| phone in pending;
        if sessions[phone].lastActivity < now - IdleLimit {
          sessions := sessions - {phone};
        }
        pending := pending - {phone};
      }
    }

    /** Number of stored sessions. */
    method GetActiveSessionsCount() returns (n: nat)
      ensures n == |sessions.Keys|
    {
      n := |sessions|;
    }
  }
}
