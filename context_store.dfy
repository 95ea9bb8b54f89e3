/**
 * The module-level `callContextStore` of outbound.js and the
 * `/outbound-call` route that fills it.
 *
 * The store maps a call id to the dynamic-variable record fetched for it.
 * The route stores the record before it places the call, removes it again
 * when placing the call fails, and schedules its removal five minutes
 * later. Time is a logical clock in milliseconds: `setTimeout` becomes a
 * pending `Timer`, and the passing of time is `AdvanceClock`, which fires
 * every timer that has come due.
 *
 * `StoreState` and the functions on it are the specification; the class
 * `CallContextStore` updates its fields in place as the source does, and
 * each of its methods is proved to move its state as the matching function
 * says.
 */
module ContextStore {
  import opened Wrappers
  import opened CallContext

  /** `5 * 60 * 1000`: the lifetime of an entry, in milliseconds. */
  const EXPIRY_MS: nat := 5 * 60 * 1000

  /** A pending `setTimeout` that deletes `callId` once the clock reaches `due`. */
  datatype Timer = Timer(due: nat, callId: string)

  /** The entries of the store, the clock and the pending deletions. */
  datatype StoreState = StoreState(entries: map<string, Vars>, now: nat, timers: seq<Timer>)

  /** How `twilioClient.calls.create` ended: the new call's sid, or a thrown error. */
  datatype Placement = Placed(callSid: string) | PlacementError

  /** The route's reply. */
  datatype Reply =
    | MissingNumber         // 400 `{ error: 'Phone number is required' }`
    | Initiated(callSid: string) // `{ success: true, message: 'Call initiated', callSid }`
    | InitiationFailed      // 500 `{ success: false, error: 'Failed to initiate call' }`

  function StatusCode(r: Reply): nat
  {
    match r
    case MissingNumber => 400
    case Initiated(_) => 200
    case InitiationFailed => 500
  }

  // ---------------------------------------------------------------------
  // The specification
  // ---------------------------------------------------------------------

  /** `callContextStore.get(id) || {}`: a missing or null id reads as the empty record. */
  function GetOrEmpty(entries: map<string, Vars>, id: Option<string>): Vars
  {
    if id.Some? && id.value in entries then entries[id.value] else []
  }

  function Put(s: StoreState, id: string, vars: Vars): StoreState
  {
    s.(entries := s.entries[id := vars])
  }

  function Remove(s: StoreState, id: string): StoreState
  {
    s.(entries := s.entries - {id})
  }

  /** `setTimeout(() => callContextStore.delete(id), 5 * 60 * 1000)`. */
  function Schedule(s: StoreState, id: string): StoreState
  {
    s.(timers := s.timers + [Timer(s.now + EXPIRY_MS, id)])
  }

  /** The ids deleted by the timers of `ts` that are due at time `t`. */
  function FiredIds(ts: seq<Timer>, t: nat): set<string>
  {
    if |ts| == 0 then {}
    else FiredIds(ts[..|ts| - 1], t) + (if ts[|ts| - 1].due <= t then {ts[|ts| - 1].callId} else {})
  }

  /** The timers of `ts` still waiting at time `t`, in the order they were set. */
  function Pending(ts: seq<Timer>, t: nat): seq<Timer>
  {
    if |ts| == 0 then []
    else Pending(ts[..|ts| - 1], t) + (if ts[|ts| - 1].due <= t then [] else [ts[|ts| - 1]])
  }

  /** The clock moves forward to `t`, and every timer due by then has deleted its id. */
  function Advance(s: StoreState, t: nat): StoreState
    requires s.now <= t
  {
    StoreState(s.entries - FiredIds(s.timers, t), t, Pending(s.timers, t))
  }

  /**
   * Lines 133-164, after the record for the call has been resolved: a falsy
   * `number` is refused before the store is touched; otherwise the record
   * is stored, its expiry scheduled, and the call placed, and a placement
   * error removes the record again (the timer stays pending).
   */
  function HandleOutboundCall(s: StoreState, number: Option<string>, callId: string,
                              vars: Vars, placement: Placement): (StoreState, Reply)
  {
    if !Truthy(number) then (s, MissingNumber)
    else
      var stored := Schedule(Put(s, callId, vars), callId);
      match placement
      case Placed(sid) => (stored, Initiated(sid))
      case PlacementError => (Remove(stored, callId), InitiationFailed)
  }

  // ---------------------------------------------------------------------
  // Properties of the specification
  // ---------------------------------------------------------------------

  /** An id is deleted at time `t` exactly when one of its timers is due by then. */
  lemma {:induction false} FiredIdsMeans(ts: seq<Timer>, t: nat, id: string)
    ensures id in FiredIds(ts, t) <==> exists i :: 0 <= i < |ts| && ts[i].callId == id && ts[i].due <= t
  {
    if |ts| > 0 {
      var init := ts[..|ts| - 1];
      FiredIdsMeans(init, t, id);
      if id in FiredIds(init, t) {
        var i :| 0 <= i < |init| && init[i].callId == id && init[i].due <= t;
        assert ts[i] == init[i];
      }
      if exists i :: 0 <= i < |ts| && ts[i].callId == id && ts[i].due <= t {
        var i :| 0 <= i < |ts| && ts[i].callId == id && ts[i].due <= t;
        if i < |init| {
          assert init[i] == ts[i];
        }
      }
    }
  }

  /** A timer stays pending exactly while it is not yet due. */
  lemma {:induction false} PendingMeans(ts: seq<Timer>, t: nat)
    ensures forall x :: x in Pending(ts, t) <==> x in ts && x.due > t
  {
    if |ts| > 0 {
      var init := ts[..|ts| - 1];
      PendingMeans(init, t);
      assert ts == init + [ts[|ts| - 1]];
    }
  }

  /** Later deadlines of the same timers: advancing in two steps is advancing once. */
  lemma {:induction false} PendingTwice(ts: seq<Timer>, t1: nat, t2: nat)
    requires t1 <= t2
    ensures Pending(Pending(ts, t1), t2) == Pending(ts, t2)
    ensures FiredIds(ts, t1) + FiredIds(Pending(ts, t1), t2) == FiredIds(ts, t2)
  {
    if |ts| > 0 {
      var init := ts[..|ts| - 1];
      var last := ts[|ts| - 1];
      PendingTwice(init, t1, t2);
      var p := Pending(init, t1);
      assert Pending(ts, t2) == Pending(init, t2) + (if last.due <= t2 then [] else [last]);
      if last.due > t1 {
        var q := p + [last];
        assert Pending(ts, t1) == q;
        assert q[..|q| - 1] == p && q[|q| - 1] == last;
        assert Pending(q, t2) == Pending(p, t2) + (if last.due <= t2 then [] else [last]);
      } else {
        assert Pending(ts, t1) == p + [] == p;
        assert FiredIds(ts, t1) == FiredIds(init, t1) + {last.callId};
        assert FiredIds(ts, t2) == FiredIds(init, t2) + {last.callId};
      }
    }
  }

  /** Moving the clock to `t1` and then to `t2` is moving it to `t2` directly. */
  lemma AdvanceTwice(s: StoreState, t1: nat, t2: nat)
    requires s.now <= t1 <= t2
    ensures Advance(Advance(s, t1), t2) == Advance(s, t2)
  {
    PendingTwice(s.timers, t1, t2);
  }

  /** A missing `number` is answered with 400 and leaves the store exactly as it was. */
  lemma MissingNumberLeavesNoEntry(s: StoreState, number: Option<string>, callId: string,
                                   vars: Vars, placement: Placement)
    requires !Truthy(number)
    ensures HandleOutboundCall(s, number, callId, vars, placement).0 == s
    ensures StatusCode(HandleOutboundCall(s, number, callId, vars, placement).1) == 400
  {
  }

  /**
   * With a number, the record is readable under the call id as soon as the
   * call is placed, and a deletion is pending for five minutes later.
   */
  lemma PlacedCallIsStored(s: StoreState, number: Option<string>, callId: string,
                           vars: Vars, sid: string)
    requires Truthy(number)
    ensures var (s', reply) := HandleOutboundCall(s, number, callId, vars, Placed(sid));
      && reply == Initiated(sid) && StatusCode(reply) == 200
      && GetOrEmpty(s'.entries, Some(callId)) == vars
      && s'.timers == s.timers + [Timer(s.now + EXPIRY_MS, callId)]
      && (forall id | id != callId :: GetOrEmpty(s'.entries, Some(id)) == GetOrEmpty(s.entries, Some(id)))
  {
  }

  /**
   * A placement error answers 500 and leaves no entry for the call; every
   * other entry is as it was.
   */
  lemma FailedPlacementLeavesNoEntry(s: StoreState, number: Option<string>, callId: string, vars: Vars)
    requires Truthy(number)
    ensures var (s', reply) := HandleOutboundCall(s, number, callId, vars, PlacementError);
      && StatusCode(reply) == 500
      && callId !in s'.entries
      && GetOrEmpty(s'.entries, Some(callId)) == []
      && (forall id | id != callId :: GetOrEmpty(s'.entries, Some(id)) == GetOrEmpty(s.entries, Some(id)))
  {
  }

  /** Deleting twice is deleting once, and deleting an absent id changes nothing. */
  lemma RemoveIsHarmless(s: StoreState, id: string)
    ensures Remove(Remove(s, id), id) == Remove(s, id)
    ensures id !in s.entries ==> Remove(s, id) == s
  {
  }

  /** Once the clock reaches a timer's deadline, its id reads as the empty record. */
  lemma ExpiredEntryIsGone(s: StoreState, t: nat, i: nat)
    requires s.now <= t && i < |s.timers| && s.timers[i].due <= t
    ensures GetOrEmpty(Advance(s, t).entries, Some(s.timers[i].callId)) == []
  {
    FiredIdsMeans(s.timers, t, s.timers[i].callId);
  }

  /**
   * Five minutes after a call was placed its record is gone, whatever else
   * was stored and however the clock got there.
   */
  lemma StoredRecordExpires(s: StoreState, number: Option<string>, callId: string,
                            vars: Vars, placement: Placement, t: nat)
    requires Truthy(number) && s.now + EXPIRY_MS <= t
    ensures var s' := HandleOutboundCall(s, number, callId, vars, placement).0;
      GetOrEmpty(Advance(s', t).entries, Some(callId)) == []
  {
    var s' := HandleOutboundCall(s, number, callId, vars, placement).0;
    ExpiredEntryIsGone(s', t, |s.timers|);
  }

  /**
   * Before its deadline a placed call's record is still there, provided no
   * earlier timer was set for the same id.
   */
  lemma StoredRecordLivesUntilExpiry(s: StoreState, number: Option<string>, callId: string,
                                     vars: Vars, sid: string, t: nat)
    requires Truthy(number) && s.now <= t < s.now + EXPIRY_MS
    requires forall i | 0 <= i < |s.timers| :: s.timers[i].callId != callId
    ensures var s' := HandleOutboundCall(s, number, callId, vars, Placed(sid)).0;
      GetOrEmpty(Advance(s', t).entries, Some(callId)) == vars
  {
    var s' := HandleOutboundCall(s, number, callId, vars, Placed(sid)).0;
    FiredIdsMeans(s'.timers, t, callId);
    forall i | 0 <= i < |s'.timers| && s'.timers[i].callId == callId
      ensures s'.timers[i].due > t
    {
      assert i == |s.timers|;
    }
  }

  // ---------------------------------------------------------------------
  // The store, updated in place
  // ---------------------------------------------------------------------

  class CallContextStore {
    var entries: map<string, Vars>
    var now: nat
    var timers: seq<Timer>

    function State(): StoreState
      reads this
    {
      StoreState(entries, now, timers)
    }

    /** `new Map()`, at time zero with nothing scheduled. */
    constructor ()
      ensures State() == StoreState(map[], 0, [])
    {
      entries := map[];
      now := 0;
      timers := [];
    }

    /** `callContextStore.get(id) || {}`. */
    method Get(id: Option<string>) returns (vars: Vars)
      ensures vars == GetOrEmpty(entries, id)
      ensures id.Some? && id.value in entries ==> vars == entries[id.value]
      ensures id.None? || id.value !in entries ==> vars == []
    {
      if id.Some? && id.value in entries {
        vars := entries[id.value];
      } else {
        vars := [];
      }
    }

    /** `callContextStore.set(id, vars)`. */
    method Set(id: string, vars: Vars)
      modifies this
      ensures State() == Put(old(State()), id, vars)
    {
      entries := entries[id := vars];
    }

    /** `callContextStore.delete(id)`. */
    method Delete(id: string)
      modifies this
      ensures State() == Remove(old(State()), id)
    {
      entries := entries - {id};
    }

    /** The `setTimeout` of lines 142-144. */
    method ScheduleExpiry(id: string)
      modifies this
      ensures State() == Schedule(old(State()), id)
    {
      timers := timers + [Timer(now + EXPIRY_MS, id)];
    }

    /** Time passes up to `t`: each timer due by then runs its deletion. */
    method AdvanceClock(t: nat)
      requires now <= t
      modifies this
      ensures State() == Advance(old(State()), t)
    {
      var ts := timers;
      var kept: seq<Timer> := [];
      var i := 0;
      while i < |ts|
        invariant 0 <= i <= |ts|
        invariant timers == ts && now == old(now)
        invariant kept == Pending(ts[..i], t)
        invariant entries == old(entries) - FiredIds(ts[..i], t)
      {
        assert ts[..i + 1][..i] == ts[..i];
        if ts[i].due <= t {
          Delete(ts[i].callId);
        } else {
          kept := kept + [ts[i]];
        }
        i := i + 1;
      }
      assert ts[..i] == ts;
      timers := kept;
      now := t;
    }

    /**
     * The `/outbound-call` route once the record has been resolved from the
     * fetch: the number check, then set, schedule, place the call, and
     * delete on a placement error.
     */
    method OutboundCall(number: Option<string>, callId: string, outcome: FetchOutcome,
                        placement: Placement) returns (reply: Reply)
      modifies this
      ensures (State(), reply)
           == HandleOutboundCall(old(State()), number, callId, ResolveVariables(outcome), placement)
    {
      var vars := ResolveVariables(outcome);
      if !Truthy(number) {
        return MissingNumber;
      }
      Set(callId, vars);
      ScheduleExpiry(callId);
      match placement {
        case Placed(sid) =>
          reply := Initiated(sid);
        case PlacementError =>
          Delete(callId);
          reply := InitiationFailed;
      }
    }
  }
}
