/** The startup audit of the durable session/room graph (src/state/ownership.rs). */
module Ownership {
  import opened Wrappers
  import opened Model
  import opened Database
  import opened Transitions
  import opened Invariants
  import opened StateStore

  predicate NonClosed(db: Db, id: Uuid) {
    id in db.sessions && !db.sessions[id].lifecycle.Closed?
  }

  function Owner(lifecycle: RoomLifecycle): Option<Uuid> {
    if lifecycle.Ready? then None else Some(lifecycle.sid)
  }

  // ----- Conflicts no repair may decide -----

  ghost predicate SharedRoom(db: Db) {
    exists s, t :: NonClosed(db, s) && NonClosed(db, t) && s != t && db.sessions[s].roomId == db.sessions[t].roomId
  }

  /** The room row points at nothing, at a closed session, or at another room's session. */
  predicate Dangling(db: Db, room: RoomId)
    requires room in db.rooms
  {
    var owner := Owner(db.rooms[room].lifecycle);
    owner.Some? && !(NonClosed(db, owner.value) && db.sessions[owner.value].roomId == room)
  }

  /** A session that is not closed finds its room in someone else's hands. */
  predicate Displaced(db: Db, id: Uuid)
    requires id in db.sessions
  {
    var room := db.sessions[id].roomId;
    NonClosed(db, id) && room in db.rooms &&
    var owner := Owner(db.rooms[room].lifecycle);
    owner.Some? && owner.value != id
  }

  ghost predicate HardConflict(db: Db) {
    || SharedRoom(db)
    || (exists room :: room in db.rooms && Dangling(db, room))
    || (exists id :: id in db.sessions && Displaced(db, id))
  }

  method GroupByRoom(db: Db) returns (byRoom: map<RoomId, set<Uuid>>)
    ensures forall room | room in byRoom ::
              forall id :: id in byRoom[room] <==> NonClosed(db, id) && db.sessions[id].roomId == room
    ensures forall id | NonClosed(db, id) :: db.sessions[id].roomId in byRoom
  {
    byRoom := map[];
    var left := db.sessions.Keys;
    while left != {}
      invariant left <= db.sessions.Keys
      invariant forall room | room in byRoom ::
                  forall id :: id in byRoom[room] <==>
                        id !in left && NonClosed(db, id) && db.sessions[id].roomId == room
      invariant forall id | NonClosed(db, id) && id !in left :: db.sessions[id].roomId in byRoom
      decreases left
    {
      var id :| id in left;
      left := left - {id};
      var session := db.sessions[id];
      if !session.lifecycle.Closed? {
        var present := if session.roomId in byRoom then byRoom[session.roomId] else {};
        assert session.roomId !in byRoom ==> forall other | NonClosed(db, other) && other !in left && other != id ::
                 db.sessions[other].roomId != session.roomId;
        byRoom := byRoom[session.roomId := present + {id}];
      }
    }
  }

  lemma TwoElements<T>(s: set<T>)
    ensures |s| > 1 <==> exists x, y :: x in s && y in s && x != y
  {
    if |s| > 1 {
      var x :| x in s;
      assert |s - {x}| > 0;
      var y :| y in s - {x};
      assert x in s && y in s && x != y;
    }
    if x, y :| x in s && y in s && x != y {
      assert |s - {x} - {y}| == |s| - 2;
    }
  }

  method RoomIsShared(db: Db) returns (shared: bool)
    ensures shared <==> SharedRoom(db)
  {
    var byRoom := GroupByRoom(db);
    var left := byRoom.Keys;
    while left != {}
      invariant left <= byRoom.Keys
      invariant forall room | room in byRoom && room !in left :: |byRoom[room]| <= 1
      decreases left
    {
      var room :| room in left;
      TwoElements(byRoom[room]);
      if |byRoom[room]| > 1 {
        return true;
      }
      left := left - {room};
    }
    if s, t :| NonClosed(db, s) && NonClosed(db, t) && s != t && db.sessions[s].roomId == db.sessions[t].roomId {
      TwoElements(byRoom[db.sessions[s].roomId]);
    }
    return false;
  }

  method DetectHardConflicts(db: Db) returns (r: Outcome)
    ensures r.Fail? <==> HardConflict(db)
  {
    var shared := RoomIsShared(db);
    if shared {
      return Fail("room has multiple non-closed sessions");
    }
    var rooms := db.rooms.Keys;
    while rooms != {}
      invariant rooms <= db.rooms.Keys
      invariant forall room | room in db.rooms && room !in rooms :: !Dangling(db, room)
      decreases rooms
    {
      var room :| room in rooms;
      if Dangling(db, room) {
        return Fail("room points to a missing, closed or foreign session");
      }
      rooms := rooms - {room};
    }
    var ids := db.sessions.Keys;
    while ids != {}
      invariant ids <= db.sessions.Keys
      invariant forall id | id in db.sessions && id !in ids :: !Displaced(db, id)
      decreases ids
    {
      var id :| id in ids;
      if Displaced(db, id) {
        return Fail("room points to another session");
      }
      ids := ids - {id};
    }
    return Pass;
  }

  // ----- Repair -----

  ghost predicate Claimable(db: Db) {
    && !SharedRoom(db)
    && forall room | room in db.rooms :: !Dangling(db, room)
  }

  /** Everything but the two rows of a repaired session stays. */
  ghost predicate OnlyRepaired(before: Db, after: Db, repaired: set<Uuid>) {
    && after == before.(sessions := after.sessions, rooms := after.rooms)
    && after.sessions.Keys == before.sessions.Keys
    && (forall id | id in before.sessions ::
          if id in repaired
          then after.sessions[id].lifecycle.RecoveryRequired?
               && after.sessions[id] ==
                     before.sessions[id].(lifecycle := after.sessions[id].lifecycle,
                     events := after.sessions[id].events)
          else after.sessions[id] == before.sessions[id])
    && (forall room | (room in before.rooms || room in after.rooms) && !RoomOf(before, repaired, room) ::
          room in before.rooms && room in after.rooms && after.rooms[room] == before.rooms[room])
  }

  /** One of these sessions lives in the room. */
  ghost predicate RoomOf(db: Db, ids: set<Uuid>, room: RoomId) {
    exists id :: id in ids && id in db.sessions && db.sessions[id].roomId == room
  }

  /** Exactly the session and its room change: recovery is required and the room is blocked for it. */
  ghost predicate Repairs(db: Db, db': Db, id: Uuid) {
    && id in db.sessions && id in db'.sessions
    && var session := db'.sessions[id];
    && session == db.sessions[id].(lifecycle := session.lifecycle, events := session.events)
    && session.lifecycle.RecoveryRequired?
    && session.roomId in db'.rooms
    && db'.rooms[session.roomId].lifecycle == RoomLifecycle.Blocked(id)
    && db' == db.(sessions := db.sessions[id := session],
        rooms := db.rooms[session.roomId := db'.rooms[session.roomId]])
  }

  lemma RepairFrame(db: Db, id: Uuid, reason: Reason, now: Timestamp)
    requires db.Keyed() && NonClosed(db, id)
    ensures Repairs(db, RecoveryRequested(db, id, reason, now), id)
  {
  }

  lemma RepairEnabled(db: Db, id: Uuid, reason: Reason)
    requires db.Keyed() && Claimable(db) && NonClosed(db, id) && !reason.Blank()
    ensures CanRequireRecovery(db, id, reason)
  {
    var room := db.sessions[id].roomId;
    if room in db.rooms && !db.rooms[room].lifecycle.Ready? {
      assert !Dangling(db, room);
    }
  }

  lemma RepairKeepsClaimable(db: Db, db': Db, id: Uuid)
    requires db.Keyed() && Claimable(db) && NonClosed(db, id) && Repairs(db, db', id)
    ensures Claimable(db')
  {
    assert forall x :: NonClosed(db', x) ==> NonClosed(db, x) && db'.sessions[x].roomId == db.sessions[x].roomId;
    forall room | room in db'.rooms ensures !Dangling(db', room) {
      if room != db.sessions[id].roomId {
        assert !Dangling(db, room);
      }
    }
  }

  lemma ExactIsOwned(db: Db)
    requires db.Keyed() && Claimable(db)
    requires forall id | id in db.sessions :: OwnershipExact(db, db.sessions[id])
    ensures RoomsOwned(db)
  {
    forall room | room in db.rooms ensures RoomOk(db, room) {
      assert !Dangling(db, room);
    }
  }

  ghost predicate Awaiting(db: Db, left: set<Uuid>, repaired: set<Uuid>) {
    forall id | id in left :: NonClosed(db, id) && id !in repaired
  }

  ghost predicate DoneExact(snapshot: Db, db: Db, left: set<Uuid>) {
    snapshot.sessions.Keys == db.sessions.Keys &&
    forall id | id in snapshot.sessions && id !in left :: OwnershipExact(db, db.sessions[id])
  }

  ghost predicate RepairedMismatches(snapshot: Db, left: set<Uuid>, repaired: set<Uuid>) {
    forall id | id in snapshot.sessions && id !in left ::
          id in repaired <==> !OwnershipExact(snapshot, snapshot.sessions[id])
  }

  /** The audit has dealt with every session outside `left`. */
  ghost predicate Audited(snapshot: Db, db: Db, left: set<Uuid>, repaired: set<Uuid>) {
    && db.Keyed() && Claimable(db)
    && OnlyRepaired(snapshot, db, repaired)
    && Awaiting(db, left, repaired)
    && DoneExact(snapshot, db, left)
    && RepairedMismatches(snapshot, left, repaired)
  }

  /** A session still to be audited finds its own rows untouched. */
  lemma RowsUntouchedYet(snapshot: Db, db: Db, left: set<Uuid>, repaired: set<Uuid>, id: Uuid)
    requires snapshot.Keyed() && Audited(snapshot, db, left, repaired) && id in left && id in snapshot.sessions
    requires forall x | x in repaired :: x in snapshot.sessions
    ensures OwnershipExact(db, db.sessions[id]) <==> OwnershipExact(snapshot, snapshot.sessions[id])
  {
    var room := snapshot.sessions[id].roomId;
    assert NonClosed(db, id);
    if RoomOf(snapshot, repaired, room) {
      var x :| x in repaired && x in snapshot.sessions && snapshot.sessions[x].roomId == room;
      assert NonClosed(db, x) && x != id;
    }
  }

  lemma StillAwaiting(db: Db, left: set<Uuid>, repaired: set<Uuid>, id: Uuid)
    requires Awaiting(db, left, repaired) && id in left
    ensures NonClosed(db, id) && id !in repaired
  {
  }

  lemma RepairedKeyed(db: Db, db': Db, id: Uuid)
    requires db.Keyed() && Repairs(db, db', id)
    ensures db'.Keyed() && id in db'.sessions && db'.sessions == db.sessions[id := db'.sessions[id]]
  {
  }

  lemma MismatchRepaired(snapshot: Db, left: set<Uuid>, repaired: set<Uuid>, id: Uuid)
    requires RepairedMismatches(snapshot, left, repaired) && id in left && id in snapshot.sessions
    requires !OwnershipExact(snapshot, snapshot.sessions[id])
    ensures RepairedMismatches(snapshot, left - {id}, repaired + {id})
  {
  }

  lemma ClaimableUnshared(db: Db)
    requires Claimable(db)
    ensures !SharedRoom(db)
  {
  }

  lemma AuditStep(snapshot: Db, db: Db, db': Db, left: set<Uuid>, repaired: set<Uuid>, id: Uuid)
    requires Audited(snapshot, db, left, repaired) && id in left && id in snapshot.sessions
    requires !OwnershipExact(snapshot, snapshot.sessions[id]) && Repairs(db, db', id)
    ensures Audited(snapshot, db', left - {id}, repaired + {id})
  {
    hide OnlyRepaired, Awaiting, DoneExact, Claimable, RepairedMismatches, Repairs, OwnershipExact, SharedRoom,
        NonClosed;
    StillAwaiting(db, left, repaired, id);
    ClaimableUnshared(db);
    RepairedKeyed(db, db', id);
    RepairKeepsClaimable(db, db', id);
    OthersStayExact(snapshot, db, db', left, id);
    RepairOnly(snapshot, db, db', repaired, id);
    AwaitingShrinks(db, db', left, repaired, id);
    MismatchRepaired(snapshot, left, repaired, id);
  }

  lemma AwaitingShrinks(db: Db, db': Db, left: set<Uuid>, repaired: set<Uuid>, id: Uuid)
    requires Awaiting(db, left, repaired)
    requires id in db'.sessions && db'.sessions == db.sessions[id := db'.sessions[id]]
    ensures Awaiting(db', left - {id}, repaired + {id})
  {
  }

  lemma AuditSkip(snapshot: Db, db: Db, left: set<Uuid>, repaired: set<Uuid>, id: Uuid)
    requires snapshot.Keyed() && Audited(snapshot, db, left, repaired) && id in left && id in snapshot.sessions
    requires repaired <= snapshot.sessions.Keys
    requires OwnershipExact(snapshot, snapshot.sessions[id])
    ensures Audited(snapshot, db, left - {id}, repaired)
  {
    RowsUntouchedYet(snapshot, db, left, repaired, id);
    assert id !in repaired;
  }

  lemma OthersStayExact(snapshot: Db, db: Db, db': Db, left: set<Uuid>, id: Uuid)
    requires db.Keyed() && DoneExact(snapshot, db, left) && NonClosed(db, id) && !SharedRoom(db)
    requires Repairs(db, db', id)
    ensures DoneExact(snapshot, db', left - {id})
  {
    forall other | other in snapshot.sessions
        && other !in left - {id} ensures OwnershipExact(db', db'.sessions[other]) {
      if other != id && NonClosed(db, other) {
        assert db.sessions[other].roomId != db.sessions[id].roomId;
      }
    }
  }

  lemma RepairOnly(snapshot: Db, db: Db, db': Db, repaired: set<Uuid>, id: Uuid)
    requires OnlyRepaired(snapshot, db, repaired) && id in snapshot.sessions && id !in repaired
    requires Repairs(db, db', id)
    ensures OnlyRepaired(snapshot, db', repaired + {id})
  {
    forall room | (room in snapshot.rooms || room in db'.rooms) && !RoomOf(snapshot, repaired + {id}, room)
      ensures room in snapshot.rooms && room in db'.rooms && db'.rooms[room] == snapshot.rooms[room]
    {
      assert id in repaired + {id};
      assert !RoomOf(snapshot, repaired, room);
    }
  }

  lemma AuditStarts(snapshot: Db, left: set<Uuid>)
    requires snapshot.Keyed() && !HardConflict(snapshot)
    requires left == set id | id in snapshot.sessions && !snapshot.sessions[id].lifecycle.Closed?
    ensures Audited(snapshot, snapshot, left, {})
  {
    forall id | id in snapshot.sessions && id !in left ensures OwnershipExact(snapshot, snapshot.sessions[id]) {
      assert snapshot.sessions[id].lifecycle.Closed?;
    }
  }

  lemma AuditEnds(snapshot: Db, db: Db, repaired: set<Uuid>)
    requires Audited(snapshot, db, {}, repaired) && repaired <= snapshot.sessions.Keys
    ensures RoomsOwned(db) && OnlyRepaired(snapshot, db, repaired)
    ensures repaired == Mismatched(snapshot)
  {
    ExactIsOwned(db);
  }

  /** The sessions whose room row does not match them. */
  ghost function Mismatched(db: Db): set<Uuid> {
    set id | id in db.sessions && !OwnershipExact(db, db.sessions[id])
  }

  method Repair(store: Store, id: Uuid, reason: Reason, now: Timestamp)
    requires store.Valid() && Claimable(store.Snapshot()) && NonClosed(store.Snapshot(), id) && !reason.Blank()
    modifies store
    ensures store.Valid() && Repairs(old(store.Snapshot()), store.Snapshot(), id)
  {
    RepairEnabled(store.Snapshot(), id, reason);
    RepairFrame(store.Snapshot(), id, reason, now);
    var outcome := store.RequireRecovery(id, reason, now);
  }

  predicate IsExact(db: Db, session: LiveSession)
    requires !session.lifecycle.Closed?
    ensures IsExact(db, session) <==> OwnershipExact(db, session)
  {
    session.roomId in db.rooms && db.rooms[session.roomId].lifecycle == DesiredOwner(session)
  }

  /** One turn of the audit: repair the session unless its room matches it in the snapshot. */
  method AuditSession(store: Store, snapshot: Db, ghost left: set<Uuid>, ghost repaired: set<Uuid>, id: Uuid,
      now: Timestamp)
    returns (repairs: set<Uuid>)
    requires store.Valid() && snapshot.Keyed() && id in left && id in snapshot.sessions
             && !snapshot.sessions[id].lifecycle.Closed?
    requires repaired <= snapshot.sessions.Keys
    requires Audited(snapshot, store.Snapshot(), left, repaired)
    modifies store
    ensures store.Valid() && repairs <= {id}
    ensures Audited(snapshot, store.Snapshot(), left - {id}, repaired + repairs)
  {
    ghost var before := store.Snapshot();
    assert NonClosed(before, id) && Claimable(before);
    hide Audited;
    if IsExact(snapshot, snapshot.sessions[id]) {
      AuditSkip(snapshot, store.Snapshot(), left, repaired, id);
      return {};
    }
    Repair(store, id, OwnershipMismatch(snapshot.sessions[id].roomId, id), now);
    AuditStep(snapshot, before, store.Snapshot(), left, repaired, id);
    return {id};
  }

  /**
    Main result: from any database the audit either refuses before writing anything, exactly
    when a hard conflict exists, or leaves an exact ownership graph; only the sessions that did
    not match their room are turned to recovery.
   */
  method Audit(store: Store, now: Timestamp) returns (r: Result<set<Uuid>>)
    requires store.Valid()
    modifies store
    ensures store.Valid()
    ensures r.Failure? <==> HardConflict(old(store.Snapshot()))
    ensures r.Failure? ==> store.Snapshot() == old(store.Snapshot())
    ensures r.Success? ==> RoomsOwned(store.Snapshot())
    ensures r.Success? ==> OnlyRepaired(old(store.Snapshot()), store.Snapshot(), r.value)
    ensures r.Success? ==> r.value == Mismatched(old(store.Snapshot()))
  {
    var snapshot := store.Snapshot();
    var conflicts := DetectHardConflicts(snapshot);
    if conflicts.Fail? {
      return Failure(conflicts.error);
    }
    var repaired := {};
    var left := set id | id in snapshot.sessions && !snapshot.sessions[id].lifecycle.Closed?;
    AuditStarts(snapshot, left);
    while left != {}
      invariant left <= snapshot.sessions.Keys && repaired <= snapshot.sessions.Keys
      invariant Audited(snapshot, store.Snapshot(), left, repaired)
      decreases left
    {
      var id :| id in left;
      var repairs := AuditSession(store, snapshot, left, repaired, id, now);
      repaired := repaired + repairs;
      left := left - {id};
    }
    AuditEnds(snapshot, store.Snapshot(), repaired);
    return Success(repaired);
  }
}
