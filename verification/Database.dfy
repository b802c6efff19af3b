/** One consistent snapshot of the five tables, and the row writes a transaction makes. */
module Database {
  import opened Wrappers
  import opened Model

  datatype Db = Db(
    sessions: map<Uuid, LiveSession>,
    segments: map<SegmentKey, Segment>,
    submissions: map<Uuid, Submission>,
    rooms: map<RoomId, RoomState>,
    gates: map<UploadTarget, TargetGate>)
  {
    function PutSession(session: LiveSession): Db {
      this.(sessions := sessions[session.id := session])
    }

    function PutSegment(segment: Segment): Db {
      this.(segments := segments[segment.Key() := segment])
    }

    function PutSubmission(submission: Submission): Db {
      this.(submissions := submissions[submission.sid := submission])
    }

    function PutRoom(room: RoomId, lifecycle: RoomLifecycle, now: Timestamp, message: Option<Reason>): Db {
      this.(rooms := rooms[room := RoomState(lifecycle, now, message)])
    }

    function PutGate(target: UploadTarget, gate: TargetGate): Db {
      this.(gates := gates[target := gate])
    }

    /** Every row is stored under its own identity, as the `put_*` functions do. */
    ghost predicate Keyed() {
      && (forall id | id in sessions :: sessions[id].id == id)
      && (forall k | k in segments :: segments[k].Key() == k)
      && (forall id | id in submissions :: submissions[id].sid == id)
    }
  }

  const EMPTY := Db(map[], map[], map[], map[], map[])

  function SegmentIndices(db: Db, sid: Uuid): set<nat> {
    set k | k in db.segments && k.sid == sid :: k.index
  }

  ghost function Least(s: set<nat>): (m: nat)
    requires s != {}
    ensures m in s && forall x | x in s :: m <= x
  {
    var x :| x in s;
    if s == {x} then x else
      var m := Least(s - {x});
      assert s == (s - {x}) + {x};
      if x < m then x else m
  }

  ghost function Greatest(s: set<nat>): (m: nat)
    requires s != {}
    ensures m in s && forall x | x in s :: x <= m
  {
    var x :| x in s;
    if s == {x} then x else
      var m := Greatest(s - {x});
      assert s == (s - {x}) + {x};
      if m < x then x else m
  }
}
