/**
  Whole lives of the program as the upload targets see them: one worker that awaits each remote call
  before it makes the next, everyone else who writes to the store meanwhile, and restarts.
 */
module WorkerRuns {
  import opened Model
  import opened Database
  import opened Transitions
  import opened Invariants
  import opened Preservation
  import opened Runs
  import opened Gates

  predicate IsClaim(command: Command) {
    command.BeginUpload? || command.BeginSubmission?
  }

  predicate IsReport(command: Command) {
    command.ReportUpload? || command.ReportSubmission?
  }

  ghost predicate AllReports(events: seq<Event>) {
    forall e | e in events :: IsReport(e.command)
  }

  /** Nothing is in flight. */
  ghost predicate Landed(db: Db) {
    && (forall k | k in db.segments :: !db.segments[k].upload.Attempting?)
    && (forall sid | sid in db.submissions :: !db.submissions[sid].state.Attempting?)
  }

  // ----- What is done to the store -----

  /** The worker claims or records an answer; the recorder, the supervisor or an operator writes; the program starts. */
  datatype Act =
    | Call(claim: Event)
    | Answer(report: Event)
    | Other(event: Event)
    | Restart(reports: seq<Event>)
  {
    function Events(): seq<Event> {
      match this
      case Call(e) => [e]
      case Answer(e) => [e]
      case Other(e) => [e]
      case Restart(reports) => reports
    }

    /** Whether a call is still open afterwards: a claim opens it, its recorded answer or a restart closes it. */
    ghost predicate Calling(db: Db, calling: bool) {
      match this
      case Call(e) => calling || Enabled(db, e.command)
      case Answer(e) => calling && !Enabled(db, e.command)
      case Other(_) => calling
      case Restart(_) => false
    }

    /**
      The worker claims only when none of its calls is open; nobody else claims or reports; and a
      restart settles whatever the last process left in flight before there is a worker again.
     */
    ghost predicate Lawful(db: Db, calling: bool) {
      match this
      case Call(e) => !calling && IsClaim(e.command)
      case Answer(e) => IsReport(e.command)
      case Other(e) => !IsClaim(e.command) && !IsReport(e.command)
      case Restart(reports) => AllReports(reports) && Landed(Run(db, reports))
    }
  }

  function EventsOf(acts: seq<Act>): seq<Event> {
    if acts == [] then [] else acts[0].Events() + EventsOf(acts[1..])
  }

  ghost predicate LawfulRun(db: Db, calling: bool, acts: seq<Act>)
    decreases |acts|
  {
    acts == [] ||
    (acts[0].Lawful(db, calling)
     && LawfulRun(Run(db, acts[0].Events()), acts[0].Calling(db, calling), acts[1..]))
  }

  ghost predicate CallingAfter(db: Db, calling: bool, acts: seq<Act>)
    decreases |acts|
  {
    if acts == [] then calling
    else CallingAfter(Run(db, acts[0].Events()), acts[0].Calling(db, calling), acts[1..])
  }

  // ----- Runs one after the other -----

  lemma {:induction false} RunJoin(db: Db, first: seq<Event>, second: seq<Event>)
    ensures Run(db, first + second) == Run(Run(db, first), second)
    decreases |first|
  {
    if first == [] {
      assert first + second == second;
    } else {
      assert (first + second)[1..] == first[1..] + second;
      RunJoin(Apply(db, first[0].command, first[0].now), first[1..], second);
    }
  }

  lemma {:induction false} DisciplinedJoin(db: Db, first: seq<Event>, second: seq<Event>)
    requires DisciplinedRun(db, first) && DisciplinedRun(Run(db, first), second)
    ensures DisciplinedRun(db, first + second)
    decreases |first|
  {
    if first == [] {
      assert first + second == second;
    } else {
      assert (first + second)[1..] == first[1..] + second;
      DisciplinedJoin(Apply(db, first[0].command, first[0].now), first[1..], second);
    }
  }

  /** Acts that follow each other make one lawful run. */
  lemma {:induction false} LawfulJoin(db: Db, calling: bool, first: seq<Act>, second: seq<Act>)
    requires LawfulRun(db, calling, first)
    requires LawfulRun(Run(db, EventsOf(first)), CallingAfter(db, calling, first), second)
    ensures LawfulRun(db, calling, first + second)
    ensures Run(db, EventsOf(first + second)) == Run(Run(db, EventsOf(first)), EventsOf(second))
    ensures CallingAfter(db, calling, first + second) ==
            CallingAfter(Run(db, EventsOf(first)), CallingAfter(db, calling, first), second)
    decreases |first|
  {
    if first == [] {
      assert first + second == second;
    } else {
      var act, others := first[0], first[1..];
      assert (first + second)[1..] == others + second;
      RunJoin(db, act.Events(), EventsOf(others));
      RunJoin(db, act.Events(), EventsOf(others + second));
      LawfulJoin(Run(db, act.Events()), act.Calling(db, calling), others, second);
    }
  }

  /** Begun with no call open, these acts take one database to the other, and leave a call open or not. */
  ghost predicate Does(db: Db, acts: seq<Act>, db': Db, open: bool) {
    LawfulRun(db, false, acts) && Run(db, EventsOf(acts)) == db' && CallingAfter(db, false, acts) == open
  }

  lemma DoesNothing(db: Db)
    ensures Does(db, [], db, false)
  {
  }

  lemma DoesMore(db: Db, acts: seq<Act>, db': Db, more: seq<Act>, db'': Db, open: bool)
    requires Does(db, acts, db', false) && Does(db', more, db'', open)
    ensures Does(db, acts + more, db'', open)
  {
    LawfulJoin(db, false, acts, more);
  }

  lemma OneAct(db: Db, calling: bool, act: Act)
    ensures LawfulRun(db, calling, [act]) <==> act.Lawful(db, calling)
    ensures EventsOf([act]) == act.Events()
    ensures CallingAfter(db, calling, [act]) == act.Calling(db, calling)
  {
    assert [act][1..] == [];
    assert act.Events() + [] == act.Events();
  }

  lemma OneEvent(db: Db, e: Event)
    ensures Run(db, [e]) == Apply(db, e.command, e.now)
  {
    assert [e][1..] == [];
  }

  /** A claim that is accepted, and the recording of its answer, accepted or not. */
  lemma DoesCall(db: Db, claim: Event, report: Event)
    requires IsClaim(claim.command) && Enabled(db, claim.command) && IsReport(report.command)
    ensures var claimed := Effect(db, claim.command, claim.now);
            Does(db, [Call(claim), Answer(report)], Apply(claimed, report.command, report.now),
                 !Enabled(claimed, report.command))
  {
    hide Enabled, Effect;
    var claimed := Effect(db, claim.command, claim.now);
    OneEvent(db, claim);
    OneAct(db, false, Call(claim));
    OneEvent(claimed, report);
    OneAct(claimed, true, Answer(report));
    LawfulJoin(db, false, [Call(claim)], [Answer(report)]);
    assert [Call(claim)] + [Answer(report)] == [Call(claim), Answer(report)];
  }

  lemma DoesOther(db: Db, e: Event)
    requires !IsClaim(e.command) && !IsReport(e.command)
    ensures Does(db, [Other(e)], Apply(db, e.command, e.now), false)
  {
    OneEvent(db, e);
    OneAct(db, false, Other(e));
  }

  // ----- One flight at most -----

  ghost predicate OneInAir(db: Db) {
    forall a, b :: Flying(db, a) && Flying(db, b) ==> a == b
  }

  /** At most one operation is in flight, and none unless a call is open. */
  ghost predicate AirOk(db: Db, calling: bool) {
    OneInAir(db) && (!calling ==> Landed(db))
  }

  lemma SomethingFlies(db: Db) returns (op: RemoteOperation)
    requires !Landed(db)
    ensures Flying(db, op)
  {
    if k :| k in db.segments && db.segments[k].upload.Attempting? {
      op := UploadOp(k.sid, k.index, db.segments[k].upload.attempt.id);
      assert SegmentKey(k.sid, k.index) == k;
    } else {
      var sid :| sid in db.submissions && db.submissions[sid].state.Attempting?;
      op := SubmissionOp(sid, db.submissions[sid].state.attempt.id);
    }
  }

  lemma LandedFlies(db: Db)
    ensures Landed(db) <==> forall op :: !Flying(db, op)
  {
    if !Landed(db) {
      var op := SomethingFlies(db);
    }
  }

  /** A report that is accepted lands the operation it is about. */
  lemma ReportLands(db: Db, command: Command, now: Timestamp) returns (op: RemoteOperation)
    requires Inv(db) && IsReport(command) && Enabled(db, command)
    ensures Flying(db, op) && !Flying(Effect(db, command, now), op)
  {
    match command
    case ReportUpload(key, id, report) =>
      assert SegmentOk(db, key);
      op := UploadOp(key.sid, key.index, id);
    case ReportSubmission(sid, id, report) =>
      assert SubmissionOk(db, sid);
      op := SubmissionOp(sid, id);
  }

  /** Only a claim adds a flight. */
  lemma NoneTakesOff(db: Db, command: Command, now: Timestamp)
    requires Inv(db) && Enabled(db, command) && !IsClaim(command)
    ensures forall op :: Flying(Effect(db, command, now), op) ==> Flying(db, op)
  {
    forall op | Flying(Effect(db, command, now), op) ensures Flying(db, op) {
      FlightRowOrigin(db, command, now, op);
    }
  }

  lemma EventKeepsAir(db: Db, e: Event, act: Act, calling: bool)
    requires Inv(db) && AirOk(db, calling) && act.Lawful(db, calling) && act.Events() == [e] && !act.Restart?
    ensures Disciplined(db, e.command)
    ensures Inv(Apply(db, e.command, e.now)) && AirOk(Apply(db, e.command, e.now), act.Calling(db, calling))
  {
    hide Inv, Landed;
    LandedFlies(db);
    if Enabled(db, e.command) {
      var db' := Effect(db, e.command, e.now);
      EffectKeeps(db, e.command, e.now);
      LandedFlies(db');
      if act.Call? {
        forall op | Flying(db', op) ensures Claims(e.command, op) {
          FlightRowOrigin(db, e.command, e.now, op);
        }
      } else {
        NoneTakesOff(db, e.command, e.now);
        if act.Answer? {
          var op := ReportLands(db, e.command, e.now);
        }
      }
    }
  }

  /** Reports alone are disciplined, and leave no more in flight than there was. */
  lemma {:induction false} ReportsKeepAir(db: Db, reports: seq<Event>)
    requires Inv(db) && OneInAir(db) && AllReports(reports)
    ensures DisciplinedRun(db, reports) && Inv(Run(db, reports)) && OneInAir(Run(db, reports))
    decreases |reports|
  {
    if reports != [] {
      var e := reports[0];
      if Enabled(db, e.command) {
        EffectKeeps(db, e.command, e.now);
        NoneTakesOff(db, e.command, e.now);
      }
      ReportsKeepAir(Apply(db, e.command, e.now), reports[1..]);
    }
  }

  lemma ActKeepsAir(db: Db, act: Act, calling: bool)
    requires Inv(db) && AirOk(db, calling) && act.Lawful(db, calling)
    ensures DisciplinedRun(db, act.Events())
    ensures Inv(Run(db, act.Events())) && AirOk(Run(db, act.Events()), act.Calling(db, calling))
  {
    if act.Restart? {
      ReportsKeepAir(db, act.reports);
    } else {
      var e := act.Events()[0];
      EventKeepsAir(db, e, act, calling);
      assert act.Events()[1..] == [];
    }
  }

  /** Main result: turns of the worker, writes of everyone else and restarts keep to one claim at a time. */
  lemma {:induction false} LawfulIsDisciplined(db: Db, calling: bool, acts: seq<Act>)
    requires Inv(db) && AirOk(db, calling) && LawfulRun(db, calling, acts)
    ensures DisciplinedRun(db, EventsOf(acts))
    ensures Inv(Run(db, EventsOf(acts))) && AirOk(Run(db, EventsOf(acts)), CallingAfter(db, calling, acts))
    decreases |acts|
  {
    hide AirOk, Inv;
    if acts != [] {
      var act := acts[0];
      ActKeepsAir(db, act, calling);
      LawfulIsDisciplined(Run(db, act.Events()), act.Calling(db, calling), acts[1..]);
      DisciplinedJoin(db, act.Events(), EventsOf(acts[1..]));
      RunJoin(db, act.Events(), EventsOf(acts[1..]));
    }
  }

  /**
    Main result: whatever the worker is answered, whatever the others write and however often the
    program is stopped and started, a blocked gate changes only by the decision about its owner,
    and that decision opens it.
   */
  lemma OwnerAloneReopens(acts: seq<Act>, command: Command, now: Timestamp, target: UploadTarget,
      owner: RemoteOperation)
    requires LawfulRun(EMPTY, false, acts)
    requires BlockedBy(Run(EMPTY, EventsOf(acts)), target, owner)
    ensures var db := Run(EMPTY, EventsOf(acts));
            var db' := Apply(db, command, now);
            && target in db'.gates
            && (db'.gates[target] != db.gates[target] <==> Resolves(command, owner) && Enabled(db, command))
            && (db'.gates[target] != db.gates[target] ==> db'.gates[target].Ready?)
  {
    EmptyInv();
    LawfulIsDisciplined(EMPTY, false, acts);
    OnlyOwnerReopens(EventsOf(acts), command, now, target, owner);
  }
}
