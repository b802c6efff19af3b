/**
  The append-only ledger of remote attempts that every segment and submission carries:
  the attempts, the operator's resolutions, and the rules that forbid a blind retry.
 */
module History {
  import opened Wrappers
  import opened Model

  type Attempts<P> = seq<AttemptRecord<P>>
  type Resolutions<P> = seq<OperatorResolution<P>>

  /** What an upload state and a submission state have in common, as the ledger sees it. */
  datatype Phase<+P> =
    | Idle
    | InFlight(attempt: RemoteAttempt)
    | Halted(id: Uuid)
    | Unknown(attempt: RemoteAttempt)
    | Settled(proof: P)
    | Withdrawn

  function UploadPhase(state: UploadState): Phase<UploadedPart> {
    match state
    case NotPlanned => Idle
    case Pending(_, _, _) => Idle
    case Attempting(attempt) => InFlight(attempt)
    case Blocked(id, _) => if id.Some? then Halted(id.value) else Withdrawn
    case Ambiguous(attempt, _) => Unknown(attempt)
    case Uploaded(proof) => Settled(proof)
    case Cancelled(_) => Withdrawn
  }

  function SubmissionPhase(state: SubmissionState): Phase<SubmissionProof> {
    match state
    case RetryScheduledAt(_, _, _) => Idle
    case Attempting(attempt) => InFlight(attempt)
    case Blocked(id, _) => if id.Some? then Halted(id.value) else Withdrawn
    case Ambiguous(attempt, _) => Unknown(attempt)
    case RetryAuthorized(_) => Idle
    case Submitted(proof) => Settled(proof)
  }

  /** The first record with the given id, or `|h|`. */
  function Position<P>(h: Attempts<P>, id: Uuid): (i: nat)
    ensures i <= |h|
    ensures i < |h| ==> h[i].attempt.id == id
    ensures forall k | 0 <= k < i :: h[k].attempt.id != id
  {
    if |h| == 0 then 0
    else if h[0].attempt.id == id then 0
    else 1 + Position(h[1..], id)
  }

  predicate Unfinished<P>(record: AttemptRecord<P>) {
    record.finishedAt.None? && record.outcome.None?
  }

  function Started<P>(attempt: RemoteAttempt): AttemptRecord<P> {
    AttemptRecord(attempt, None, None)
  }

  function Finished<P>(record: AttemptRecord<P>, at: Timestamp, outcome: AttemptOutcome<P>): AttemptRecord<P> {
    AttemptRecord(record.attempt, Some(at), Some(outcome))
  }

  /** The attempts with the record of `id` finished. */
  function FinishAttempt<P>(h: Attempts<P>, id: Uuid, at: Timestamp, outcome: AttemptOutcome<P>): (h': Attempts<P>)
    requires Position(h, id) < |h|
  {
    h[Position(h, id) := Finished(h[Position(h, id)], at, outcome)]
  }

  const INTERRUPTED := Text("operator resolved an interrupted attempt")

  /** As `FinishAttempt` with an ambiguous outcome, but a finished record keeps its outcome. */
  function FinishIfOpen<P>(h: Attempts<P>, id: Uuid, at: Timestamp): Attempts<P>
    requires Position(h, id) < |h|
  {
    if h[Position(h, id)].outcome.None? then FinishAttempt(h, id, at, AmbiguousOutcome(INTERRUPTED)) else h
  }

  /** The number of attempts that ended in a scheduled retry. */
  function RetryCount<P>(h: Attempts<P>): (n: nat)
    ensures n <= |h|
  {
    if |h| == 0 then 0
    else RetryCount(h[..|h| - 1])
         + if h[|h| - 1].outcome.Some? && h[|h| - 1].outcome.value.RetryScheduled? then 1 else 0
  }

  // ----- Rules -----

  ghost predicate ResolvedNotDone<P>(rs: Resolutions<P>, id: Uuid) {
    exists j :: 0 <= j < |rs| && rs[j].attemptId == Some(id) && rs[j].decision.ConfirmedNotDone?
  }

  ghost predicate ResolvedDone<P>(rs: Resolutions<P>, id: Uuid, proof: P) {
    exists j :: 0 <= j < |rs| && rs[j].attemptId == Some(id) && rs[j].decision == ConfirmedDone(proof)
  }

  /** It is known that this attempt left nothing behind at the remote side. */
  ghost predicate Cleared<P>(record: AttemptRecord<P>, rs: Resolutions<P>) {
    || (record.outcome.Some? && record.outcome.value.RetryScheduled?)
    || ResolvedNotDone(rs, record.attempt.id)
  }

  ghost predicate IsConfirmed<P>(record: AttemptRecord<P>) {
    record.outcome.Some? && record.outcome.value.Confirmed?
  }

  /** The attempt succeeded, by its own outcome or by the operator's word. */
  ghost predicate ConfirmedAs<P>(record: AttemptRecord<P>, rs: Resolutions<P>, proof: P) {
    record.outcome == Some(Confirmed(proof)) || ResolvedDone(rs, record.attempt.id, proof)
  }

  ghost predicate DistinctIds<P>(h: Attempts<P>) {
    forall i, j | 0 <= i < j < |h| :: h[i].attempt.id != h[j].attempt.id
  }

  /** An operator only ever resolves a recorded attempt that ended blocked or ambiguous. */
  ghost predicate ResolutionGrounded<P>(h: Attempts<P>, r: OperatorResolution<P>) {
    r.attemptId.Some? && Position(h, r.attemptId.value) < |h| &&
    var record := h[Position(h, r.attemptId.value)];
    record.outcome.Some? && (record.outcome.value.BlockedOutcome? || record.outcome.value.AmbiguousOutcome?)
  }

  ghost predicate LastIs<P>(h: Attempts<P>, attempt: RemoteAttempt) {
    |h| > 0 && h[|h| - 1].attempt == attempt
  }

  ghost predicate PhaseMatches<P>(phase: Phase<P>, h: Attempts<P>, rs: Resolutions<P>) {
    match phase
    case Idle => |h| > 0 ==> Cleared(h[|h| - 1], rs)
    case InFlight(attempt) => LastIs(h, attempt) && Unfinished(h[|h| - 1])
    case Halted(id) =>
      |h| > 0 && h[|h| - 1].attempt.id == id && h[|h| - 1].outcome.Some? && h[|h| - 1].outcome.value.BlockedOutcome?
    case Unknown(attempt) =>
      LastIs(h, attempt) && h[|h| - 1].outcome.Some? && h[|h| - 1].outcome.value.AmbiguousOutcome?
    case Settled(proof) => |h| > 0 && ConfirmedAs(h[|h| - 1], rs, proof)
    case Withdrawn => true
  }

  /** The ledger invariant: it is what makes every retry a safe one. */
  ghost predicate HistoryOk<P>(phase: Phase<P>, h: Attempts<P>, rs: Resolutions<P>) {
    && DistinctIds(h)
    && (forall i | 0 <= i < |h| :: h[i].finishedAt.Some? <==> h[i].outcome.Some?)
    && (forall i | 0 <= i < |h| - 1 :: Cleared(h[i], rs))
    && (forall i | 0 <= i < |h| :: h[i].outcome.None? ==> i == |h| - 1 && phase == InFlight(h[i].attempt))
    && (forall j | 0 <= j < |rs| :: ResolutionGrounded(h, rs[j]))
    && (forall i | 0 <= i < |h| && IsConfirmed(h[i]) :: i == |h| - 1 && phase == Settled(h[i].outcome.value.proof))
    && (forall j | 0 <= j < |rs| && rs[j].decision.ConfirmedDone? ::
          Position(h, rs[j].attemptId.value) == |h| - 1 && phase == Settled(rs[j].decision.proof))
    && PhaseMatches(phase, h, rs)
  }

  // ----- The ledger only grows -----

  ghost predicate RecordGrows<P>(before: AttemptRecord<P>, after: AttemptRecord<P>) {
    after.attempt == before.attempt && (before.outcome.Some? ==> after == before)
  }

  /** Attempts and resolutions are only appended, and a finished attempt is never rewritten. */
  ghost predicate HistoryGrows<P>(h: Attempts<P>, rs: Resolutions<P>, h': Attempts<P>, rs': Resolutions<P>) {
    && |h| <= |h'|
    && rs <= rs'
    && forall i | 0 <= i < |h| :: RecordGrows(h[i], h'[i])
  }

  // ----- Steps keep the ledger -----

  lemma {:induction false} PositionOfDistinct<P>(h: Attempts<P>, i: nat)
    requires DistinctIds(h) && i < |h|
    ensures Position(h, h[i].attempt.id) == i
  {
    assert Position(h, h[i].attempt.id) <= i;
  }

  lemma {:induction false} PositionStable<P>(h: Attempts<P>, h': Attempts<P>, id: Uuid)
    requires |h| <= |h'|
    requires forall i | 0 <= i < |h| :: h'[i].attempt == h[i].attempt
    requires Position(h, id) < |h|
    ensures Position(h', id) == Position(h, id)
  {
    var p, p' := Position(h, id), Position(h', id);
    assert h'[p].attempt.id == id;
    assert p' <= p;
    assert h[p'].attempt.id == h'[p'].attempt.id;
  }

  lemma {:induction false} BeginKeeps<P>(h: Attempts<P>, rs: Resolutions<P>, attempt: RemoteAttempt)
    requires HistoryOk(Idle, h, rs)
    requires Position(h, attempt.id) == |h|
    ensures HistoryOk(InFlight(attempt), h + [Started(attempt)], rs)
    ensures HistoryGrows(h, rs, h + [Started(attempt)], rs)
  {
    var h' := h + [Started(attempt)];
    forall j | 0 <= j < |rs| ensures ResolutionGrounded(h', rs[j]) {
      assert ResolutionGrounded(h, rs[j]);
      PositionStable(h, h', rs[j].attemptId.value);
    }
    forall j | 0 <= j < |rs| ensures !rs[j].decision.ConfirmedDone? {
      assert ResolutionGrounded(h, rs[j]);
    }
    forall i | 0 <= i < |h'| - 1 ensures Cleared(h'[i], rs) {
      assert h'[i] == h[i];
    }
  }

  function PhaseAfter<P>(attempt: RemoteAttempt, outcome: AttemptOutcome<P>): Phase<P> {
    match outcome
    case Confirmed(proof) => Settled(proof)
    case RetryScheduled(_) => Idle
    case BlockedOutcome(_) => Halted(attempt.id)
    case AmbiguousOutcome(_) => Unknown(attempt)
  }

  /** No resolution names an attempt that is still in flight. */
  lemma {:induction false} InFlightUnresolved<P>(attempt: RemoteAttempt, h: Attempts<P>, rs: Resolutions<P>)
    requires HistoryOk(InFlight(attempt), h, rs)
    ensures Position(h, attempt.id) == |h| - 1
    ensures forall j | 0 <= j < |rs| :: rs[j].attemptId != Some(attempt.id)
  {
    PositionOfDistinct(h, |h| - 1);
    forall j | 0 <= j < |rs| ensures rs[j].attemptId != Some(attempt.id) {
      assert ResolutionGrounded(h, rs[j]);
    }
  }

  lemma {:induction false} FinishKeeps<P>(attempt: RemoteAttempt, h: Attempts<P>, rs: Resolutions<P>, at: Timestamp,
      outcome: AttemptOutcome<P>)
    requires HistoryOk(InFlight(attempt), h, rs)
    ensures Position(h, attempt.id) == |h| - 1 && Unfinished(h[|h| - 1])
    ensures HistoryOk(PhaseAfter(attempt, outcome), FinishAttempt(h, attempt.id, at, outcome), rs)
    ensures HistoryGrows(h, rs, FinishAttempt(h, attempt.id, at, outcome), rs)
  {
    InFlightUnresolved(attempt, h, rs);
    var h' := FinishAttempt(h, attempt.id, at, outcome);
    var phase := PhaseAfter(attempt, outcome);
    forall j | 0 <= j < |rs| ensures ResolutionGrounded(h', rs[j]) {
      assert ResolutionGrounded(h, rs[j]);
      PositionStable(h, h', rs[j].attemptId.value);
    }
    forall i | 0 <= i < |h'| - 1 ensures Cleared(h'[i], rs) {
      assert h'[i] == h[i];
    }
  }

  /** The id an operator resolution refers to. */
  ghost predicate Concerns<P>(phase: Phase<P>, id: Uuid) {
    || (phase.InFlight? && phase.attempt.id == id)
    || (phase.Halted? && phase.id == id)
    || (phase.Unknown? && phase.attempt.id == id)
  }

  function Resolve<P>(rs: Resolutions<P>, id: Uuid, at: Timestamp, decision: OperatorDecision<P>,
      note: Option<string>): Resolutions<P> {
    rs + [OperatorResolution(Some(id), at, decision, note)]
  }

  lemma {:induction false} ResolveKeeps<P>(phase: Phase<P>, h: Attempts<P>, rs: Resolutions<P>, id: Uuid, at: Timestamp,
                                           decision: OperatorDecision<P>, note: Option<string>, phase': Phase<P>)
    requires HistoryOk(phase, h, rs) && Concerns(phase, id)
    requires match decision
             case ConfirmedNotDone => phase'.Idle? || phase'.Withdrawn?
             case ConfirmedDone(proof) => phase' == Settled(proof)
    ensures Position(h, id) == |h| - 1
    ensures HistoryOk(phase', FinishIfOpen(h, id, at), Resolve(rs, id, at, decision, note))
    ensures HistoryGrows(h, rs, FinishIfOpen(h, id, at), Resolve(rs, id, at, decision, note))
  {
    PositionOfDistinct(h, |h| - 1);
    if phase.InFlight? {
      FinishKeeps(phase.attempt, h, rs, at, AmbiguousOutcome(INTERRUPTED));
      var h' := FinishIfOpen(h, id, at);
      ResolveFinishedKeeps(Unknown(phase.attempt), h', rs, id, at, decision, note, phase');
    } else {
      ResolveFinishedKeeps(phase, h, rs, id, at, decision, note, phase');
    }
  }

  lemma {:induction false} ResolveFinishedKeeps<P>(phase: Phase<P>, h: Attempts<P>, rs: Resolutions<P>, id: Uuid,
      at: Timestamp,
                                                   decision: OperatorDecision<P>, note: Option<string>,
                                                       phase': Phase<P>)
    requires HistoryOk(phase, h, rs) && Concerns(phase, id) && !phase.InFlight?
    requires match decision
             case ConfirmedNotDone => phase'.Idle? || phase'.Withdrawn?
             case ConfirmedDone(proof) => phase' == Settled(proof)
    ensures Position(h, id) == |h| - 1
    ensures HistoryOk(phase', h, Resolve(rs, id, at, decision, note))
  {
    PositionOfDistinct(h, |h| - 1);
    var rs' := Resolve(rs, id, at, decision, note);
    assert rs'[|rs|].attemptId == Some(id);
    forall i | 0 <= i < |h| - 1 ensures Cleared(h[i], rs') {
      ClearedStays(h[i], rs, rs');
    }
    forall j | 0 <= j < |rs'| ensures ResolutionGrounded(h, rs'[j]) {
      if j < |rs| {
        assert ResolutionGrounded(h, rs[j]);
      }
    }
    if decision.ConfirmedDone? {
      assert ResolvedDone(rs', id, decision.proof);
    } else {
      assert ResolvedNotDone(rs', id);
    }
  }

  lemma {:induction false} ClearedStays<P>(record: AttemptRecord<P>, rs: Resolutions<P>, rs': Resolutions<P>)
    requires rs <= rs' && Cleared(record, rs)
    ensures Cleared(record, rs')
  {
    if ResolvedNotDone(rs, record.attempt.id) {
      var j :| 0 <= j < |rs| && rs[j].attemptId == Some(record.attempt.id) && rs[j].decision.ConfirmedNotDone?;
      assert rs'[j] == rs[j];
    }
  }

  lemma {:induction false} WithdrawKeeps<P>(phase: Phase<P>, h: Attempts<P>, rs: Resolutions<P>)
    requires HistoryOk(phase, h, rs) && (phase.Idle? || phase.Halted?)
    ensures HistoryOk(Withdrawn, h, rs)
  {
  }

  lemma {:induction false} EmptyHistory<P>()
    ensures HistoryOk<P>(Idle, [], []) && HistoryOk<P>(Withdrawn, [], [])
  {
  }

  lemma {:induction false} GrowsTransitive<P>(h0: Attempts<P>, rs0: Resolutions<P>, h1: Attempts<P>,
      rs1: Resolutions<P>, h2: Attempts<P>, rs2: Resolutions<P>)
    requires HistoryGrows(h0, rs0, h1, rs1) && HistoryGrows(h1, rs1, h2, rs2)
    ensures HistoryGrows(h0, rs0, h2, rs2)
  {
    forall i | 0 <= i < |h0| ensures RecordGrows(h0[i], h2[i]) {
      assert RecordGrows(h0[i], h1[i]) && RecordGrows(h1[i], h2[i]);
    }
  }
}
