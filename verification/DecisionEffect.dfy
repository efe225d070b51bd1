/**
  A claimed human decision and its one effect on the run's ledger, worked on by any number of workers in any number of
  processes. Each step is one journal call, one ledger call, or taking or giving up the decision-effect lease; any worker
  may stop at any step, by an error or a crash, and a worker that holds the lease then gives it up.
 */
module DecisionEffect {
  import opened Results
  import opened Journal
  import opened JournalTheorems
  import opened JournalOperations

  /** The decision: its run, its operation, and the identity its event has on the ledger. */
  datatype Decision = Decision(codec: Codec, run: string, id: string, event: string)

  /**
    Where a worker is. `creator` is set for the worker whose own call appended the claim; only that one may apply the
    effect. `attempted` says whether the ledger was asked to append, `seen` whether the event was found on it.
   */
  datatype Worker =
    | Away
    | Validating
    | Claiming
    | Waiting(creator: bool)
    | Entering(creator: bool)
    | Preparing
    | Recording
    | Resuming
    | Marking(attempted: bool)
    | GivingUp
    | Reading
    | Requiring
    | Observing
    | Confirming(seen: bool)
    | Reconciling(seen: bool)

  /** `attempts` and `resumes` count the asks of the ledger to append the event, and the runs of the resume hook. */
  datatype System = System(journal: State, ledger: seq<string>, workers: seq<Worker>, holder: Option<nat>,
                           attempts: nat, resumes: nat)

  function Op(k: Decision, s: State): Operation
    requires k.id in s.operations
  {
    s.operations[k.id]
  }

  predicate UnderLease(w: Worker) {
    !w.Away? && !w.Validating? && !w.Claiming? && !w.Waiting?
  }

  /** The right to apply the effect. */
  predicate MayApply(w: Worker) {
    (w.Waiting? && w.creator) || (w.Entering? && w.creator)
  }

  // ----- one journal call -----

  /** A call that answers `reply` leaves the journal as it was or, where it has a record to append, with that record. */
  predicate Journals<T>(c: Codec, before: State, after: State, reply: Reply<T>) {
    after == before ||
    (reply.Fresh? && Admits(c, before, reply.body)
     && after == ApplyDecoded(c, before, reply.body).value.(sequence := before.sequence + 1, total := before.total + 1))
  }

  /** The caller was told that the record is there. */
  predicate Told<T>(before: State, after: State, reply: Reply<T>) {
    reply.Existing? || (reply.Fresh? && after != before)
  }

  function ClaimReply(k: Decision, s: State, now: string): Reply<Claim> {
    CreateClaim(s, k.run, k.id, "", k.event, now)
  }

  function OutcomeReply(k: Decision, s: State, status: Status, reason: string, now: string): Reply<Outcome> {
    var events := if status == Applied || status == ReconciledApplied then [k.event] else [];
    AppendOutcome(s, k.run, k.id, status, events, reason, now)
  }

  // ----- steps -----

  /** What a worker's step does to the journal and the ledger, and where it goes on if nothing stops it. */
  predicate Acts(k: Decision, s: System, t: System, at: Worker, next: Worker, now: string, reason: string)
    requires k.id in s.journal.operations
  {
    var op := Op(k, s.journal);
    match at
    case Away =>
      t.journal == s.journal && Quiet(s, t)
      && next == if Terminal(op.Status()) then Away else if op.claim.Some? then Waiting(false) else Validating
    case Validating =>
      Quiet(s, t)
      && if next == Claiming then t.journal == s.journal
         else next == Away && Journals(k.codec, s.journal, t.journal, OutcomeReply(k, s.journal, Rejected, reason, now))
    case Claiming =>
      Quiet(s, t)
      && var reply := ClaimReply(k, s.journal, now);
           Journals(k.codec, s.journal, t.journal, reply)
           && next == if reply.Existing? then Waiting(false) else if Told(s.journal, t.journal, reply) then Waiting(true) else Away
    case Waiting(creator) =>
      t.journal == s.journal && Quiet(s, t) && s.holder == None && next == Entering(creator)
    case Entering(creator) =>
      t.journal == s.journal && Quiet(s, t)
      && next == if Terminal(op.Status()) then Away
                 else if creator && op.Status() == Claimed then Preparing else Reading
    case Preparing =>
      t.journal == s.journal && t.resumes == s.resumes
      && if next == Marking(false) then t.ledger == s.ledger && t.attempts == s.attempts
         else
           && t.attempts == s.attempts + 1
           && (t.ledger == s.ledger || (k.event !in s.ledger && t.ledger == s.ledger + [k.event]))
           && (next == Marking(true) || (next == Recording && k.event in t.ledger))
    case Recording =>
      Quiet(s, t)
      && var reply := OutcomeReply(k, s.journal, Applied, "", now);
           Journals(k.codec, s.journal, t.journal, reply)
           && next == if Told(s.journal, t.journal, reply) then Resuming else Away
    case Resuming =>
      t.journal == s.journal && t.ledger == s.ledger && t.attempts == s.attempts && next == Away
      && (t.resumes == s.resumes + 1 || t.resumes == s.resumes)
    case Marking(attempted) =>
      Quiet(s, t)
      && var reply := OutcomeReply(k, s.journal, ReconciliationRequired, "decision_effect_ambiguous", now);
           Journals(k.codec, s.journal, t.journal, reply)
           && next == if !Told(s.journal, t.journal, reply) then Away else if attempted then Reading else GivingUp
    case GivingUp =>
      Quiet(s, t) && next == Away
      && Journals(k.codec, s.journal, t.journal, OutcomeReply(k, s.journal, ReconciledNotApplied, "decision_precondition_advanced", now))
    case Reading =>
      t.journal == s.journal && Quiet(s, t)
      && next == if op.Status() == Claimed then Requiring else if op.Status() == ReconciliationRequired then Observing else Away
    case Requiring =>
      Quiet(s, t)
      && var reply := OutcomeReply(k, s.journal, ReconciliationRequired, "decision_claim_recovery", now);
           Journals(k.codec, s.journal, t.journal, reply)
           && next == if Told(s.journal, t.journal, reply) then Observing else Away
    case Observing =>
      t.journal == s.journal && Quiet(s, t) && next == Confirming(k.event in s.ledger)
    case Confirming(seen) =>
      t.journal == s.journal && Quiet(s, t)
      && next == if op.Status() == ReconciliationRequired then Reconciling(seen) else Away
    case Reconciling(seen) =>
      Quiet(s, t) && next == Away
      && Journals(k.codec, s.journal, t.journal,
                  OutcomeReply(k, s.journal, if seen then ReconciledApplied else ReconciledNotApplied, reason, now))
  }

  /** No call to the ledger or the resume hook. */
  predicate Quiet(s: System, t: System) {
    t.ledger == s.ledger && t.attempts == s.attempts && t.resumes == s.resumes
  }

  function HolderWith(holder: Option<nat>, w: nat, at: Worker): Option<nat> {
    if UnderLease(at) then Some(w) else if holder == Some(w) then None else holder
  }

  /** The worker goes to `next`; the lease follows. */
  predicate Goes(s: System, t: System, w: nat, next: Worker)
    requires w < |s.workers|
  {
    t.workers == s.workers[w := next] && t.holder == HolderWith(s.holder, w, next)
  }

  /** Another operation's records, and other events on the ledger, come as they may. */
  ghost predicate Elsewhere(k: Decision, s: System, t: System)
    requires k.id in s.journal.operations
  {
    && t.workers == s.workers && t.holder == s.holder && t.attempts == s.attempts && t.resumes == s.resumes
    && k.id in t.journal.operations && Op(k, t.journal) == Op(k, s.journal)
    && exists others :: t.ledger == s.ledger + others && k.event !in others
  }

  /** One worker acts and goes on, or acts and is stopped there; or it stops; or something else happens. */
  ghost predicate Next(k: Decision, s: System, t: System) {
    && k.id in s.journal.operations
    && (|| Elsewhere(k, s, t)
        || exists w, next, now, reason :: Moves(k, s, t, w, next, now, reason))
  }

  predicate Moves(k: Decision, s: System, t: System, w: nat, next: Worker, now: string, reason: string)
    requires k.id in s.journal.operations
  {
    && w < |s.workers|
    && (|| (Acts(k, s, t, s.workers[w], next, now, reason) && (Goes(s, t, w, next) || Goes(s, t, w, Away)))
        || (t.journal == s.journal && Quiet(s, t) && Goes(s, t, w, Away)))
  }

  // ----- the invariant -----

  predicate HasEvent(k: Decision, s: System) { k.event in s.ledger }

  /** What holds of the operation and the ledger while a worker is under the lease. */
  predicate WorkerOk(k: Decision, s: System, at: Worker)
    requires k.id in s.journal.operations
  {
    var status := Op(k, s.journal).Status();
    match at
    case Preparing => status == Claimed && s.attempts == 0
    case Recording => status == Claimed && HasEvent(k, s)
    case Resuming => status == Applied && s.resumes == 0
    case Marking(attempted) => status == Claimed && (!attempted ==> s.attempts == 0)
    case GivingUp => status == ReconciliationRequired && s.attempts == 0
    case Requiring => status == Claimed
    case Observing => status == ReconciliationRequired
    case Confirming(seen) => status == ReconciliationRequired && seen == HasEvent(k, s)
    case Reconciling(seen) => status == ReconciliationRequired && seen == HasEvent(k, s)
    case _ => true
  }

  /** The operation and the ledger agree. */
  predicate Agreed(k: Decision, s: System)
    requires k.id in s.journal.operations
  {
    var op := Op(k, s.journal);
    && ValidProgress(op) && op.receipt.run == k.run && op.receipt.ownerLease == ""
    && (op.claim.Some? ==> op.claim.value.event == k.event && op.claim.value.ownerLease == ""
                           && op.claim.value.transition == op.receipt.transition)
    && s.attempts <= 1 && (HasEvent(k, s) ==> s.attempts == 1)
    && (op.claim == None ==> s.attempts == 0)
    && (op.Status() == Applied || op.Status() == ReconciledApplied ==> HasEvent(k, s))
    && (op.Status() == Rejected || op.Status() == ReconciledNotApplied ==> !HasEvent(k, s))
    && s.resumes <= 1 && (s.resumes == 1 ==> op.Status() == Applied)
  }

  ghost predicate Invariant(k: Decision, s: System) {
    && k.id in s.journal.operations && Agreed(k, s)
    && (forall w :: 0 <= w < |s.workers| ==> (UnderLease(s.workers[w]) <==> s.holder == Some(w)))
    && (forall w :: 0 <= w < |s.workers| ==> WorkerOk(k, s, s.workers[w]))
    && (forall w :: 0 <= w < |s.workers| && MayApply(s.workers[w]) ==> s.attempts == 0 && Op(k, s.journal).claim.Some?)
    && (forall v, w :: 0 <= v < w < |s.workers| ==> !(Mine(s.workers[v]) && Mine(s.workers[w])))
    && (forall w :: 0 <= w < |s.workers| && Mine(s.workers[w]) ==> Op(k, s.journal).claim.Some?)
  }

  /** The worker that created the claim, until it has applied the effect or cannot any more. */
  predicate Mine(w: Worker) {
    MayApply(w) || w.Preparing?
  }

  // ----- what a journal call does to the operation -----

  lemma ClaimEffect(k: Decision, s: State, t: State, now: string)
    requires k.id in s.operations && ValidProgress(Op(k, s)) && Op(k, s).receipt.ownerLease == ""
    requires Journals(k.codec, s, t, ClaimReply(k, s, now))
    ensures k.id in t.operations
    ensures t == s || (Op(k, s).Status() == Received && Op(k, s).claim == None
                       && Op(k, t) == Op(k, s).(claim := Some(Claim(k.id, Op(k, s).receipt.transition, "", k.event, now)))
                       && ValidProgress(Op(k, t)) && Op(k, t).Status() == Claimed)
    ensures ClaimReply(k, s, now).Existing? ==> t == s && Op(k, s).claim.Some?
  {
    ProgressHistory(Op(k, s).claim.Some?, Op(k, s).outcomes);
  }

  lemma OutcomeEffect(k: Decision, s: State, t: State, status: Status, reason: string, now: string)
    requires k.id in s.operations && ValidProgress(Op(k, s))
    requires Journals(k.codec, s, t, OutcomeReply(k, s, status, reason, now))
    ensures k.id in t.operations
    ensures t == s || (Step(Op(k, s).Status(), status) && Op(k, t).Status() == status && ValidProgress(Op(k, t))
                       && Op(k, t).claim == Op(k, s).claim && Op(k, t).receipt == Op(k, s).receipt)
    ensures Told(s, t, OutcomeReply(k, s, status, reason, now)) ==> Op(k, t).Status() == status
  {
    var op := Op(k, s);
    if t != s {
      var outcome := OutcomeAdded(k, s, t, status, reason, now);
      LastStep(op.claim.Some?, op.outcomes, outcome);
    }
  }

  lemma OutcomeAdded(k: Decision, s: State, t: State, status: Status, reason: string, now: string) returns (outcome: Outcome)
    requires k.id in s.operations && t != s && Journals(k.codec, s, t, OutcomeReply(k, s, status, reason, now))
    ensures k.id in t.operations && outcome.status == status
    ensures Op(k, t) == Op(k, s).(outcomes := Op(k, s).outcomes + [outcome]) && ValidProgress(Op(k, t))
    ensures OutcomeReply(k, s, status, reason, now).Fresh?
  {
    outcome := OutcomeReply(k, s, status, reason, now).body.outcome;
  }

  // ----- every step keeps the invariant -----

  /** The ledger bears out this outcome. */
  predicate BornOut(k: Decision, s: System, status: Status) {
    && (status == Applied || status == ReconciledApplied ==> HasEvent(k, s))
    && (status == Rejected || status == ReconciledNotApplied ==> !HasEvent(k, s))
  }

  /** Appending an outcome the ledger bears out keeps operation and ledger agreed. */
  lemma OutcomeAgreed(k: Decision, s: System, t: System, status: Status, reason: string, now: string)
    requires k.id in s.journal.operations && Agreed(k, s) && Quiet(s, t)
    requires Journals(k.codec, s.journal, t.journal, OutcomeReply(k, s.journal, status, reason, now))
    requires Step(Op(k, s.journal).Status(), status) && Op(k, s.journal).Status() != Received ==> BornOut(k, s, status)
    ensures k.id in t.journal.operations && Agreed(k, t) && Op(k, t.journal).claim == Op(k, s.journal).claim
    ensures Told(s.journal, t.journal, OutcomeReply(k, s.journal, status, reason, now)) ==> Op(k, t.journal).Status() == status
    ensures t.journal != s.journal ==> Step(Op(k, s.journal).Status(), status)
  {
    ProgressHistory(Op(k, s.journal).claim.Some?, Op(k, s.journal).outcomes);
    OutcomeEffect(k, s.journal, t.journal, status, reason, now);
  }

  lemma ClaimAgreed(k: Decision, s: System, t: System, now: string)
    requires k.id in s.journal.operations && Agreed(k, s) && Quiet(s, t)
    requires Journals(k.codec, s.journal, t.journal, ClaimReply(k, s.journal, now))
    ensures k.id in t.journal.operations && Agreed(k, t)
    ensures Op(k, s.journal).claim.Some? ==> t.journal == s.journal
    ensures t.journal != s.journal ==> Op(k, s.journal).claim == None && Op(k, t.journal).claim.Some? && t.attempts == 0
    ensures ClaimReply(k, s.journal, now).Existing? ==> Op(k, s.journal).claim.Some? && t.journal == s.journal
  {
    ClaimEffect(k, s.journal, t.journal, now);
  }

  /** What a step leaves behind for the worker itself and for its right to apply. */
  ghost predicate Leaves(k: Decision, s: System, t: System, at: Worker, next: Worker)
    requires k.id in s.journal.operations && k.id in t.journal.operations
  {
    && Agreed(k, t) && WorkerOk(k, t, next)
    && (Op(k, s.journal).claim.Some? ==> Op(k, t.journal).claim.Some?)
    && (Mine(next) ==> t.attempts == 0 && Op(k, t.journal).claim.Some? && (Mine(at) || Op(k, s.journal).claim == None))
    && (t.attempts != s.attempts ==> Mine(at))
  }

  lemma ValidatingStep(k: Decision, s: System, t: System, at: Worker, next: Worker, now: string, reason: string)
    requires k.id in s.journal.operations && Agreed(k, s) && WorkerOk(k, s, at) && Acts(k, s, t, at, next, now, reason)
    requires at.Validating?
    ensures k.id in t.journal.operations && Leaves(k, s, t, at, next)
  {
    if next != Claiming { OutcomeAgreed(k, s, t, Rejected, reason, now); }
  }

  lemma ClaimingStep(k: Decision, s: System, t: System, at: Worker, next: Worker, now: string, reason: string)
    requires k.id in s.journal.operations && Agreed(k, s) && WorkerOk(k, s, at) && Acts(k, s, t, at, next, now, reason)
    requires at.Claiming?
    ensures k.id in t.journal.operations && Leaves(k, s, t, at, next)
  {
    ClaimAgreed(k, s, t, now);
  }

  lemma RecordingStep(k: Decision, s: System, t: System, at: Worker, next: Worker, now: string, reason: string)
    requires k.id in s.journal.operations && Agreed(k, s) && WorkerOk(k, s, at) && Acts(k, s, t, at, next, now, reason)
    requires at.Recording?
    ensures k.id in t.journal.operations && Leaves(k, s, t, at, next)
  {
    OutcomeAgreed(k, s, t, Applied, "", now);
  }

  lemma MarkingStep(k: Decision, s: System, t: System, at: Worker, next: Worker, now: string, reason: string)
    requires k.id in s.journal.operations && Agreed(k, s) && WorkerOk(k, s, at) && Acts(k, s, t, at, next, now, reason)
    requires at.Marking?
    ensures k.id in t.journal.operations && Leaves(k, s, t, at, next)
  {
    OutcomeAgreed(k, s, t, ReconciliationRequired, "decision_effect_ambiguous", now);
  }

  lemma GivingUpStep(k: Decision, s: System, t: System, at: Worker, next: Worker, now: string, reason: string)
    requires k.id in s.journal.operations && Agreed(k, s) && WorkerOk(k, s, at) && Acts(k, s, t, at, next, now, reason)
    requires at.GivingUp?
    ensures k.id in t.journal.operations && Leaves(k, s, t, at, next)
  {
    OutcomeAgreed(k, s, t, ReconciledNotApplied, "decision_precondition_advanced", now);
  }

  lemma RequiringStep(k: Decision, s: System, t: System, at: Worker, next: Worker, now: string, reason: string)
    requires k.id in s.journal.operations && Agreed(k, s) && WorkerOk(k, s, at) && Acts(k, s, t, at, next, now, reason)
    requires at.Requiring?
    ensures k.id in t.journal.operations && Leaves(k, s, t, at, next)
  {
    OutcomeAgreed(k, s, t, ReconciliationRequired, "decision_claim_recovery", now);
  }

  lemma ReconcilingStep(k: Decision, s: System, t: System, at: Worker, next: Worker, now: string, reason: string)
    requires k.id in s.journal.operations && Agreed(k, s) && WorkerOk(k, s, at) && Acts(k, s, t, at, next, now, reason)
    requires at.Reconciling?
    ensures k.id in t.journal.operations && Leaves(k, s, t, at, next)
  {
    OutcomeAgreed(k, s, t, if at.seen then ReconciledApplied else ReconciledNotApplied, reason, now);
  }

  lemma PreparingStep(k: Decision, s: System, t: System, at: Worker, next: Worker, now: string, reason: string)
    requires k.id in s.journal.operations && Agreed(k, s) && WorkerOk(k, s, at) && Acts(k, s, t, at, next, now, reason)
    requires at.Preparing? && Op(k, s.journal).claim.Some?
    ensures k.id in t.journal.operations && Leaves(k, s, t, at, next)
  {
    assert k.event in s.ledger + [k.event];
  }

  lemma ReadOnlyStep(k: Decision, s: System, t: System, at: Worker, next: Worker, now: string, reason: string)
    requires k.id in s.journal.operations && Agreed(k, s) && WorkerOk(k, s, at) && Acts(k, s, t, at, next, now, reason)
    requires at.Away? || at.Waiting? || at.Entering? || at.Resuming? || at.Reading? || at.Observing? || at.Confirming?
    requires Mine(at) ==> s.attempts == 0 && Op(k, s.journal).claim.Some?
    ensures k.id in t.journal.operations && Leaves(k, s, t, at, next)
  {
    assert t.journal == s.journal;
  }

  lemma AnyStep(k: Decision, s: System, t: System, at: Worker, next: Worker, now: string, reason: string)
    requires k.id in s.journal.operations && Agreed(k, s) && WorkerOk(k, s, at) && Acts(k, s, t, at, next, now, reason)
    requires Mine(at) ==> s.attempts == 0 && Op(k, s.journal).claim.Some?
    ensures k.id in t.journal.operations && Leaves(k, s, t, at, next)
  {
    match at
    case Validating => ValidatingStep(k, s, t, at, next, now, reason);
    case Claiming => ClaimingStep(k, s, t, at, next, now, reason);
    case Recording => RecordingStep(k, s, t, at, next, now, reason);
    case Marking(_) => MarkingStep(k, s, t, at, next, now, reason);
    case GivingUp => GivingUpStep(k, s, t, at, next, now, reason);
    case Requiring => RequiringStep(k, s, t, at, next, now, reason);
    case Reconciling(_) => ReconcilingStep(k, s, t, at, next, now, reason);
    case Preparing => PreparingStep(k, s, t, at, next, now, reason);
    case _ => ReadOnlyStep(k, s, t, at, next, now, reason);
  }

  /** A worker without the lease changes nothing the holder relies on. */
  lemma HolderKept(k: Decision, s: System, t: System, at: Worker, next: Worker, now: string, reason: string, other: Worker)
    requires k.id in s.journal.operations && Agreed(k, s) && Acts(k, s, t, at, next, now, reason)
    requires !UnderLease(at) && WorkerOk(k, s, other)
    ensures k.id in t.journal.operations && WorkerOk(k, t, other)
  {
    match at
    case Validating =>
      if next != Claiming {
        OutcomeAgreed(k, s, t, Rejected, reason, now);
        ProgressHistory(Op(k, s.journal).claim.Some?, Op(k, s.journal).outcomes);
      }
    case Claiming =>
      ClaimAgreed(k, s, t, now);
      ProgressHistory(Op(k, s.journal).claim.Some?, Op(k, s.journal).outcomes);
    case _ =>
  }

  /** The workers as they are after one of them moved. */
  lemma WorkersKept(k: Decision, s: System, t: System, w: nat, next: Worker)
    requires Invariant(k, s) && w < |s.workers| && k.id in t.journal.operations && Leaves(k, s, t, s.workers[w], next)
    requires UnderLease(next) && !UnderLease(s.workers[w]) ==> s.holder == None
    requires forall v :: 0 <= v < |s.workers| && v != w ==> WorkerOk(k, t, s.workers[v])
    requires Goes(s, t, w, next)
    ensures Invariant(k, t)
  {
    forall v | 0 <= v < |t.workers| ensures UnderLease(t.workers[v]) <==> t.holder == Some(v) {
      if v != w { assert t.workers[v] == s.workers[v]; }
    }
    forall v | 0 <= v < |t.workers| && v != w && Mine(t.workers[v]) ensures t.attempts == 0 && Op(k, t.journal).claim.Some? && !Mine(next) {
      assert Mine(s.workers[v]);
      OneClaimant(k, s, v, w);
    }
  }

  lemma OneClaimant(k: Decision, s: System, v: nat, w: nat)
    requires Invariant(k, s) && v < |s.workers| && w < |s.workers| && v != w && Mine(s.workers[v])
    ensures !Mine(s.workers[w])
  {
    var low, high := if v < w then v else w, if v < w then w else v;
    assert !(Mine(s.workers[low]) && Mine(s.workers[high]));
  }

  /** A worker stops: whatever it did stays done. */
  lemma LeavesAway(k: Decision, s: System, t: System, at: Worker, next: Worker)
    requires k.id in s.journal.operations && k.id in t.journal.operations && Leaves(k, s, t, at, next)
    ensures Leaves(k, s, t, at, Away)
  {
  }

  lemma ActKeeps(k: Decision, s: System, t: System, w: nat, next: Worker, to: Worker, now: string, reason: string)
    requires Invariant(k, s) && w < |s.workers| && Acts(k, s, t, s.workers[w], next, now, reason)
    requires (to == next || to == Away) && Goes(s, t, w, to)
    ensures Invariant(k, t)
  {
    var at := s.workers[w];
    AnyStep(k, s, t, at, next, now, reason);
    forall v | 0 <= v < |s.workers| && v != w ensures WorkerOk(k, t, s.workers[v]) {
      if UnderLease(s.workers[v]) {
        HolderKept(k, s, t, at, next, now, reason, s.workers[v]);
      }
    }
    LeavesAway(k, s, t, at, next);
    WorkersKept(k, s, t, w, to);
  }

  lemma StopKeeps(k: Decision, s: System, t: System, w: nat)
    requires Invariant(k, s) && w < |s.workers| && t.journal == s.journal && Quiet(s, t) && Goes(s, t, w, Away)
    ensures Invariant(k, t)
  {
    assert Leaves(k, s, t, s.workers[w], Away);
    WorkersKept(k, s, t, w, Away);
  }

  lemma MoveKeeps(k: Decision, s: System, t: System, w: nat, next: Worker, now: string, reason: string)
    requires Invariant(k, s) && Moves(k, s, t, w, next, now, reason)
    ensures Invariant(k, t)
  {
    if Acts(k, s, t, s.workers[w], next, now, reason) && Goes(s, t, w, next) {
      ActKeeps(k, s, t, w, next, next, now, reason);
    } else if Acts(k, s, t, s.workers[w], next, now, reason) && Goes(s, t, w, Away) {
      ActKeeps(k, s, t, w, next, Away, now, reason);
    } else {
      StopKeeps(k, s, t, w);
    }
  }

  lemma ElsewhereKeeps(k: Decision, s: System, t: System)
    requires Invariant(k, s) && Elsewhere(k, s, t)
    ensures Invariant(k, t)
  {
    assert HasEvent(k, t) == HasEvent(k, s);
  }

  lemma NextKeeps(k: Decision, s: System, t: System)
    requires Invariant(k, s) && Next(k, s, t)
    ensures Invariant(k, t)
  {
    if Elsewhere(k, s, t) {
      ElsewhereKeeps(k, s, t);
    } else {
      var w, next, now, reason :| Moves(k, s, t, w, next, now, reason);
      MoveKeeps(k, s, t, w, next, now, reason);
    }
  }

  // ----- whole runs -----

  /** The decision was just received; no worker has started on it. */
  ghost predicate Initial(k: Decision, s: System) {
    && k.id in s.journal.operations
    && Op(k, s.journal).receipt.run == k.run && Op(k, s.journal).receipt.ownerLease == ""
    && Op(k, s.journal).claim == None && Op(k, s.journal).outcomes == []
    && !HasEvent(k, s) && s.attempts == 0 && s.resumes == 0 && s.holder == None
    && forall w :: 0 <= w < |s.workers| ==> s.workers[w] == Away
  }

  ghost predicate Run(k: Decision, run: seq<System>) {
    run != [] && Initial(k, run[0]) && forall i {:trigger Linked(k, run, i)} :: 0 < i < |run| ==> Linked(k, run, i)
  }

  ghost predicate Linked(k: Decision, run: seq<System>, i: int)
    requires 0 < i < |run|
  {
    Next(k, run[i - 1], run[i])
  }

  lemma {:induction false} RunKeeps(k: Decision, run: seq<System>, i: nat)
    requires Run(k, run) && i < |run|
    ensures Invariant(k, run[i])
  {
    if i > 0 {
      RunKeeps(k, run, i - 1);
      assert Linked(k, run, i);
      NextKeeps(k, run[i - 1], run[i]);
    }
  }

  /** The ledger takes the event at most once. */
  lemma OnceKept(k: Decision, s: System, t: System)
    requires Next(k, s, t) && multiset(s.ledger)[k.event] <= 1
    ensures multiset(t.ledger)[k.event] <= 1
  {
    if Elsewhere(k, s, t) {
      var others :| t.ledger == s.ledger + others && k.event !in others;
      assert k.event !in multiset(others);
    } else {
      assert k.event !in s.ledger ==> multiset(s.ledger)[k.event] == 0;
      assert multiset(s.ledger + [k.event]) == multiset(s.ledger) + multiset{k.event};
    }
  }

  lemma {:induction false} Once(k: Decision, run: seq<System>, i: nat)
    requires Run(k, run) && i < |run|
    ensures multiset(run[i].ledger)[k.event] <= 1
  {
    if i > 0 {
      Once(k, run, i - 1);
      assert Linked(k, run, i);
      OnceKept(k, run[i - 1], run[i]);
    }
  }

  lemma SettledStays(k: Decision, s: System, t: System)
    requires Invariant(k, s) && Next(k, s, t) && Terminal(Op(k, s.journal).Status())
    ensures k.id in t.journal.operations && Op(k, t.journal) == Op(k, s.journal)
  {
    TerminalAbsorbs(s.journal, k.id);
  }

  ghost predicate SettledAs(k: Decision, s: System, op: Operation) {
    k.id in s.journal.operations && Op(k, s.journal) == op && Terminal(op.Status())
  }

  lemma SettledNext(k: Decision, run: seq<System>, j: nat, op: Operation)
    requires Run(k, run) && 0 < j < |run| && SettledAs(k, run[j - 1], op)
    ensures SettledAs(k, run[j], op)
  {
    RunKeeps(k, run, j - 1);
    assert Linked(k, run, j);
    SettledStays(k, run[j - 1], run[j]);
  }

  lemma {:induction false} SettledFrom(k: Decision, run: seq<System>, i: nat, j: nat, op: Operation)
    requires Run(k, run) && i <= j < |run| && SettledAs(k, run[i], op)
    ensures SettledAs(k, run[j], op)
  {
    if i < j {
      SettledFrom(k, run, i, j - 1, op);
      SettledNext(k, run, j, op);
    }
  }

  /**
    In every run: the ledger is asked to append the event at most once and holds it at most once; a claim recorded as applied
    has its event on the ledger; the resume hook runs at most once, and after the event.
   */
  lemma AppliedAtMostOnce(k: Decision, run: seq<System>, i: nat)
    requires Run(k, run) && i < |run|
    ensures var s := run[i];
            && k.id in s.journal.operations && s.attempts <= 1 && multiset(s.ledger)[k.event] <= 1
            && (Op(k, s.journal).Status() in {Applied, ReconciledApplied} ==> HasEvent(k, s))
            && s.resumes <= 1 && (s.resumes == 1 ==> HasEvent(k, s) && Op(k, s.journal).Status() == Applied)
  {
    RunKeeps(k, run, i);
    Once(k, run, i);
  }

  /** A decision recorded as rejected or not applied has no event on the ledger, then or ever after. */
  lemma NotAppliedForGood(k: Decision, run: seq<System>, i: nat, j: nat)
    requires Run(k, run) && i <= j < |run| && k.id in run[i].journal.operations
    requires Op(k, run[i].journal).Status() in {Rejected, ReconciledNotApplied}
    ensures !HasEvent(k, run[j]) && k.id in run[j].journal.operations
            && Op(k, run[j].journal).Status() == Op(k, run[i].journal).Status()
  {
    SettledFrom(k, run, i, j, Op(k, run[i].journal));
    RunKeeps(k, run, j);
  }
}
