/**
  Cancel delivery under an owner lease: receipts are admitted while the lease is active, the closing owner freezes the
  journal's sequence as a watermark, delivers what lies at or below it, drains and retires. Each step is one locked call on
  the journal, the catalog or the ledger; any process may stop at any step.
 */
module CancelWatermark {
  import opened Results
  import Journal

  type Status = Journal.Status

  datatype Lease = Active | Closing(through: nat) | Retired(through: nat)

  /** A cancel receipt on the journal: its record's sequence, the generation whose lease admitted it, and its status. */
  datatype Cancel = Cancel(sequence: nat, generation: nat, status: Status)

  /**
    The watcher of one owner generation. A claim it has just created is `Claimed`; once the lease allowed the delivery it is
    `Cleared`, and the event is appended some time after that. `begun` is the watermark it froze or found, `drained` that its
    loop has ended on an empty mailbox.
   */
  datatype Task = Resting | Claiming(id: string) | Cleared(id: string)
  datatype Watcher = Watcher(alive: bool, task: Task, begun: Option<nat>, drained: bool)

  /**
    `sequence` is the journal's last, `staged` the request identities issued under a lease whose receipt was cut off, by
    generation; `events` the operations whose cancel-request event is on the ledger.
   */
  datatype System = System(sequence: nat, cancels: map<string, Cancel>, staged: map<string, nat>, leases: seq<Lease>,
                           watchers: seq<Watcher>, events: set<string>)

  /** The lease lets this receipt be delivered. */
  predicate DeliveryEligible(lease: Lease, sequence: nat) {
    lease.Active? || (lease.Closing? && sequence <= lease.through)
  }

  /** The mailbox of a generation up to a watermark holds nothing that still needs its watcher. */
  predicate Drained(s: System, g: nat, through: nat) {
    forall id :: id in s.cancels && s.cancels[id].generation == g && s.cancels[id].sequence <= through ==>
      s.cancels[id].status != Journal.Received && s.cancels[id].status != Journal.Claimed
  }

  // ----- steps -----

  function Recorded(s: System): System { s.(sequence := s.sequence + 1) }

  function WithWatcher(s: System, g: nat, w: Watcher): System
    requires g < |s.watchers|
  {
    s.(watchers := s.watchers[g := w])
  }

  /** A receipt's record goes onto the journal, bound to its generation. */
  function Materialised(s: System, id: string, g: nat): System {
    Recorded(s).(cancels := s.cancels[id := Cancel(s.sequence + 1, g, Journal.Received)])
  }

  function Moved(s: System, id: string, status: Status): System
    requires id in s.cancels
  {
    Recorded(s).(cancels := s.cancels[id := s.cancels[id].(status := status)])
  }

  /** Freezing: an active lease takes the journal's sequence as its watermark, a closing one keeps the one it has. */
  function Frozen(s: System, g: nat): System
    requires g < |s.leases| == |s.watchers| && !s.leases[g].Retired?
  {
    var through := if s.leases[g].Active? then s.sequence else s.leases[g].through;
    WithWatcher(s.(leases := s.leases[g := Closing(through)]), g, s.watchers[g].(begun := Some(through)))
  }

  datatype Step =
    | OtherRecords(count: nat)
    | Admit(id: string)
    | CutOff(id: string)
    | Replay(id: string)
    | Outcome(id: string, status: Status)
    | Claim(g: nat, id: string, created: bool)
    | Clear(g: nat)
    | Append(g: nat, appended: bool)
    | Freeze(g: nat, told: bool)
    | Drain(g: nat)
    | Retire(g: nat)
    | Install
    | Stop(g: nat)

  predicate Live(s: System, g: nat) {
    g < |s.leases| == |s.watchers| && s.watchers[g].alive
  }

  predicate Fresh(s: System, id: string) {
    id !in s.cancels && id !in s.staged
  }

  predicate Enabled(s: System, step: Step) {
    match step
    case OtherRecords(_) => true
    case Admit(id) => Fresh(s, id) && s.leases != [] && s.leases[|s.leases| - 1].Active?
    case CutOff(id) => Fresh(s, id) && s.leases != [] && s.leases[|s.leases| - 1].Active?
    case Replay(id) => id in s.staged && id !in s.cancels
    case Outcome(id, status) => id in s.cancels && Journal.Step(s.cancels[id].status, status)
    case Claim(g, id, _) =>
      Live(s, g) && s.watchers[g].task.Resting? && !s.watchers[g].drained
      && id in s.cancels && s.cancels[id].generation == g && s.cancels[id].status == Journal.Received
    case Clear(g) => Live(s, g) && s.watchers[g].task.Claiming? && s.watchers[g].task.id in s.cancels
    case Append(g, _) => Live(s, g) && s.watchers[g].task.Cleared?
    case Freeze(g, _) => Live(s, g) && !s.leases[g].Retired?
    case Drain(g) =>
      Live(s, g) && s.watchers[g].task.Resting? && s.watchers[g].begun.Some? && Drained(s, g, s.watchers[g].begun.value)
    case Retire(g) =>
      Live(s, g) && s.watchers[g].drained && s.watchers[g].begun.Some? && s.leases[g] == Closing(s.watchers[g].begun.value)
    case Install => |s.leases| == |s.watchers| && (s.leases == [] || s.leases[|s.leases| - 1].Retired?)
    case Stop(g) => Live(s, g)
  }

  function Apply(s: System, step: Step): System
    requires Enabled(s, step)
  {
    match step
    case OtherRecords(count) => s.(sequence := s.sequence + count)
    case Admit(id) => Materialised(s, id, |s.leases| - 1)
    case CutOff(id) => s.(staged := s.staged[id := |s.leases| - 1])
    case Replay(id) => Materialised(s, id, s.staged[id])
    case Outcome(id, status) => Moved(s, id, status)
    case Claim(g, id, created) =>
      var claimed := Moved(s, id, Journal.Claimed);
      if created then WithWatcher(claimed, g, s.watchers[g].(task := Claiming(id))) else claimed
    case Clear(g) =>
      var w := s.watchers[g];
      var eligible := DeliveryEligible(s.leases[g], s.cancels[w.task.id].sequence);
      WithWatcher(s, g, w.(task := if eligible then Cleared(w.task.id) else Resting))
    case Append(g, appended) =>
      var w := s.watchers[g];
      WithWatcher(if appended then s.(events := s.events + {w.task.id}) else s, g, w.(task := Resting))
    case Freeze(g, told) =>
      if told then Frozen(s, g) else Frozen(s, g).(watchers := s.watchers)
    case Drain(g) => WithWatcher(s, g, s.watchers[g].(drained := true))
    case Retire(g) => s.(leases := s.leases[g := Retired(s.leases[g].through)])
    case Install => s.(leases := s.leases + [Active], watchers := s.watchers + [Watcher(true, Resting, None, false)])
    case Stop(g) => WithWatcher(s, g, s.watchers[g].(alive := false, task := Resting))
  }

  // ----- the invariant -----

  /** Nothing is delivered beyond this lease's watermark. */
  predicate Within(lease: Lease, sequence: nat) {
    lease.Active? || sequence <= lease.through
  }

  predicate CancelOk(s: System, id: string)
    requires id in s.cancels
  {
    1 <= s.cancels[id].sequence <= s.sequence && s.cancels[id].generation < |s.leases|
  }

  predicate EventOk(s: System, id: string) {
    id in s.cancels && CancelOk(s, id) && Within(s.leases[s.cancels[id].generation], s.cancels[id].sequence)
  }

  predicate TaskOk(s: System, g: nat, task: Task)
    requires g < |s.leases|
  {
    match task
    case Resting => true
    case Claiming(id) => id in s.cancels && s.cancels[id].generation == g
    case Cleared(id) => id in s.cancels && s.cancels[id].generation == g && Within(s.leases[g], s.cancels[id].sequence)
  }

  predicate WatcherOk(s: System, g: nat)
    requires g < |s.leases| == |s.watchers|
  {
    var w := s.watchers[g];
    && TaskOk(s, g, w.task)
    && (w.begun.Some? ==> !s.leases[g].Active? && s.leases[g].through == w.begun.value)
    && (w.drained ==> w.begun.Some? && Drained(s, g, w.begun.value))
    && (!s.leases[g].Active? ==> s.leases[g].through <= s.sequence)
    && (s.leases[g].Retired? ==> Drained(s, g, s.leases[g].through))
  }

  predicate Invariant(s: System) {
    && |s.leases| == |s.watchers|
    && (forall id :: id in s.cancels ==> CancelOk(s, id))
    && (forall id :: id in s.staged ==> s.staged[id] < |s.leases|)
    && (forall id :: id in s.events ==> EventOk(s, id))
    && (forall g :: 0 <= g < |s.leases| ==> WatcherOk(s, g))
  }

  // ----- steps keep it -----

  /** Receipts already on the journal keep their place; new ones lie beyond every watermark, and none moves back. */
  ghost predicate Onward(s: System, t: System) {
    && t.sequence >= s.sequence
    && (forall id :: id in s.cancels ==>
          && id in t.cancels && t.cancels[id].sequence == s.cancels[id].sequence && t.cancels[id].generation == s.cancels[id].generation
          && (|| t.cancels[id].status == s.cancels[id].status
              || (t.cancels[id].status != Journal.Received
                  && (t.cancels[id].status == Journal.Claimed ==> s.cancels[id].status == Journal.Received))))
    && (forall id :: id in t.cancels && id !in s.cancels ==> t.cancels[id].sequence > s.sequence)
  }

  lemma DrainedOn(s: System, t: System, g: nat, through: nat)
    requires Onward(s, t) && Drained(s, g, through) && through <= s.sequence
    ensures Drained(t, g, through)
  {
  }

  /** A step on the journal: receipts move on, the leases and watchers stay. */
  lemma JournalKeeps(s: System, t: System)
    requires Invariant(s) && Onward(s, t) && t.leases == s.leases && t.watchers == s.watchers && t.events == s.events
    requires forall id :: id in t.cancels ==> CancelOk(t, id)
    requires forall id :: id in t.staged ==> t.staged[id] < |t.leases|
    ensures Invariant(t)
  {
    forall id | id in t.events ensures EventOk(t, id) { assert EventOk(s, id); }
    forall g | 0 <= g < |t.leases| ensures WatcherOk(t, g) {
      assert WatcherOk(s, g);
      var w := s.watchers[g];
      if w.drained { DrainedOn(s, t, g, w.begun.value); }
      if s.leases[g].Retired? { DrainedOn(s, t, g, s.leases[g].through); }
    }
  }

  /** A step of one watcher, on its own state and its own lease. */
  lemma WatcherKeeps(s: System, t: System, g: nat)
    requires Invariant(s) && g < |s.leases|
    requires t.sequence == s.sequence && t.cancels == s.cancels && t.staged == s.staged
    requires |t.leases| == |s.leases| && |t.watchers| == |s.watchers|
    requires forall h :: 0 <= h < |s.leases| && h != g ==> t.leases[h] == s.leases[h] && t.watchers[h] == s.watchers[h]
    requires WatcherOk(t, g)
    requires forall id :: id in t.events ==> EventOk(t, id)
    ensures Invariant(t)
  {
    forall id | id in t.cancels ensures CancelOk(t, id) { assert CancelOk(s, id); }
    forall h | 0 <= h < |t.leases| ensures WatcherOk(t, h) {
      if h != g {
        assert WatcherOk(s, h);
        assert Drained(s, h, 0) == Drained(t, h, 0);
      }
    }
  }

  lemma JournalStep(s: System, step: Step)
    requires Invariant(s) && Enabled(s, step) && (step.OtherRecords? || step.Admit? || step.CutOff? || step.Replay? || step.Outcome?)
    ensures Invariant(Apply(s, step))
  {
    var t := Apply(s, step);
    forall id | id in t.cancels ensures CancelOk(t, id) {
      if id in s.cancels { assert CancelOk(s, id); }
    }
    JournalKeeps(s, t);
  }

  lemma ClaimStep(s: System, step: Step)
    requires Invariant(s) && Enabled(s, step) && step.Claim?
    ensures Invariant(Apply(s, step))
  {
    var t := Moved(s, step.id, Journal.Claimed);
    forall id | id in t.cancels ensures CancelOk(t, id) { assert CancelOk(s, id); }
    JournalKeeps(s, t);
    if step.created {
      assert WatcherOk(t, step.g);
      forall id | id in t.events ensures EventOk(t, id) { }
      WatcherKeeps(t, Apply(s, step), step.g);
    }
  }

  lemma DeliveryStep(s: System, step: Step)
    requires Invariant(s) && Enabled(s, step) && (step.Clear? || step.Append? || step.Stop? || step.Drain?)
    ensures Invariant(Apply(s, step))
  {
    var t, g := Apply(s, step), step.g;
    assert WatcherOk(s, g);
    forall id | id in t.events ensures EventOk(t, id) {
      if id in s.events { assert EventOk(s, id); } else { assert CancelOk(s, id); }
    }
    WatcherKeeps(s, t, g);
  }

  /** Freezing takes in every receipt on the journal, so what was delivered or cleared before lies within the watermark. */
  lemma LeaseStep(s: System, step: Step)
    requires Invariant(s) && Enabled(s, step) && (step.Freeze? || step.Retire?)
    ensures Invariant(Apply(s, step))
  {
    var t, g := Apply(s, step), step.g;
    assert WatcherOk(s, g);
    forall id | id in s.cancels ensures CancelOk(t, id) { assert CancelOk(s, id); }
    forall id | id in t.events ensures EventOk(t, id) { assert EventOk(s, id); }
    WatcherKeeps(s, t, g);
  }

  lemma InstallStep(s: System)
    requires Invariant(s) && Enabled(s, Install)
    ensures Invariant(Apply(s, Install))
  {
    var t := Apply(s, Install);
    forall id | id in t.cancels ensures CancelOk(t, id) { assert CancelOk(s, id); }
    forall id | id in t.events ensures EventOk(t, id) { assert EventOk(s, id); }
    forall g | 0 <= g < |t.leases| ensures WatcherOk(t, g) {
      if g < |s.leases| { assert WatcherOk(s, g); }
    }
  }

  lemma StepKeeps(s: System, step: Step)
    requires Invariant(s) && Enabled(s, step)
    ensures Invariant(Apply(s, step))
  {
    match step
    case Claim(_, _, _) => ClaimStep(s, step);
    case Clear(_) => DeliveryStep(s, step);
    case Append(_, _) => DeliveryStep(s, step);
    case Stop(_) => DeliveryStep(s, step);
    case Drain(_) => DeliveryStep(s, step);
    case Freeze(_, _) => LeaseStep(s, step);
    case Retire(_) => LeaseStep(s, step);
    case Install => InstallStep(s);
    case _ => JournalStep(s, step);
  }

  // ----- whole runs -----

  const START := System(0, map[], map[], [], [], {})

  /** The system after these steps, if each of them could be taken. */
  function Execute(s: System, steps: seq<Step>): Option<System> {
    if steps == [] then Some(s) else
      match Execute(s, steps[..|steps| - 1])
      case None => None
      case Some(t) => if Enabled(t, steps[|steps| - 1]) then Some(Apply(t, steps[|steps| - 1])) else None
  }

  lemma {:induction false} ExecuteKeeps(s: System, steps: seq<Step>)
    requires Invariant(s) && Execute(s, steps).Some?
    ensures Invariant(Execute(s, steps).value)
  {
    if steps != [] {
      ExecuteKeeps(s, steps[..|steps| - 1]);
      StepKeeps(Execute(s, steps[..|steps| - 1]).value, steps[|steps| - 1]);
    }
  }

  /** A watermark, once frozen, stays; a receipt keeps its sequence; whatever comes onto the journal comes after what is there. */
  ghost predicate Later(s: System, t: System) {
    && s.sequence <= t.sequence && |s.leases| <= |t.leases|
    && (forall g :: 0 <= g < |s.leases| && !s.leases[g].Active? ==> !t.leases[g].Active? && t.leases[g].through == s.leases[g].through)
    && (forall id :: id in s.cancels ==> id in t.cancels && t.cancels[id].sequence == s.cancels[id].sequence
                                         && t.cancels[id].generation == s.cancels[id].generation)
    && (forall id :: id in t.cancels && id !in s.cancels ==> t.cancels[id].sequence > s.sequence)
    && (forall id :: id in s.staged ==> id in t.staged && t.staged[id] == s.staged[id])
    && (forall id :: id in s.staged && id !in s.cancels && id in t.cancels ==> t.cancels[id].generation == s.staged[id])
  }

  lemma StepLater(s: System, step: Step)
    requires Enabled(s, step)
    ensures Later(s, Apply(s, step))
  {
  }

  lemma LaterOn(a: System, b: System, c: System)
    requires Later(a, b) && Later(b, c)
    ensures Later(a, c)
  {
    forall g | 0 <= g < |a.leases| && !a.leases[g].Active?
      ensures !c.leases[g].Active? && c.leases[g].through == a.leases[g].through
    {
      assert !b.leases[g].Active?;
    }
    forall id | id in a.staged && id !in a.cancels && id in c.cancels ensures c.cancels[id].generation == a.staged[id] {
      assert id in b.staged;
    }
  }

  lemma {:induction false} ExecuteLater(s: System, steps: seq<Step>)
    requires Execute(s, steps).Some?
    ensures Later(s, Execute(s, steps).value)
  {
    if steps != [] {
      var m := Execute(s, steps[..|steps| - 1]).value;
      ExecuteLater(s, steps[..|steps| - 1]);
      StepLater(m, steps[|steps| - 1]);
      LaterOn(s, m, Apply(m, steps[|steps| - 1]));
    }
  }

  /** In every run, no cancel-request event is on the ledger for a receipt beyond its lease's frozen watermark. */
  lemma DeliveredWithinWatermark(steps: seq<Step>, t: System, id: string)
    requires Execute(START, steps) == Some(t) && id in t.events
    ensures id in t.cancels && t.cancels[id].generation < |t.leases|
    ensures var lease := t.leases[t.cancels[id].generation]; !lease.Active? ==> t.cancels[id].sequence <= lease.through
  {
    ExecuteKeeps(START, steps);
    assert EventOk(t, id);
  }

  /** In every run, a retired lease has no receipt at or below its watermark that still needs its watcher. */
  lemma RetiredIsDrained(steps: seq<Step>, t: System, g: nat)
    requires Execute(START, steps) == Some(t) && g < |t.leases| && t.leases[g].Retired?
    ensures Drained(t, g, t.leases[g].through)
  {
    ExecuteKeeps(START, steps);
    assert WatcherOk(t, g);
  }

  /** Once a lease's watermark is frozen, a receipt not on the journal by then is never delivered, however late it is replayed. */
  lemma LateNeverDelivered(before: seq<Step>, s: System, after: seq<Step>, t: System, id: string)
    requires Execute(START, before) == Some(s) && Execute(s, after) == Some(t)
    requires id in s.staged && id !in s.cancels && s.staged[id] < |s.leases| && !s.leases[s.staged[id]].Active?
    ensures id !in t.events
  {
    ExecuteKeeps(START, before);
    ExecuteKeeps(s, after);
    ExecuteLater(s, after);
    assert WatcherOk(s, s.staged[id]);
    assert id in t.events ==> EventOk(t, id);
  }

  /** Nor is one that is on the journal beyond the watermark, claimed or not. */
  lemma BeyondNeverDelivered(before: seq<Step>, s: System, after: seq<Step>, t: System, id: string)
    requires Execute(START, before) == Some(s) && Execute(s, after) == Some(t)
    requires id in s.cancels && s.cancels[id].generation < |s.leases| && !s.leases[s.cancels[id].generation].Active?
    requires s.cancels[id].sequence > s.leases[s.cancels[id].generation].through
    ensures id !in t.events
  {
    ExecuteKeeps(START, before);
    ExecuteKeeps(s, after);
    ExecuteLater(s, after);
    assert id in t.events ==> EventOk(t, id);
  }
}
