/**
  Opening runs over any number of calls, failures, kills and power losses: a registered run keeps its directory for good,
  as far as what a process takes for durable is so.
 */
module RunLives {
  import opened Results
  import opened ByteLines
  import opened Durability
  import opened LinkedHistory
  import opened RunDisk
  import opened RunRegistration

  /** On the way to some extension of these runs. */
  ghost predicate Reaches(c: HistoryCodec, d: Actions, records: seq<Entry>) {
    exists base, r :: records <= base && Along(c, d, base, r)
  }

  lemma AlongCrashes(c: HistoryCodec, d: Actions, e: Actions, base: seq<Entry>, r: Option<Entry>)
    returns (now: seq<Entry>, left: Stage)
    requires Along(c, d, base, r) && Crashed(d, e)
    ensures base <= now && Ready(c, e, now, left)
    ensures now == base || (r.Some? && now == base + [r.value])
  {
    if At(c, d, base, Idle) {
      now, left := CrashAt(c, d, e, base, Idle);
    } else if r.Some? && At(c, d, base + [r.value], Idle) {
      now, left := CrashAt(c, d, e, base + [r.value], Idle);
    } else {
      var stage :| At(c, d, base, stage) && RecordOf(stage) == [r.value];
      now, left := CrashAt(c, d, e, base, stage);
    }
  }

  lemma AlongTaken(c: HistoryCodec, d: Actions, base: seq<Entry>, r: Option<Entry>) returns (now: seq<Entry>, left: Stage)
    requires Along(c, d, base, r)
    ensures base <= now && Ready(c, Taken(d), now, left)
    ensures now == base || (r.Some? && now == base + [r.value])
  {
    if At(c, d, base, Idle) {
      now, left := TakenAt(c, d, base, Idle);
    } else if r.Some? && At(c, d, base + [r.value], Idle) {
      now, left := TakenAt(c, d, base + [r.value], Idle);
    } else {
      var stage :| At(c, d, base, stage) && RecordOf(stage) == [r.value];
      now, left := TakenAt(c, d, base, stage);
    }
  }

  /** Any power loss leaves a disk that is ready for recovery, with every registered run still registered. */
  lemma ReachesCrashes(c: HistoryCodec, d: Actions, e: Actions, records: seq<Entry>) returns (now: seq<Entry>, left: Stage)
    requires Reaches(c, d, records) && Crashed(d, e)
    ensures records <= now && Ready(c, e, now, left)
  {
    var base, r :| records <= base && Along(c, d, base, r);
    now, left := AlongCrashes(c, d, e, base, r);
    PrefixOn(records, base, now);
  }

  /** So does what a process sees that goes on, or starts after a kill. */
  lemma ReachesTaken(c: HistoryCodec, d: Actions, records: seq<Entry>) returns (now: seq<Entry>, left: Stage)
    requires Reaches(c, d, records)
    ensures records <= now && Ready(c, Taken(d), now, left)
  {
    var base, r :| records <= base && Along(c, d, base, r);
    now, left := AlongTaken(c, d, base, r);
    PrefixOn(records, base, now);
  }

  lemma ReadyReaches(c: HistoryCodec, d: Actions, records: seq<Entry>, stage: Stage)
    requires Ready(c, d, records, stage)
    ensures Reaches(c, d, records)
  {
    var r := if stage.Idle? then None else Some(RecordOf(stage)[0]);
    assert Along(c, d, records, r);
  }

  lemma PrefixOn(a: seq<Entry>, b: seq<Entry>, c: seq<Entry>)
    requires a <= b <= c
    ensures a <= c
  {
    assert c[..|b|] == b && b[..|a|] == a;
    assert c[..|a|] == a;
  }

  ghost predicate ReachesThrough(c: HistoryCodec, from: set<Actions>, now: set<Actions>, records: seq<Entry>) {
    from <= now && forall d :: d in now && d !in from ==> Reaches(c, d, records)
  }

  lemma AlongReaches(c: HistoryCodec, x: set<Actions>, y: set<Actions>, z: set<Actions>, records: seq<Entry>, base: seq<Entry>,
                     r: Option<Entry>)
    requires ReachesThrough(c, x, y, records) && AlongThrough(c, y, z, base, r) && records <= base
    ensures ReachesThrough(c, x, z, records)
  {
    forall d | d in z && d !in x ensures Reaches(c, d, records) {
      if d !in y { assert records <= base && Along(c, d, base, r); }
    }
  }

  /** The run's directory, as its record and its name give it. */
  ghost predicate Holds(records: seq<Entry>, key: string, inode: nat) {
    Find(records, key).Some? && Find(records, key).value.inode == inode
  }

  lemma {:induction false} HoldsOn(c: HistoryCodec, records: seq<Entry>, now: seq<Entry>, key: string)
    requires Chained(c, now) && records <= now
    ensures Find(records, key).Some? ==> Find(now, key) == Find(records, key)
  {
    if |records| < |now| {
      var init := now[..|now| - 1];
      assert records <= init by { assert init[..|records|] == now[..|records|]; }
      HoldsOn(c, records, init, key);
      FindIs(init, key);
    } else {
      assert records == now;
    }
  }

  /** Reconciles, whatever a crash left or a failed call. */
  method Reconcile(reg: RunRegistry, ghost records: seq<Entry>, ghost stage: Stage) returns (answer: Answer, runs: seq<Entry>)
    requires CanonicalRuns(reg.codec) && Ready(reg.codec, reg.disk, records, stage)
    modifies reg`disk, reg`passed, reg`faulty
    ensures (old(reg.faulty) ==> reg.faulty) && (answer == Done || (answer == Failed && reg.faulty))
    ensures ReachesThrough(reg.codec, old(reg.passed), reg.passed, records) && Reaches(reg.codec, reg.disk, records)
    ensures answer == Done ==> runs == records + RecordOf(stage) && At(reg.codec, reg.disk, runs, Idle)
                               && reg.disk.dir.live == Directory(runs)
  {
    ghost var found := if stage.Idle? then None else Some(RecordOf(stage)[0]);
    if reg.disk.authority.live.Prepared? {
      answer, runs := reg.ReconcileBound(records, stage.r);
    } else {
      answer, runs := reg.ReconcileUnbound(records, stage);
    }
    assert records <= records && Along(reg.codec, reg.disk, records, found);
    AlongReaches(reg.codec, old(reg.passed), old(reg.passed), reg.passed, records, records, found);
  }

  /** The run's record would be too long for a reader. */
  ghost predicate Oversized(c: HistoryCodec, key: string, value: string) {
    exists r: Entry :: r.key == key && r.value == value && |c.encode(r)| > c.maxLine
  }

  /** As many runs are registered as there may be. */
  ghost predicate Full(c: HistoryCodec, d: Actions) {
    exists runs :: At(c, d, runs, Idle) && |runs| == MAX_JOURNAL_RUNS
  }

  /** Registers a run that no record mentions. */
  method RegisterRun(reg: RunRegistry, key: string, value: string, runs: seq<Entry>)
    returns (inode: Option<nat>, ghost now: seq<Entry>)
    requires CanonicalRuns(reg.codec) && At(reg.codec, reg.disk, runs, Idle) && reg.disk.dir.live == Directory(runs)
    requires key != STAGE && !reg.failedClosed && !reg.retainLock && Find(runs, key) == None
    modifies reg
    ensures ReachesThrough(reg.codec, old(reg.passed), reg.passed, runs) && Reaches(reg.codec, reg.disk, runs)
    ensures reg.failedClosed == reg.retainLock && runs <= now && (reg.failedClosed ==> reg.faulty)
    ensures inode.Some? ==> Holds(now, key, inode.value) && !reg.failedClosed
                            && At(reg.codec, reg.disk, now, Idle) && reg.disk.dir.live == Directory(now)
    ensures inode.None? ==> now == runs && (reg.faulty || Full(reg.codec, reg.disk) || Oversized(reg.codec, key, value))
    ensures inode.None? ==> reg.faulty || At(reg.codec, reg.disk, runs, Idle)
  {
    var answer;
    ghost var r;
    now, inode := runs, None;
    answer, r := reg.Register(key, value, runs, runs);
    AlongReaches(reg.codec, old(reg.passed), old(reg.passed), reg.passed, runs, runs, Some(r));
    assert runs <= runs && Along(reg.codec, reg.disk, runs, Some(r));
    if answer == Done {
      now := runs + [r];
      FindMore(runs, r, key);
      DirectoryIs(now, key);
      inode := Some(reg.disk.dir.live[key]);
    }
  }

  lemma ReachesOn(c: HistoryCodec, x: set<Actions>, y: set<Actions>, z: set<Actions>, records: seq<Entry>, base: seq<Entry>)
    requires ReachesThrough(c, x, y, records) && ReachesThrough(c, y, z, base) && records <= base
    ensures ReachesThrough(c, x, z, records)
  {
  }

  /** Opens a run, registering it if no record mentions it. */
  method OpenRun(reg: RunRegistry, key: string, value: string, ghost records: seq<Entry>, ghost stage: Stage)
    returns (inode: Option<nat>, ghost now: seq<Entry>)
    requires CanonicalRuns(reg.codec) && Ready(reg.codec, reg.disk, records, stage)
    requires key != STAGE && !reg.failedClosed && !reg.retainLock
    modifies reg
    ensures ReachesThrough(reg.codec, old(reg.passed), reg.passed, records) && Reaches(reg.codec, reg.disk, records)
    ensures reg.failedClosed == reg.retainLock && records <= now && (reg.failedClosed ==> reg.faulty)
    ensures inode.Some? ==> Holds(now, key, inode.value) && !reg.failedClosed
                            && At(reg.codec, reg.disk, now, Idle) && reg.disk.dir.live == Directory(now)
    ensures inode.None? ==> reg.faulty || Full(reg.codec, reg.disk) || Oversized(reg.codec, key, value)
    ensures reg.faulty || Certain(reg.disk)
  {
    var answer, runs := Reconcile(reg, records, stage);
    now, inode := records, None;
    if answer != Done { return; }
    now := runs;
    if Find(runs, key).Some? { return Some(Find(runs, key).value.inode), now; }
    ghost var before := reg.passed;
    inode, now := RegisterRun(reg, key, value, runs);
    ReachesOn(reg.codec, old(reg.passed), before, reg.passed, records, runs);
  }

  lemma HoldsRecord(records: seq<Entry>, key: string, inode: nat)
    requires Holds(records, key, inode)
    ensures exists i :: 0 <= i < |records| && records[i].inode == inode
  {
    FindIs(records, key);
    var i :| 0 <= i < |records| && records[i] == Find(records, key).value;
  }

  /** A process writes into a run's directory; only a registered run is ever used, and no directory waiting under the private name. */
  lemma UseKeeps(c: HistoryCodec, d: Actions, records: seq<Entry>, key: string, inode: nat)
    requires At(c, d, records, Idle) && Holds(records, key, inode)
    ensures At(c, d.(used := d.used + {inode}), records, Idle)
  {
    var e := d.(used := d.used + {inode});
    HoldsRecord(records, key, inode);
    forall v | v in d.dir.may ensures v == Directory(records) || StageBeside(e, v, records) {
      if v != Directory(records) { assert StageBeside(d, v, records); }
    }
  }

  datatype Fate = Opened(inode: nat) | Declined | CutOff

  /** The process may be killed at some state, or the power may fail there. */
  datatype Ending = Undisturbed | Killed(at: Actions) | PowerLost(at: Actions, after: Actions)

  ghost predicate AllReach(c: HistoryCodec, passed: set<Actions>, records: seq<Entry>) {
    forall d :: d in passed ==> Reaches(c, d, records)
  }

  /** A running process opens a run and writes into its directory. One that failed closed declines. */
  method Answer(reg: RunRegistry, key: string, value: string, ghost records: seq<Entry>)
    returns (fate: Fate, ghost now: seq<Entry>)
    requires CanonicalRuns(reg.codec) && Reaches(reg.codec, reg.disk, records)
    requires key != STAGE && reg.failedClosed == reg.retainLock
    modifies reg
    ensures reg.failedClosed == reg.retainLock && fate != CutOff
    ensures AllReach(reg.codec, reg.passed, records) && Reaches(reg.codec, reg.disk, now) && records <= now
    ensures fate.Opened? ==> Holds(now, key, fate.inode) && Chained(reg.codec, now)
    ensures fate == Declined ==> now == records
    ensures reg.faulty || Certain(reg.disk)
    ensures reg.failedClosed ==> old(reg.failedClosed) || reg.faulty
    ensures fate == Declined ==> reg.faulty || old(reg.failedClosed) || Oversized(reg.codec, key, value) || Full(reg.codec, reg.disk)
  {
    ghost var base, left := ReachesTaken(reg.codec, reg.disk, records);
    reg.Begin();
    FirstReaches(reg.codec, reg.disk, base, left, records);
    fate, now := Declined, records;
    if reg.failedClosed { return; }
    ghost var start := reg.passed;
    var inode;
    ghost var runs;
    inode, runs := OpenRun(reg, key, value, base, left);
    ReachesBackThrough(reg.codec, start, reg.passed, records, base);
    ReachesBack(reg.codec, reg.disk, records, base);
    if inode.Some? {
      PrefixOn(records, base, runs);
      now, fate := runs, Opened(inode.value);
      WriteInto(reg, key, inode.value, records, runs);
    }
  }

  /** The process writes into the directory it was given. */
  method WriteInto(reg: RunRegistry, key: string, inode: nat, ghost records: seq<Entry>, ghost runs: seq<Entry>)
    requires At(reg.codec, reg.disk, runs, Idle) && Holds(runs, key, inode) && records <= runs
    requires AllReach(reg.codec, reg.passed, records)
    modifies reg`disk, reg`passed
    ensures AllReach(reg.codec, reg.passed, records) && Reaches(reg.codec, reg.disk, runs) && Certain(reg.disk)
  {
    UseKeeps(reg.codec, reg.disk, runs, key, inode);
    reg.Use(inode);
    IdleReaches(reg.codec, reg.disk, runs);
    ReachesBack(reg.codec, reg.disk, records, runs);
  }

  lemma FirstReaches(c: HistoryCodec, d: Actions, base: seq<Entry>, left: Stage, records: seq<Entry>)
    requires Ready(c, d, base, left) && records <= base
    ensures AllReach(c, {d}, records) && Reaches(c, d, records)
  {
    ReadyReaches(c, d, base, left);
    ReachesBack(c, d, records, base);
  }

  lemma IdleReaches(c: HistoryCodec, d: Actions, records: seq<Entry>)
    requires At(c, d, records, Idle)
    ensures Reaches(c, d, records)
  {
    assert Along(c, d, records, None);
  }

  lemma ReachesBack(c: HistoryCodec, d: Actions, records: seq<Entry>, base: seq<Entry>)
    requires records <= base && Reaches(c, d, base)
    ensures Reaches(c, d, records)
  {
    var more, r :| base <= more && Along(c, d, more, r);
    PrefixOn(records, base, more);
  }

  lemma ReachesBackThrough(c: HistoryCodec, start: set<Actions>, passed: set<Actions>, records: seq<Entry>, base: seq<Entry>)
    requires records <= base && AllReach(c, start, records) && ReachesThrough(c, start, passed, base)
    ensures AllReach(c, passed, records)
  {
    forall d | d in passed ensures Reaches(c, d, records) {
      if d !in start { ReachesBack(c, d, records, base); }
    }
  }

  /** A power loss brings back what a process had taken for overwritten. */
  predicate Undoes(ending: Ending, stale: Stale) {
    ending.PowerLost? && Crashed(Real(ending.at, stale), ending.after) && !Crashed(ending.at, ending.after)
  }

  /** Then there was something it had taken for overwritten. */
  lemma UndoesStale(ending: Ending, stale: Stale)
    requires Undoes(ending, stale)
    ensures ending.after.authority.live in stale.authorities || ending.after.dir.live in stale.names
  {
  }

  /** Without anything stale every power loss is one the process has reckoned with. */
  lemma NothingToUndo(ending: Ending)
    ensures !Undoes(ending, NOTHING_STALE)
  {
    if ending.PowerLost? {
      var d := ending.at;
      assert d.authority.may + {} == d.authority.may && d.dir.may + {} == d.dir.may;
      assert Real(d, NOTHING_STALE) == d;
    }
  }

  /** Where a life has got to; `shaken` says that since the last power loss a call failed or a process was killed. */
  ghost predicate Living(reg: RunRegistry, records: seq<Entry>, stale: Stale, shaken: bool)
    reads reg
  {
    && Reaches(reg.codec, reg.disk, records) && Chained(reg.codec, records) && reg.failedClosed == reg.retainLock
    && (shaken || (stale == NOTHING_STALE && Certain(reg.disk) && !reg.failedClosed))
  }

  /** A new process after a kill. */
  method AfterKill(reg: RunRegistry, at: Actions, ghost records: seq<Entry>, stale: Stale)
    returns (ghost now: seq<Entry>, left: Stale)
    requires Reaches(reg.codec, at, records)
    modifies reg
    ensures records <= now && Living(reg, now, left, true) && left == Both(stale, TakenOver(at))
  {
    ghost var stage;
    now, stage := ReachesTaken(reg.codec, at, records);
    reg.Restart(at, Taken(at));
    ReadyReaches(reg.codec, reg.disk, now, stage);
    left := Both(stale, TakenOver(at));
  }

  /** A new process after a power loss that was survived. */
  method AfterLoss(reg: RunRegistry, at: Actions, after: Actions, ghost records: seq<Entry>) returns (ghost now: seq<Entry>)
    requires Reaches(reg.codec, at, records) && Crashed(at, after)
    modifies reg
    ensures records <= now && Living(reg, now, NOTHING_STALE, false)
  {
    ghost var stage;
    now, stage := ReachesCrashes(reg.codec, at, after, records);
    reg.Restart(at, after);
    ReadyReaches(reg.codec, reg.disk, now, stage);
  }

  /**
    A kill or a power loss at some state passed, and the process that starts after it. `usable` says that a power loss was
    survived: nothing came back that a process had taken for overwritten.
   */
  method Interrupt(reg: RunRegistry, ending: Ending, ghost records: seq<Entry>, ghost current: seq<Entry>, stale: Stale, ghost shaken: bool)
    returns (restarted: bool, usable: bool, ghost now: seq<Entry>, left: Stale, ghost shakes: bool)
    requires AllReach(reg.codec, reg.passed, records) && Living(reg, current, stale, shaken) && records <= current
    modifies reg
    ensures Living(reg, now, left, shakes) && records <= now && (shakes ==> shaken || ending.Killed?)
    ensures !restarted ==> unchanged(reg) && now == current
    ensures usable <==> !(ending.PowerLost? && ending.at in old(reg.passed) && Undoes(ending, stale))
  {
    restarted, now, left, shakes, usable := false, current, stale, shaken, true;
    match ending {
      case Undisturbed =>
      case Killed(at) =>
        if at in reg.passed {
          now, left := AfterKill(reg, at, records, stale);
          restarted, shakes := true, true;
        }
      case PowerLost(at, after) =>
        usable := !(at in reg.passed && Undoes(ending, stale));
        if at in reg.passed && Crashed(at, after) {
          now := AfterLoss(reg, at, after, records);
          restarted, left, shakes := true, NOTHING_STALE, false;
        }
    }
  }

  /** Every process that was given a run's directory was given the one its record names. */
  ghost predicate Faithful(keys: seq<string>, fates: seq<Fate>, records: seq<Entry>)
    requires |fates| <= |keys|
  {
    forall i :: 0 <= i < |fates| && fates[i].Opened? ==> Holds(records, keys[i], fates[i].inode)
  }

  lemma StaysFaithful(c: HistoryCodec, keys: seq<string>, fates: seq<Fate>, records: seq<Entry>, now: seq<Entry>, fate: Fate)
    requires |fates| < |keys| && Faithful(keys, fates, records) && records <= now && Chained(c, now)
    requires fate.Opened? ==> Holds(now, keys[|fates|], fate.inode)
    ensures Faithful(keys, fates + [fate], now)
  {
    forall i | 0 <= i < |fates| && fates[i].Opened? ensures Holds(now, keys[i], fates[i].inode) {
      HoldsOn(c, records, now, keys[i]);
    }
  }

  /** One opening and its ending. Only where a call failed or a process was killed can a power loss undo something. */
  method Attend(reg: RunRegistry, key: string, value: string, ending: Ending, ghost records: seq<Entry>, stale: Stale,
                ghost shaken: bool)
    returns (fate: Fate, usable: bool, ghost now: seq<Entry>, left: Stale, ghost shakes: bool)
    requires CanonicalRuns(reg.codec) && Living(reg, records, stale, shaken) && key != STAGE
    modifies reg
    ensures Living(reg, now, left, shakes) && records <= now
    ensures fate.Opened? ==> Holds(now, key, fate.inode)
    ensures !usable ==> shaken && Undoes(ending, Both(stale, TakenOver(old(reg.disk))))
  {
    var risk := Both(stale, TakenOver(reg.disk));
    if !shaken {
      CertainTakes(reg.disk, stale);
      NothingToUndo(ending);
    }
    ghost var current;
    fate, current := Answer(reg, key, value, records);
    var restarted;
    restarted, usable, now, left, shakes := Interrupt(reg, ending, records, current, risk, shaken || reg.faulty);
    if restarted { fate := CutOff; }
  }

  /** Some power loss of these undid what a process had taken for durable. */
  ghost predicate UndoneBy(endings: seq<Ending>) {
    exists i, stale :: 0 <= i < |endings| && stale != NOTHING_STALE && Undoes(endings[i], stale)
  }

  lemma UndoneNow(endings: seq<Ending>, i: nat, stale: Stale)
    requires i < |endings| && Undoes(endings[i], stale)
    ensures UndoneBy(endings)
  {
    if stale == NOTHING_STALE { NothingToUndo(endings[i]); }
  }

  /**
    Opens runs one after another, and each call may end in a kill or a power loss; a process goes on after failed calls, and
    one that failed closed opens nothing until it is replaced. Whoever is given a run's directory is given the same one for
    good. A process takes for durable what it sees of the authority and of a bound run's name, and a life ends (`usable` is
    false) with a power loss that undoes this.
   */
  method Serve(reg: RunRegistry, keys: seq<string>, values: seq<string>, endings: seq<Ending>, ghost records: seq<Entry>)
    returns (fates: seq<Fate>, usable: bool, ghost now: seq<Entry>)
    requires CanonicalRuns(reg.codec) && Reaches(reg.codec, reg.disk, records) && Chained(reg.codec, records)
    requires reg.failedClosed == reg.retainLock
    requires |values| == |endings| == |keys| && forall i :: 0 <= i < |keys| ==> keys[i] != STAGE
    modifies reg
    ensures |fates| == |keys| && records <= now && Chained(reg.codec, now) && Faithful(keys, fates, now)
    ensures if usable then Reaches(reg.codec, reg.disk, now) else UndoneBy(endings)
  {
    fates, usable, now := [], true, records;
    var stale := NOTHING_STALE;
    ghost var shaken := true;
    for i := 0 to |keys|
      invariant |fates| == i && records <= now && Chained(reg.codec, now) && Faithful(keys, fates, now)
      invariant if usable then Living(reg, now, stale, shaken) else UndoneBy(endings)
    {
      var fate := CutOff;
      ghost var next := now;
      if usable {
        ghost var risk := Both(stale, TakenOver(reg.disk));
        fate, usable, next, stale, shaken := Attend(reg, keys[i], values[i], endings[i], now, stale, shaken);
        if !usable { UndoneNow(endings, i, risk); }
      }
      StaysFaithful(reg.codec, keys, fates, now, next, fate);
      PrefixOn(records, now, next);
      fates, now := fates + [fate], next;
    }
  }
}
