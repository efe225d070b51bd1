/**
  Registering a run's directory, and recovering a registration a crash cut off. Every system call may fail, and a crash
  may come between any two of them or inside one.
 */
module RunRegistration {
  import opened Results
  import opened ByteLines
  import opened Durability
  import opened LinkedHistory
  import opened RunDisk

  datatype Answer = Done | Refused | Failed | AlreadyRegistered | Exhausted | TooLong

  // ----- what a reader checks -----

  /** The committed runs and where their records end, if the history bears out the authority. */
  function LoadRuns(c: HistoryCodec, d: Actions): Option<(seq<Entry>, nat)> {
    if |d.history.live| > MAX_RUN_HISTORY_BYTES then None else
      match Load(c, d.history.live, d.authority.live.count)
      case None => None
      case Some(loaded) => if FinalDigest(c, loaded.0) == d.authority.live.digest then Some(loaded) else None
  }

  predicate NextRecord(c: HistoryCodec, records: seq<Entry>, r: Entry) {
    |records| < MAX_JOURNAL_RUNS && Extends(c, records, r)
  }

  predicate LeadsNowhereElse(d: Actions, name: string, inode: nat) {
    name in d.dir.live ==> d.dir.live[name] == inode
  }

  /** The bound directory is where the authority says, empty, and the tail is the start of its record's line. */
  predicate PreparedSound(c: HistoryCodec, d: Actions, records: seq<Entry>, offset: nat, r: Entry)
    requires offset <= |d.history.live|
  {
    && NextRecord(c, records, r)
    && LeadsNowhereElse(d, STAGE, r.inode) && LeadsNowhereElse(d, r.key, r.inode)
    && (STAGE in d.dir.live) != (r.key in d.dir.live)
    && r.inode !in d.used
    && d.history.live[offset..] <= c.encode(r) + [NEWLINE]
  }

  /** A whole record beyond the authority, whose directory is in place. */
  predicate LegacySound(c: HistoryCodec, d: Actions, records: seq<Entry>, tail: seq<byte>) {
    && tail != [] && LineBreak(tail, 0) == |tail| - 1 && 0 < |tail| - 1 <= c.maxLine
    && c.decode(tail[..|tail| - 1]).Some?
    && var r := c.decode(tail[..|tail| - 1]).value;
       NextRecord(c, records, r) && r.key in d.dir.live && d.dir.live[r.key] == r.inode
  }

  lemma RunsBounded(c: HistoryCodec, records: seq<Entry>)
    requires CanonicalRuns(c) && Chained(c, records) && |records| <= MAX_JOURNAL_RUNS
    ensures |Lines(c, records)| <= MAX_RUN_HISTORY_BYTES
  {
    LinesBound(c, records);
  }

  lemma RunsLoad(c: HistoryCodec, d: Actions, records: seq<Entry>)
    requires CanonicalHistory(c) && Chained(c, records)
    requires d.authority.live.count == |records| && d.authority.live.digest == FinalDigest(c, records)
    requires Lines(c, records) <= d.history.live && |d.history.live| <= MAX_RUN_HISTORY_BYTES
    ensures LoadRuns(c, d) == Some((records, |Lines(c, records)|))
  {
    LoadsLines(c, records, d.history.live);
  }

  lemma PreparedIsSound(c: HistoryCodec, d: Actions, records: seq<Entry>, r: Entry)
    requires CanonicalRuns(c) && At(c, d, records, Bound(r))
    ensures LoadRuns(c, d) == Some((records, |Lines(c, records)|))
    ensures PreparedSound(c, d, records, |Lines(c, records)|, r)
  {
    RunsBounded(c, records + [r]);
    RunsLoad(c, d, records);
    LinesOneMore(c, records, r);
    Renamed(c, d, records, r);
    PrefixParts(Lines(c, records), d.history.live[|Lines(c, records)|..], d.history.live);
    TailOf(Lines(c, records), c.encode(r) + [NEWLINE], d.history.live);
  }

  lemma TailOf(a: seq<byte>, line: seq<byte>, v: seq<byte>)
    requires a <= v <= a + line
    ensures v[|a|..] <= line
  {
    assert v == (a + line)[..|v|];
    assert v[|a|..] == line[..|v| - |a|];
  }

  lemma LegacyIsSound(c: HistoryCodec, d: Actions, records: seq<Entry>, r: Entry)
    requires CanonicalRuns(c) && At(c, d, records, Legacy(r)) && d.authority.live == AuthorityOf(c, records)
    ensures LoadRuns(c, d) == Some((records, |Lines(c, records)|))
    ensures d.history.live[|Lines(c, records)|..] == c.encode(r) + [NEWLINE]
    ensures LineBreak(c.encode(r) + [NEWLINE], 0) == |c.encode(r)| && c.decode(c.encode(r)) == Some(r)
    ensures 0 < |c.encode(r)| <= c.maxLine && NextRecord(c, records, r)
  {
    LinesOneMore(c, records, r);
    RunsBounded(c, records + [r]);
    RunsLoad(c, d, records);
    var line := c.encode(r);
    BreakAfter(line + [NEWLINE], 0, |line|);
    ChainedValid(c, records + [r]);
  }

  /** The tail is empty, or the legacy record's line with its directory in place. */
  lemma LoadsUnbound(c: HistoryCodec, d: Actions, records: seq<Entry>, stage: Stage)
    requires CanonicalRuns(c) && At(c, d, records, stage) && (stage.Idle? || stage.Legacy?)
    requires d.authority.live == AuthorityOf(c, records)
    ensures LoadRuns(c, d) == Some((records, |Lines(c, records)|))
    ensures var tail := d.history.live[|Lines(c, records)|..];
            if stage.Idle? then tail == []
            else tail != [] && c.decode(tail[..|tail| - 1]) == Some(stage.r)
                 && forall e: Actions :: e.dir.live == Directory(records + [stage.r]) ==> LegacySound(c, e, records, tail)
  {
    if stage.Idle? {
      RunsBounded(c, records);
      RunsLoad(c, d, records);
    } else {
      LegacyIsSound(c, d, records, stage.r);
      DirectoryMore(records, stage.r);
      var tail := d.history.live[|Lines(c, records)|..];
      assert tail[..|tail| - 1] == c.encode(stage.r);
    }
  }

  /** A directory under the private name that no run is bound to is empty; taking it away leaves the committed runs' names. */
  lemma UnstageKeeps(c: HistoryCodec, d: Actions, records: seq<Entry>, stage: Stage)
    requires At(c, d, records, stage) && (stage.Idle? || stage.Legacy?)
    ensures STAGE in d.dir.live ==> d.dir.live[STAGE] !in d.used
    ensures d.dir.live - {STAGE} == Directory(records + RecordOf(stage))
    ensures At(c, Moved(d, d.dir.live - {STAGE}), records, stage)
  {
    assert records + [] == records;
    var all := records + RecordOf(stage);
    assert forall i :: 0 <= i < |all| ==> all[i].key != STAGE;
    NoStage(all);
    StageGone(d, d.dir.live, all);
    StageKeeps(c, d, records, stage, d.dir.live - {STAGE});
  }

  /** A bound run that is in place is so durably. */
  lemma InPlace(c: HistoryCodec, d: Actions, records: seq<Entry>, r: Entry)
    requires Ready(c, d, records, Bound(r))
    ensures STAGE !in d.dir.live ==> d.dir == Durable(Directory(records + [r]))
  {
  }

  // ----- histories of states -----

  ghost predicate Through(c: HistoryCodec, from: set<Actions>, now: set<Actions>, records: seq<Entry>, stage: Stage) {
    from <= now && forall d :: d in now && d !in from ==> At(c, d, records, stage)
  }

  /** Somewhere on the way from the committed runs to the committed runs and `r`. */
  ghost predicate Along(c: HistoryCodec, d: Actions, records: seq<Entry>, r: Option<Entry>) {
    || At(c, d, records, Idle)
    || (r.Some? && At(c, d, records + [r.value], Idle))
    || (exists stage :: At(c, d, records, stage) && r.Some? && RecordOf(stage) == [r.value])
  }

  ghost predicate AlongThrough(c: HistoryCodec, from: set<Actions>, now: set<Actions>, records: seq<Entry>, r: Option<Entry>) {
    from <= now && forall d :: d in now && d !in from ==> Along(c, d, records, r)
  }

  lemma AlongStep(c: HistoryCodec, x: set<Actions>, y: set<Actions>, z: set<Actions>, records: seq<Entry>, r: Option<Entry>, stage: Stage)
    requires AlongThrough(c, x, y, records, r) && Through(c, y, z, records, stage)
    requires stage.Idle? || (r.Some? && RecordOf(stage) == [r.value])
    ensures AlongThrough(c, x, z, records, r)
  {
    forall d | d in z && d !in x ensures Along(c, d, records, r) {
      if d !in y { assert At(c, d, records, stage); }
    }
  }

  lemma AlongJoin(c: HistoryCodec, x: set<Actions>, y: set<Actions>, z: set<Actions>, records: seq<Entry>, r: Entry)
    requires AlongThrough(c, x, y, records, Some(r)) && AlongThrough(c, y, z, records, Some(r))
    ensures AlongThrough(c, x, z, records, Some(r))
  {
    forall d | d in z && d !in x ensures Along(c, d, records, Some(r)) {
      if d in y { assert Along(c, d, records, Some(r)); }
    }
  }

  /**
    The actions directory under the service-wide lock. `passed` collects every state that a call passes; `faulty` says that
    some system call has failed since it began.
   */
  class RunRegistry {
    const codec: HistoryCodec
    var disk: Actions
    var failedClosed: bool
    var retainLock: bool
    var passed: set<Actions>
    ghost var faulty: bool

    ghost predicate Keeps(from: set<Actions>, records: seq<Entry>, stage: Stage)
      reads this`disk, this`passed
    {
      At(codec, disk, records, stage) && Through(codec, from, passed, records, stage)
    }

    constructor (codec: HistoryCodec, disk: Actions)
      ensures this.codec == codec && this.disk == disk && !failedClosed && !retainLock && passed == {} && !faulty
    {
      this.codec := codec;
      this.disk := disk;
      failedClosed := false;
      retainLock := false;
      passed := {};
      faulty := false;
    }

    /**
      A new process starts: after a kill at some state on what the disk shows, which it takes for durable, or after a power
      loss on what came back.
     */
    method Restart(ghost from: Actions, after: Actions)
      requires after == Taken(from) || Crashed(from, after)
      modifies this
      ensures disk == after && !failedClosed && !retainLock && passed == {after} && !faulty
    {
      faulty := false;
      disk := after;
      passed := {after};
      failedClosed := false;
      retainLock := false;
    }

    /** A new call: only the states passed from here on are of interest. A process that goes on takes for durable what it sees. */
    method Begin()
      modifies this`disk, this`passed, this`faulty
      ensures disk == Taken(old(disk)) && passed == {disk} && !faulty
    {
      disk := Taken(disk);
      passed, faulty := {disk}, false;
    }

    /** A process writes into a run's directory. */
    method Use(inode: nat)
      modifies this`disk, this`passed
      ensures disk == old(disk).(used := old(disk).used + {inode}) && passed == old(passed) + {disk}
    {
      disk := disk.(used := disk.used + {inode});
      passed := passed + {disk};
    }

    /** One system call that takes the disk to `next`; a failed one may have happened all the same. */
    method Attempt(next: Actions) returns (ok: bool)
      modifies this`disk, this`passed, this`faulty
      ensures disk == old(disk) || disk == next
      ensures ok ==> disk == next
      ensures passed == old(passed) + {disk} && faulty == (old(faulty) || !ok)
    {
      ok := *;
      faulty := faulty || !ok;
      var done: bool := *;
      if ok || done { disk := next; }
      passed := passed + {disk};
    }

    /** How much of a write went through. */
    method Wrote(size: nat) returns (ok: bool, k: nat)
      modifies this`faulty
      ensures k <= size && (ok ==> k == size) && faulty == (old(faulty) || !ok)
    {
      ok := *;
      faulty := faulty || !ok;
      k := size;
      if !ok { k :| 0 <= k <= size; }
    }

    /** A stat, a read back, or a check that a name still leads to the open file. */
    method Check() returns (ok: bool)
      modifies this`faulty
      ensures faulty == (old(faulty) || !ok)
    {
      ok := *;
      faulty := faulty || !ok;
    }

    method SyncNames(ghost records: seq<Entry>, ghost stage: Stage) returns (ok: bool)
      requires At(codec, disk, records, stage)
      modifies this`disk, this`passed, this`faulty
      ensures (old(faulty) ==> faulty) && (!ok ==> faulty)
      ensures Keeps(old(passed), records, stage)
      ensures disk == old(disk) || disk == NamesSynced(old(disk))
      ensures ok ==> disk == NamesSynced(old(disk))
    {
      NamesSyncKeeps(codec, disk, records, stage);
      ok := Attempt(NamesSynced(disk));
    }

    /** Sets the authority. `seen` is what the running process then reads, `durable` whether nothing failed. */
    method SetAuthority(next: RunAuthority, ghost records: seq<Entry>, ghost stage: Stage)
      returns (seen: Option<RunAuthority>, durable: bool)
      requires At(codec, disk, records, stage) && At(codec, Set(disk, next), records, stage)
      modifies this`disk, this`passed, this`faulty
      ensures old(faulty) ==> faulty
      ensures Keeps(old(passed), records, stage)
      ensures disk.history == old(disk.history) && disk.dir == old(disk.dir) && disk.used == old(disk.used)
      ensures disk.authority.live == next || disk == old(disk)
      ensures if seen.Some? then seen.value == disk.authority.live else faulty
      ensures (disk.authority.live != next || !durable) ==> faulty
      ensures durable ==> disk == RootSynced(Set(old(disk), next))
    {
      durable := Attempt(Set(disk, next));
      if durable {
        RootSyncKeeps(codec, disk, records, stage);
        durable := Attempt(RootSynced(disk));
      }
      var readable := Check();
      seen := if readable then Some(disk.authority.live) else None;
    }

    /** Moves the bound directory to its final name. */
    method MoveIntoPlace(r: Entry, ghost records: seq<Entry>) returns (ok: bool)
      requires At(codec, disk, records, Bound(r)) && STAGE in disk.dir.live
      modifies this`disk, this`passed, this`faulty
      ensures (old(faulty) ==> faulty) && (!ok ==> faulty)
      ensures Keeps(old(passed), records, Bound(r)) && disk == old(disk).(dir := disk.dir)
      ensures ok ==> disk.dir.may == {Directory(records + [r])}
    {
      Renamed(codec, disk, records, r);
      assert disk.dir.live == WithStage(records, r.inode);
      ok := Attempt(Moved(disk, (disk.dir.live - {STAGE})[r.key := r.inode]));
      if ok { ok := Check(); }
      if ok { ok := SyncNames(records, Bound(r)); }
    }

    /** Writes the bound run's line after the committed records and makes it durable. */
    method WriteRecord(r: Entry, ghost records: seq<Entry>) returns (ok: bool)
      requires At(codec, disk, records, Bound(r)) && disk.history.live == Lines(codec, records)
      modifies this`disk, this`passed, this`faulty
      ensures (old(faulty) ==> faulty) && (!ok ==> faulty)
      ensures Keeps(old(passed), records, Bound(r)) && disk == old(disk).(history := disk.history)
      ensures ok ==> disk.history.live == Lines(codec, records + [r])
    {
      var line := codec.encode(r) + [NEWLINE];
      var k;
      ok, k := Wrote(|line|);
      WrittenBetween(codec, disk.history, records, r, line[..k]);
      HistoryKeeps(codec, disk, records, r, Appended(disk.history, line[..k]));
      disk := disk.(history := Appended(disk.history, line[..k]));
      passed := passed + {disk};
      if ok {
        assert line[..k] == line;
        LinesOneMore(codec, records, r);
      }
    }

    method SyncHistory(r: Entry, ghost records: seq<Entry>) returns (ok: bool)
      requires At(codec, disk, records, Bound(r))
      modifies this`disk, this`passed, this`faulty
      ensures (old(faulty) ==> faulty) && (!ok ==> faulty)
      ensures Keeps(old(passed), records, Bound(r)) && disk == old(disk).(history := disk.history)
      ensures ok ==> disk.history == Durable(old(disk).history.live)
    {
      HistoryKeeps(codec, disk, records, r, Durable(disk.history.live));
      ok := Attempt(disk.(history := Durable(disk.history.live)));
      if ok { ok := Check(); }
    }

    /** Completes the history of a bound run, whatever part of its line is there. */
    method CompleteHistory(committed: nat, r: Entry, ghost records: seq<Entry>) returns (ok: bool)
      requires At(codec, disk, records, Bound(r)) && committed == |Lines(codec, records)|
      modifies this`disk, this`passed, this`faulty
      ensures (old(faulty) ==> faulty) && (!ok ==> faulty)
      ensures Keeps(old(passed), records, Bound(r)) && disk == old(disk).(history := disk.history)
      ensures ok ==> disk.history == Durable(Lines(codec, records + [r]))
    {
      ok := true;
      LinesOneMore(codec, records, r);
      var history := disk.history;
      TailOf(Lines(codec, records), codec.encode(r) + [NEWLINE], history.live);
      if history.live[committed..] != codec.encode(r) + [NEWLINE] {
        assert history.live[..committed] == Lines(codec, records);
        HistoryKeeps(codec, disk, records, r, Changed(history, history.live[..committed]));
        ok := Attempt(disk.(history := Changed(history, history.live[..committed])));
        if !ok { return; }
        ok := WriteRecord(r, records);
        if !ok { return; }
      } else {
        assert history.live == Lines(codec, records) + history.live[committed..];
      }
      ok := SyncHistory(r, records);
    }

    /** Advances the authority over a run whose name and record are durable. */
    method Finish(r: Entry, ghost records: seq<Entry>) returns (seen: Option<RunAuthority>, ok: bool)
      requires At(codec, disk, records, Bound(r))
      requires disk.history.may == {Lines(codec, records + [r])} && disk.dir.may == {Directory(records + [r])}
      modifies this`disk, this`passed, this`faulty
      ensures (old(faulty) ==> faulty) && (!ok ==> faulty)
      ensures Keeps(old(passed), records, Finishing(r)) && disk.dir == old(disk).dir
      ensures if seen.Some? then seen.value == disk.authority.live else faulty
      ensures ok ==> At(codec, disk, records + [r], Idle)
    {
      ReadyToFinish(codec, disk, records, r);
      LinesOneMore(codec, records, r);
      seen, ok := SetAuthority(Established(r.sequence, codec.digest(codec.encode(r))), records, Finishing(r));
      if ok { Settled(codec, disk, records, Finishing(r)); }
    }

    // ----- recovery -----

    /** Completes a registration the authority had bound. */
    method RecoverPrepared(committed: nat, r: Entry, ghost records: seq<Entry>) returns (ok: bool)
      requires Ready(codec, disk, records, Bound(r)) && committed == |Lines(codec, records)|
      modifies this`disk, this`passed, this`faulty
      ensures (old(faulty) ==> faulty) && (!ok ==> faulty)
      ensures AlongThrough(codec, old(passed), passed, records, Some(r)) && Along(codec, disk, records, Some(r))
      ensures ok ==> At(codec, disk, records + [r], Idle) && disk.dir == Durable(Directory(records + [r]))
    {
      ok := true;
      ghost var start := passed;
      InPlace(codec, disk, records, r);
      if STAGE in disk.dir.live {
        ok := MoveIntoPlace(r, records);
      }
      if ok { ok := CompleteHistory(committed, r, records); }
      AlongStep(codec, start, start, passed, records, Some(r), Bound(r));
      if !ok { return; }
      ghost var bound := passed;
      var seen;
      seen, ok := Finish(r, records);
      AlongStep(codec, start, bound, passed, records, Some(r), Finishing(r));
      ok := ok && seen.Some?;
    }

    /** Drops a directory left under the private name and bound to no run. */
    method RemoveUnboundStage(ghost records: seq<Entry>, ghost stage: Stage) returns (ok: bool)
      requires At(codec, disk, records, stage) && (stage.Idle? || stage.Legacy?)
      modifies this`disk, this`passed, this`faulty
      ensures (old(faulty) ==> faulty) && (!ok ==> faulty)
      ensures Keeps(old(passed), records, stage) && disk == old(disk).(dir := disk.dir)
      ensures ok ==> disk.dir.live == Directory(records + RecordOf(stage))
    {
      ok := true;
      UnstageKeeps(codec, disk, records, stage);
      if STAGE in disk.dir.live {
        ok := Attempt(Moved(disk, disk.dir.live - {STAGE}));
        if ok { ok := SyncNames(records, stage); }
      } else {
        NamesClear(codec, disk, records, stage);
      }
    }

    /** Takes in the whole record an older writer appended before the authority counted it. */
    method CompleteLegacy(r: Entry, ghost records: seq<Entry>) returns (ok: bool)
      requires At(codec, disk, records, Legacy(r))
      modifies this`disk, this`passed, this`faulty
      ensures (old(faulty) ==> faulty) && (!ok ==> faulty)
      ensures Through(codec, old(passed), passed, records, Legacy(r)) && At(codec, disk, records, Legacy(r))
      ensures disk.dir == old(disk).dir
      ensures ok ==> At(codec, disk, records + [r], Idle)
    {
      LegacyAdvances(codec, disk, records, r);
      LinesOneMore(codec, records, r);
      var seen;
      seen, ok := SetAuthority(Established(r.sequence, codec.digest(codec.encode(r))), records, Legacy(r));
      if ok { Settled(codec, disk, records, Legacy(r)); }
      ok := ok && seen.Some?;
    }

    /** Reconciles a disk whose authority has bound a run to its directory. */
    method ReconcileBound(ghost records: seq<Entry>, ghost bound: Entry) returns (answer: Answer, runs: seq<Entry>)
      requires CanonicalRuns(codec) && Ready(codec, disk, records, Bound(bound))
      modifies this`disk, this`passed, this`faulty
      ensures old(faulty) ==> faulty
      ensures AlongThrough(codec, old(passed), passed, records, Some(bound)) && Along(codec, disk, records, Some(bound))
      ensures answer == Done || (answer == Failed && faulty)
      ensures answer == Done ==> runs == records + [bound] && At(codec, disk, runs, Idle) && disk.dir.live == Directory(runs)
    {
      answer, runs := Refused, [];
      PreparedIsSound(codec, disk, records, bound);
      var loaded, r := LoadRuns(codec, disk), disk.authority.live.record;
      if loaded.Some? && PreparedSound(codec, disk, loaded.value.0, loaded.value.1, r) {
        var ok := RecoverPrepared(loaded.value.1, r, records);
        runs := loaded.value.0 + [r];
        answer := if ok then Done else Failed;
      }
    }

    /** Reconciles a disk whose authority has bound nothing: a stage goes, a whole record beyond the authority is taken in. */
    method ReconcileUnbound(ghost records: seq<Entry>, ghost stage: Stage) returns (answer: Answer, runs: seq<Entry>)
      requires CanonicalRuns(codec) && Ready(codec, disk, records, stage) && !stage.Bound?
      modifies this`disk, this`passed, this`faulty
      ensures old(faulty) ==> faulty
      ensures var r := if stage.Legacy? then Some(stage.r) else None;
              AlongThrough(codec, old(passed), passed, records, r) && Along(codec, disk, records, r)
      ensures answer == Done || (answer == Failed && faulty)
      ensures answer == Done ==> runs == records + RecordOf(stage) && At(codec, disk, runs, Idle)
                                 && disk.dir.live == Directory(runs)
    {
      answer, runs := Refused, [];
      ghost var found := if stage.Legacy? then Some(stage.r) else None;
      LoadsUnbound(codec, disk, records, stage);
      var loaded := LoadRuns(codec, disk);
      var ok := RemoveUnboundStage(records, stage);
      AlongStep(codec, old(passed), old(passed), passed, records, found, stage);
      if !ok { return Failed, []; }
      if loaded.Some? {
        var tail := disk.history.live[loaded.value.1..];
        if tail == [] {
          answer, runs := Done, loaded.value.0;
        } else if LegacySound(codec, disk, loaded.value.0, tail) {
          ghost var cleared := passed;
          var r := codec.decode(tail[..|tail| - 1]).value;
          ok := CompleteLegacy(r, records);
          AlongStep(codec, old(passed), cleared, passed, records, found, stage);
          answer, runs := if ok then Done else Failed, loaded.value.0 + [r];
        }
      }
    }

    // ----- registration -----

    /** Drops the stage of a registration that bound nothing, or stops the journal. */
    method CleanUpStage(inode: nat, ghost records: seq<Entry>)
      requires At(codec, disk, records, Idle) && disk.dir.live == WithStage(records, inode)
      modifies this
      ensures old(faulty) ==> faulty
      ensures Keeps(old(passed), records, Idle)
      ensures (old(failedClosed) == old(retainLock) ==> failedClosed == retainLock) && (failedClosed ==> old(failedClosed) || faulty)
    {
      assert records + [] == records;
      NoStage(records);
      DropName(Directory(records), STAGE, inode);
      StageKeeps(codec, disk, records, Idle, disk.dir.live - {STAGE});
      var checked := Check();
      var removed := true;
      if checked { removed := Attempt(Moved(disk, disk.dir.live - {STAGE})); }
      var synced := SyncNames(records, Idle);
      if !checked || !removed || !synced {
        failedClosed := true;
        retainLock := true;
      }
    }

    /** Makes a new directory under the private name, durably. */
    method MakeStage(ghost records: seq<Entry>) returns (made: bool, ok: bool)
      requires At(codec, disk, records, Idle) && disk.dir.live == Directory(records)
      modifies this`disk, this`passed, this`faulty
      ensures (old(faulty) ==> faulty) && (!ok ==> faulty)
      ensures Keeps(old(passed), records, Idle)
      ensures disk.history == old(disk).history && disk.authority == old(disk).authority && disk.used == old(disk).used
      ensures !made ==> faulty
      ensures made ==> disk.dir.live == WithStage(records, old(disk).next) && old(disk).next < disk.next
      ensures ok ==> made && disk.dir.may == {WithStage(records, old(disk).next)}
    {
      ok := false;
      NextUnused(codec, disk, records);
      StageMade(codec, disk, records);
      made := Attempt(Moved(disk.(next := disk.next + 1), disk.dir.live[STAGE := disk.next]));
      if made {
        made := Check();
        if made { ok := SyncNames(records, Idle); }
      }
    }

    /** Binds the staged directory to the run. On failure the stage is dropped unless the authority may name it. */
    method Bind(r: Entry, ghost records: seq<Entry>) returns (ok: bool)
      requires At(codec, disk, records, Idle) && Candidate(codec, disk, records, r) && disk.dir.may == {WithStage(records, r.inode)}
      requires failedClosed == retainLock
      modifies this
      ensures (old(faulty) ==> faulty) && (!ok ==> faulty)
      ensures AlongThrough(codec, old(passed), passed, records, Some(r)) && Along(codec, disk, records, Some(r))
      ensures failedClosed == retainLock && (failedClosed ==> old(failedClosed) || faulty)
      ensures ok ==> failedClosed == old(failedClosed) && At(codec, disk, records, Bound(r))
                     && disk.history == old(disk).history && disk.dir == old(disk).dir
    {
      ReadyToBind(codec, disk, records, r);
      var prior := disk.authority.live;
      var next := Prepared(prior.count, prior.digest, r);
      var seen;
      seen, ok := SetAuthority(next, records, Preparing(r));
      AlongStep(codec, old(passed), old(passed), passed, records, Some(r), Preparing(r));
      assert Along(codec, disk, records, Some(r)) by { assert RecordOf(Preparing(r)) == [r]; }
      if seen == Some(next) {
        if ok { BoundNow(codec, disk, records, r); }
      } else if seen == Some(prior) && !ok {
        Unbound(codec, disk, records, r);
        ghost var before := passed;
        CleanUpStage(r.inode, records);
        AlongStep(codec, old(passed), before, passed, records, Some(r), Idle);
      } else {
        ok := false;
        failedClosed := true;
        retainLock := true;
      }
    }

    /** Moves the bound directory into place, writes its record and advances the authority. */
    method Complete(r: Entry, ghost records: seq<Entry>) returns (ok: bool)
      requires At(codec, disk, records, Bound(r)) && disk.history.live == Lines(codec, records) && STAGE in disk.dir.live
      requires failedClosed == retainLock
      modifies this
      ensures (old(faulty) ==> faulty) && (!ok ==> faulty)
      ensures AlongThrough(codec, old(passed), passed, records, Some(r)) && Along(codec, disk, records, Some(r))
      ensures failedClosed == retainLock && (failedClosed ==> old(failedClosed) || faulty)
      ensures ok ==> failedClosed == old(failedClosed) && At(codec, disk, records + [r], Idle)
                     && disk.dir == Durable(Directory(records + [r]))
    {
      var prepared := disk.authority.live;
      ok := MoveIntoPlace(r, records);
      if ok { ok := WriteRecord(r, records); }
      if ok { ok := SyncHistory(r, records); }
      AlongStep(codec, old(passed), old(passed), passed, records, Some(r), Bound(r));
      assert Along(codec, disk, records, Some(r)) by { assert RecordOf(Bound(r)) == [r]; }
      if !ok { return; }
      ghost var bound := passed;
      var seen;
      seen, ok := Finish(r, records);
      AlongStep(codec, old(passed), bound, passed, records, Some(r), Finishing(r));
      assert Along(codec, disk, records, Some(r)) by { assert RecordOf(Finishing(r)) == [r]; }
      if seen == None {
        ok := false;
        failedClosed := true;
        retainLock := true;
      }
    }

    /** Registers a run that no record mentions. */
    method Register(key: string, value: string, runs: seq<Entry>, ghost records: seq<Entry>)
      returns (answer: Answer, ghost r: Entry)
      requires At(codec, disk, records, Idle) && runs == records && disk.dir.live == Directory(records)
      requires key != STAGE && failedClosed == retainLock
      modifies this
      ensures old(faulty) ==> faulty
      ensures r.key == key && r.value == value
      ensures failedClosed == retainLock && answer != Refused && (answer == Failed ==> faulty)
      ensures failedClosed ==> old(failedClosed) || faulty
      ensures AlongThrough(codec, old(passed), passed, records, Some(r)) && Along(codec, disk, records, Some(r))
      ensures answer == Done ==> At(codec, disk, records + [r], Idle) && disk.dir == Durable(Directory(records + [r]))
                                 && failedClosed == old(failedClosed)
      ensures answer == AlreadyRegistered ==> Find(records, key).Some?
      ensures answer == Exhausted ==> |records| == MAX_JOURNAL_RUNS
      ensures answer == TooLong ==> |codec.encode(r)| > codec.maxLine && At(codec, disk, records, Idle)
      ensures answer == AlreadyRegistered || answer == Exhausted ==> disk == old(disk) && failedClosed == old(failedClosed)
    {
      var record := Entry(|runs| + 1, FinalDigest(codec, runs), key, value, disk.next);
      r := record;
      if |runs| >= MAX_JOURNAL_RUNS { return Exhausted, r; }
      if Find(runs, key).Some? { return AlreadyRegistered, r; }
      answer := Refused;
      DirectoryIs(records, key);
      NoStage(records);
      if key !in disk.dir.live && STAGE !in disk.dir.live {
        FindIs(records, key);
        LinesOneMore(codec, records, r);
        answer := Failed;
        var made, ok := MakeStage(records);
        AlongStep(codec, old(passed), old(passed), passed, records, Some(r), Idle);
        if !made { return; }
        ghost var staged := passed;
        if !ok {
          CleanUpStage(record.inode, records);
          AlongStep(codec, old(passed), staged, passed, records, Some(r), Idle);
          return;
        }
        if |codec.encode(record)| > codec.maxLine {
          CleanUpStage(record.inode, records);
          AlongStep(codec, old(passed), staged, passed, records, Some(r), Idle);
          return TooLong, r;
        }
        ok := Bind(record, records);
        AlongJoin(codec, old(passed), staged, passed, records, r);
        if !ok { return; }
        ghost var bound := passed;
        ok := Complete(record, records);
        AlongJoin(codec, old(passed), bound, passed, records, r);
        answer := if ok then Done else Failed;
      }
    }
  }
}
