/**
  Appending one line to a run's journal under a rollback marker. Every disk operation may fail, and a crash may come
  between any two of them or inside one.
 */
module AppendProtocol {
  import opened Results
  import opened ByteLines
  import opened Journal
  import opened JournalTheorems
  import opened AppendDisk

  /** Every state an append passes through: at rest, armed, or committing. */
  ghost predicate Safe(m: MarkerCodec, d: Disk, base: seq<seq<byte>>, p: Pending, line: seq<byte>) {
    Settled(m, d, base) || Committing(m, d, base, p, line)
  }

  /** Every state `now` has beyond `from` is in the phase. */
  ghost predicate Through(m: MarkerCodec, from: set<Disk>, now: set<Disk>, base: seq<seq<byte>>, phase: Phase) {
    from <= now && forall d :: d in now && d !in from ==> In(m, d, base, phase)
  }

  ghost predicate SafeThrough(m: MarkerCodec, from: set<Disk>, now: set<Disk>, base: seq<seq<byte>>, p: Pending, line: seq<byte>) {
    from <= now && forall d :: d in now && d !in from ==> Safe(m, d, base, p, line)
  }

  ghost predicate SettledThrough(m: MarkerCodec, from: set<Disk>, now: set<Disk>, base: seq<seq<byte>>) {
    from <= now && forall d :: d in now && d !in from ==> Settled(m, d, base)
  }

  /** The journal, or, where the last commit was not decided durably, the phase it left. */
  ghost predicate Stands(m: MarkerCodec, d: Disk, base: seq<seq<byte>>, start: Phase) {
    Settled(m, d, base) || In(m, d, base, start)
  }

  ghost predicate StandsThrough(m: MarkerCodec, from: set<Disk>, now: set<Disk>, base: seq<seq<byte>>, start: Phase) {
    from <= now && forall d :: d in now && d !in from ==> Stands(m, d, base, start)
  }

  /** Every state an append passes through from such a start. */
  ghost predicate SafeFrom(m: MarkerCodec, d: Disk, base: seq<seq<byte>>, start: Phase, p: Pending, line: seq<byte>) {
    Stands(m, d, base, start) || Committing(m, d, base, p, line)
  }

  ghost predicate SafeFromThrough(m: MarkerCodec, from: set<Disk>, now: set<Disk>, base: seq<seq<byte>>, start: Phase, p: Pending,
                                  line: seq<byte>)
  {
    from <= now && forall d :: d in now && d !in from ==> SafeFrom(m, d, base, start, p, line)
  }

  lemma StandsStep(m: MarkerCodec, a: set<Disk>, b: set<Disk>, c: set<Disk>, base: seq<seq<byte>>, start: Phase, phase: Phase)
    requires StandsThrough(m, a, b, base, start) && Through(m, b, c, base, phase)
    requires phase == start || phase.AtRest? || phase.Intent?
    ensures StandsThrough(m, a, c, base, start)
  {
    forall d | d in c && d !in a ensures Stands(m, d, base, start) {
      if d !in b { assert In(m, d, base, phase); }
    }
  }

  lemma StandsIsSafe(m: MarkerCodec, a: set<Disk>, b: set<Disk>, c: set<Disk>, base: seq<seq<byte>>, start: Phase, p: Pending,
                     line: seq<byte>)
    requires StandsThrough(m, a, b, base, start) && SafeThrough(m, b, c, base, p, line)
    ensures SafeFromThrough(m, a, c, base, start, p, line)
  {
    forall d | d in c && d !in a ensures SafeFrom(m, d, base, start, p, line) {
      if d !in b { assert Safe(m, d, base, p, line); }
    }
  }

  lemma SettledStep(m: MarkerCodec, a: set<Disk>, b: set<Disk>, c: set<Disk>, base: seq<seq<byte>>, phase: Phase)
    requires SettledThrough(m, a, b, base) && Through(m, b, c, base, phase) && (phase.AtRest? || phase.Intent?)
    ensures SettledThrough(m, a, c, base)
  {
    forall d | d in c && d !in a ensures Settled(m, d, base) {
      if d !in b { assert In(m, d, base, phase); }
    }
  }

  lemma SafeStep(m: MarkerCodec, a: set<Disk>, b: set<Disk>, c: set<Disk>, base: seq<seq<byte>>, p: Pending, line: seq<byte>, phase: Phase)
    requires SafeThrough(m, a, b, base, p, line) && Through(m, b, c, base, phase)
    requires !phase.Doubt? && (phase.Commit? ==> phase == Commit(p, line))
    ensures SafeThrough(m, a, c, base, p, line)
  {
    forall d | d in c && d !in a ensures Safe(m, d, base, p, line) {
      if d !in b { assert In(m, d, base, phase); }
    }
  }

  /** The live marker is one that recovery refuses. */
  predicate TornMarker(m: MarkerCodec, d: Disk) {
    d.marker.live.Some? && m.decode(d.marker.live.value.data) == None
  }

  /**
    A run directory held under the action lock. `passed` collects every disk state that a request passes, so that a crash may
    be placed at any of them; `faulty` says that some system call has failed since the request began.
   */
  class RunDirectory {
    const markers: MarkerCodec
    var disk: Disk
    var nextInode: nat
    var failedClosed: bool
    var retainLock: bool
    var passed: set<Disk>
    ghost var faulty: bool

    ghost predicate Valid()
      reads this`disk, this`nextInode
    {
      WellFormed(disk, nextInode) && Framed(markers)
    }

    /** Valid, in the phase, and every state since `from` was in the phase. */
    ghost predicate Keeps(from: set<Disk>, base: seq<seq<byte>>, phase: Phase)
      reads this`disk, this`nextInode, this`passed
    {
      Valid() && In(markers, disk, base, phase) && Through(markers, from, passed, base, phase)
    }

    constructor (markers: MarkerCodec, disk: Disk, nextInode: nat)
      requires WellFormed(disk, nextInode) && Framed(markers)
      ensures Valid() && this.markers == markers && this.disk == disk && !failedClosed && !retainLock && passed == {} && !faulty
    {
      this.markers := markers;
      this.disk := disk;
      this.nextInode := nextInode;
      failedClosed := false;
      retainLock := false;
      passed := {};
      faulty := false;
    }

    // Primitives. Each may fail; a failed one may still have happened, wholly or in part.

    method Create(name: Name) returns (ok: bool)
      requires Named(disk, name) && Get(disk, name).live == None
      modifies this`disk, this`nextInode, this`passed, this`faulty
      ensures nextInode == old(nextInode) + 1
      ensures disk == old(disk) || disk == Put(old(disk), name, CreatedSlot(Get(old(disk), name), old(nextInode)))
      ensures ok ==> disk == Put(old(disk), name, CreatedSlot(Get(old(disk), name), old(nextInode)))
      ensures passed == old(passed) + {disk} && faulty == (old(faulty) || !ok)
    {
      ok := *;
      faulty := faulty || !ok;
      var done: bool := *;
      if ok || done { disk := Put(disk, name, CreatedSlot(Get(disk, name), nextInode)); }
      nextInode := nextInode + 1;
      passed := passed + {disk};
    }

    method Write(name: Name, bytes: seq<byte>) returns (ok: bool, ghost written: nat)
      requires Named(disk, name) && Get(disk, name).live.Some?
      modifies this`disk, this`passed, this`faulty
      ensures written <= |bytes| && (ok ==> written == |bytes|)
      ensures disk == Put(old(disk), name, WrittenSlot(Get(old(disk), name), bytes[..written]))
      ensures passed == old(passed) + {disk} && faulty == (old(faulty) || !ok)
    {
      ok := *;
      faulty := faulty || !ok;
      var done := |bytes|;
      if !ok { done :| 0 <= done <= |bytes|; }
      disk := Put(disk, name, WrittenSlot(Get(disk, name), bytes[..done]));
      written := done;
      passed := passed + {disk};
    }

    method SyncFile(name: Name) returns (ok: bool)
      requires Named(disk, name) && Get(disk, name).live.Some?
      modifies this`disk, this`passed, this`faulty
      ensures disk == if ok then Put(old(disk), name, FileSyncedSlot(Get(old(disk), name))) else old(disk)
      ensures passed == old(passed) + {disk} && faulty == (old(faulty) || !ok)
    {
      ok := *;
      faulty := faulty || !ok;
      if ok { disk := Put(disk, name, FileSyncedSlot(Get(disk, name))); }
      passed := passed + {disk};
    }

    method SyncDir() returns (ok: bool)
      requires WellFormed(disk, nextInode)
      modifies this`disk, this`passed, this`faulty
      ensures WellFormed(disk, nextInode) && Narrows(disk, old(disk))
      ensures ok ==> disk == DirSynced(old(disk))
      ensures passed == old(passed) + {disk} && faulty == (old(faulty) || !ok)
    {
      ok := *;
      faulty := faulty || !ok;
      SyncNarrows(disk, nextInode);
      if ok { disk := DirSynced(disk); }
      passed := passed + {disk};
    }

    method Truncate(name: Name, size: nat) returns (ok: bool)
      requires Named(disk, name) && Get(disk, name).live.Some? && size <= |Get(disk, name).live.value.data|
      modifies this`disk, this`passed, this`faulty
      ensures disk == old(disk) || disk == Put(old(disk), name, TruncatedSlot(Get(old(disk), name), size))
      ensures ok ==> disk == Put(old(disk), name, TruncatedSlot(Get(old(disk), name), size))
      ensures passed == old(passed) + {disk} && faulty == (old(faulty) || !ok)
    {
      ok := *;
      faulty := faulty || !ok;
      var done: bool := *;
      if ok || done { disk := Put(disk, name, TruncatedSlot(Get(disk, name), size)); }
      passed := passed + {disk};
    }

    method Remove(name: Name) returns (ok: bool)
      requires Named(disk, name)
      modifies this`disk, this`passed, this`faulty
      ensures disk == old(disk) || disk == Put(old(disk), name, RemovedSlot(Get(old(disk), name)))
      ensures ok ==> disk == Put(old(disk), name, RemovedSlot(Get(old(disk), name)))
      ensures passed == old(passed) + {disk} && faulty == (old(faulty) || !ok)
    {
      ok := *;
      faulty := faulty || !ok;
      var done: bool := *;
      if ok || done { disk := Put(disk, name, RemovedSlot(Get(disk, name))); }
      passed := passed + {disk};
    }

    /** A stat, a read back, or a check that the name still leads to the open file. */
    method Check() returns (ok: bool)
      modifies this`faulty
      ensures faulty == (old(faulty) || !ok)
    {
      ok := *;
      faulty := faulty || !ok;
    }

    /** A new request: only the disk states passed from here on are of interest. */
    method Begin()
      modifies this`passed, this`faulty
      ensures passed == {disk} && !faulty
    {
      passed, faulty := {disk}, false;
    }

    /**
      The process is killed and a new one starts: the disk stays as it is, with whatever is not synced. (A process killed
      inside a call leaves the disk as one does whose remaining system calls all fail and change nothing.)
     */
    method Kill()
      requires Valid()
      modifies this`failedClosed, this`retainLock, this`passed, this`faulty
      ensures Valid() && !failedClosed && !retainLock && passed == {disk} && !faulty
    {
      failedClosed, retainLock, faulty := false, false, false;
      passed := {disk};
    }

    /** A new process starts on what a power loss at `before` left. */
    method Restart(ghost before: Disk, after: Disk)
      requires Framed(markers) && Crashed(before, after) && |before.segments| == MAX_JOURNAL_EPOCHS
      modifies this
      ensures Valid() && disk == after && !failedClosed && !retainLock && passed == {after} && !faulty
    {
      faulty := false;
      disk := after;
      passed := {after};
      nextInode := UnusedInode(after.segments) + InodeIn(after.marker) + 1;
      failedClosed := false;
      retainLock := false;
      CrashWellFormed(before, after, nextInode);
    }

    // ----- steps on the marker, in any phase but Intent -----

    /** Creates the marker and fills it; on failure it may be left torn. */
    method FillMarker(p: Pending, ghost base: seq<seq<byte>>, ghost phase: Phase) returns (created: bool, ok: bool)
      requires Valid() && Proper(base, p) && In(markers, disk, base, phase) && !phase.Intent? && For(phase, p)
      requires disk.marker.live == None
      modifies this`disk, this`nextInode, this`passed, this`faulty
      ensures (old(faulty) ==> faulty) && (!ok ==> faulty)
      ensures Keeps(old(passed), base, phase) && disk.segments == old(disk.segments)
      ensures ok ==> created && disk.marker.live.Some? && disk.marker.live.value.data == markers.encode(p)
    {
      var data := markers.encode(p);
      MarkerVersions(markers, disk.marker, nextInode, p, 0);
      MarkerKeeps(markers, disk, CreatedSlot(disk.marker, nextInode), base, phase, p);
      created := Create(Marker);
      ok := false;
      if created {
        ghost var k: nat;
        ok, k := Write(Marker, data);
        MarkerVersions(markers, old(disk.marker), old(nextInode), p, k);
        MarkerKeeps(markers, old(disk), disk.marker, base, phase, p);
        assert ok ==> [] + data[..k] == data;
      }
    }

    /** Syncs the marker's bytes and checks them. */
    method SyncMarker(ghost base: seq<seq<byte>>, ghost phase: Phase) returns (ok: bool)
      requires Valid() && In(markers, disk, base, phase) && disk.marker.live.Some?
      modifies this`disk, this`passed, this`faulty
      ensures (old(faulty) ==> faulty) && (!ok ==> faulty)
      ensures Keeps(old(passed), base, phase) && disk.segments == old(disk.segments)
      ensures disk.marker.live == old(disk.marker.live)
      ensures ok ==> disk.marker == FileSyncedSlot(old(disk.marker))
    {
      NarrowKeeps(markers, disk, disk.(marker := FileSyncedSlot(disk.marker)), base, phase);
      ok := SyncFile(Marker);
      if ok { ok := Check(); }
    }

    method SyncNames(ghost base: seq<seq<byte>>, ghost phase: Phase) returns (ok: bool)
      requires Valid() && In(markers, disk, base, phase)
      modifies this`disk, this`passed, this`faulty
      ensures (old(faulty) ==> faulty) && (!ok ==> faulty)
      ensures Keeps(old(passed), base, phase) && Narrows(disk, old(disk))
      ensures ok ==> disk == DirSynced(old(disk))
    {
      ok := SyncDir();
      NarrowKeeps(markers, old(disk), disk, base, phase);
    }

    /** Removes the marker; the phase must not rest on it. */
    method DropMarker(ghost base: seq<seq<byte>>, ghost phase: Phase) returns (ok: bool)
      requires Valid() && In(markers, disk, base, phase) && !phase.Intent?
      modifies this`disk, this`passed, this`faulty
      ensures (old(faulty) ==> faulty) && (!ok ==> faulty)
      ensures Keeps(old(passed), base, phase) && Narrows(disk.(marker := old(disk).marker), old(disk))
      ensures ok ==> disk == DirSynced(Put(old(disk), Marker, RemovedSlot(old(disk).marker)))
    {
      var removed := Remove(Marker);
      assert In(markers, disk, base, phase);
      ok := removed;
      if removed { ok := SyncNames(base, phase); }
    }

    /** Removes a marker that could not be completed; the directory is synced even when the removal fails. */
    method CleanUpMarker(ghost base: seq<seq<byte>>, ghost phase: Phase)
      requires Valid() && In(markers, disk, base, phase) && !phase.Intent?
      modifies this`disk, this`passed, this`faulty
      ensures old(faulty) ==> faulty
      ensures Keeps(old(passed), base, phase)
    {
      var removed := Remove(Marker);
      assert In(markers, disk, base, phase);
      var synced := SyncNames(base, phase);
    }

    /**
      The process goes on to a later segment, and never syncs those it leaves behind: what it sees of them is taken for
      durable from here on.
     */
    method LeaveBehind(epoch: nat, ghost base: seq<seq<byte>>, ghost start: Phase)
      requires Valid() && Stands(markers, disk, base, start)
      modifies this`disk
      ensures Valid() && Stands(markers, disk, base, start) && SameLive(disk, old(disk)) && disk.marker == old(disk.marker)
      ensures Settled(markers, old(disk), base) ==> Settled(markers, disk, base)
      ensures (start.Commit? && In(markers, old(disk), base, start) && LiveRests(disk, base, start.p) && start.p.epoch < epoch)
              ==> Harmless(markers, disk, base)
    {
      ghost var before, phase := disk, start;
      if Settled(markers, disk, base) {
        if Harmless(markers, disk, base) {
          phase := AtRest;
        } else {
          var p :| Armed(markers, disk, base, p);
          phase := Intent(p);
        }
      }
      disk := LeftBehind(disk, epoch);
      LeavesLess(markers, before, nextInode, epoch, base, phase);
      if start.Commit? && In(markers, before, base, start) && LiveRests(disk, base, start.p) && start.p.epoch < epoch {
        LeavesLess(markers, before, nextInode, epoch, base, start);
        LeftDecided(markers, disk, base, start.p, start.line);
      }
    }

    // ----- rollback -----

    /** Cuts the segment back to the marker's size. */
    method RollbackPendingAppend(p: Pending, allowMissing: bool, ghost base: seq<seq<byte>>, ghost phase: Phase) returns (ok: bool)
      requires Valid() && Proper(base, p) && For(phase, p) && In(markers, disk, base, phase)
      modifies this`disk, this`passed, this`faulty
      ensures (old(faulty) ==> faulty) && (!ok ==> faulty || !allowMissing)
      ensures Keeps(old(passed), base, phase) && disk.marker == old(disk.marker)
      ensures ok && !phase.Doubt? ==> Harmless(markers, disk, base)
    {
      var name := SegmentFile(p.epoch);
      var slot := Get(disk, name);
      PhaseSuits(markers, disk, base, phase, p);
      assert SegmentSlot(slot, nextInode);
      LiveSuits(base, phase, p, Data(slot.live));
      if slot.live == None {
        ok := p.size == 0 && allowMissing;
        if ok && !phase.Doubt? {
          CutBack(markers, disk, base, phase, p);
        }
        return;
      }
      ok := Check();
      if !ok || |slot.live.value.data| < p.size { return false; }
      ok := CutSegment(p, base, phase);
    }

    /** Truncates the segment to the marker's size, and makes that durable. */
    method CutSegment(p: Pending, ghost base: seq<seq<byte>>, ghost phase: Phase) returns (ok: bool)
      requires Valid() && Proper(base, p) && For(phase, p) && In(markers, disk, base, phase)
      requires var live := Get(disk, SegmentFile(p.epoch)).live; live.Some? && p.size <= |live.value.data|
      modifies this`disk, this`passed, this`faulty
      ensures (old(faulty) ==> faulty) && (!ok ==> faulty)
      ensures Keeps(old(passed), base, phase) && disk.marker == old(disk.marker)
      ensures ok && !phase.Doubt? ==> Harmless(markers, disk, base)
    {
      var name := SegmentFile(p.epoch);
      ghost var slot := Get(disk, name);
      PhaseSuits(markers, disk, base, phase, p);
      assert SegmentSlot(slot, nextInode);
      ghost var cut := TruncatedSlot(slot, p.size);
      CutSlot(base, phase, p, slot, nextInode);
      SegmentKeeps(markers, disk, cut, base, phase, p);
      ok := Truncate(name, p.size);
      if ok {
        SegmentKeeps(markers, disk, FileSyncedSlot(cut), base, phase, p);
        ok := SyncFile(name);
        if ok {
          if !phase.Doubt? { CutBack(markers, disk, base, phase, p); }
          ok := Check();
        }
      }
    }

    /** The marker found is one this phase can consume. */
    ghost predicate Consumable(base: seq<seq<byte>>, phase: Phase)
      reads this`disk
    {
      disk.marker.live.Some? && markers.decode(disk.marker.live.value.data).Some? ==>
        var q := markers.decode(disk.marker.live.value.data).value;
        Proper(base, q) && For(phase, q)
    }

    /** Consumes the marker, if there is one; nothing else it does matters. */
    method ConsumeMarker(ghost base: seq<seq<byte>>, ghost phase: Phase) returns (ok: bool)
      requires Valid() && In(markers, disk, base, phase) && Consumable(base, phase) && (phase.Intent? ==> disk.marker.live.Some?)
      modifies this`disk, this`passed, this`faulty
      ensures (old(faulty) ==> faulty) && (!ok ==> faulty || TornMarker(markers, old(disk)))
      ensures Valid() && (In(markers, disk, base, phase) || Harmless(markers, disk, base))
      ensures old(passed) <= passed && forall d :: d in passed && d !in old(passed) ==> In(markers, d, base, phase) || Harmless(markers, d, base)
      ensures ok ==> disk.marker.live == None
      ensures ok && old(disk.marker.live).Some? ==> Harmless(markers, disk, base)
      ensures old(disk.marker.live) == None ==> ok && disk == old(disk)
    {
      if disk.marker.live == None { return true; }
      ok := Check();
      if !ok || markers.decode(disk.marker.live.value.data) == None { return false; }
      var q := markers.decode(disk.marker.live.value.data).value;
      ok := RollbackPendingAppend(q, true, base, phase);
      if ok {
        ghost var rest := if phase.Doubt? then phase else AtRest;
        ok := DropMarker(base, rest);
        if ok && phase.Doubt? { DoubtEnds(markers, disk, base, phase.was, phase.prior); }
      }
    }

    /** The marker that may have been left is consumed; `start` is what the last append left, if it was not decided durably. */
    method RecoverPendingAppend(ghost base: seq<seq<byte>>, ghost start: Phase) returns (ok: bool)
      requires Valid() && Stands(markers, disk, base, start) && !start.Intent?
      modifies this`disk, this`passed, this`faulty
      ensures (old(faulty) ==> faulty) && (!ok ==> faulty || TornMarker(markers, old(disk)))
      ensures Valid() && Stands(markers, disk, base, start) && StandsThrough(markers, old(passed), passed, base, start)
      ensures ok ==> disk.marker.live == None && (Harmless(markers, disk, base) || In(markers, disk, base, start))
      ensures ok && old(disk.marker.live).Some? ==> Harmless(markers, disk, base)
      ensures old(disk.marker.live) == None ==> ok && disk == old(disk)
    {
      ghost var phase := if Harmless(markers, disk, base) then AtRest else start;
      if !Harmless(markers, disk, base) && Settled(markers, disk, base) {
        var p :| Armed(markers, disk, base, p);
        phase := Intent(p);
      }
      ok := ConsumeMarker(base, phase);
    }

    /** Makes the rollback marker durable. */
    method CreateAppendPending(p: Pending, ghost base: seq<seq<byte>>, ghost start: Phase) returns (ok: bool)
      requires Valid() && Proper(base, p) && Stands(markers, disk, base, start) && !start.Intent? && Resumable(base, start, p)
      modifies this`disk, this`nextInode, this`passed, this`faulty
      ensures (old(faulty) ==> faulty) && (!ok ==> faulty || TornMarker(markers, old(disk)))
      ensures Valid() && Stands(markers, disk, base, start) && StandsThrough(markers, old(passed), passed, base, start)
      ensures ok ==> LiveRests(disk, base, p) && Armed(markers, disk, base, p) && NamesDurable(disk)
    {
      ok := RecoverPendingAppend(base, start);
      if ok {
        ghost var before, phase := passed, if Harmless(markers, disk, base) then AtRest else start;
        RestsThere(markers, disk, nextInode, base, phase, p);
        ok := CreateAfresh(p, base, phase);
        StandsStep(markers, old(passed), before, passed, base, start, phase);
      }
    }

    /** Where a commit was not decided, the next append is to the same place, seen as it was before that commit. */
    ghost predicate Resumable(base: seq<seq<byte>>, start: Phase, p: Pending)
      requires Proper(base, p)
      reads this`disk
    {
      start.Commit? && !Settled(markers, disk, base) ==> start.p == p && (disk.marker.live == None ==> LiveRests(disk, base, p))
    }

    /** Creates, fills and syncs the marker; what cannot be synced is dropped. */
    method MakeMarker(p: Pending, ghost base: seq<seq<byte>>, ghost phase: Phase) returns (ok: bool)
      requires Valid() && Proper(base, p) && In(markers, disk, base, phase) && !phase.Intent? && For(phase, p) && disk.marker.live == None
      modifies this`disk, this`nextInode, this`passed, this`faulty
      ensures (old(faulty) ==> faulty) && (!ok ==> faulty)
      ensures Keeps(old(passed), base, phase)
      ensures ok ==> SyncedMarker(p) && disk.segments == old(disk.segments)
    {
      var created;
      created, ok := FillMarker(p, base, phase);
      if !created { return; }
      if ok { ok := SyncMarker(base, phase); }
      if !ok { CleanUpMarker(base, phase); }
    }

    /** The marker's bytes are this append's, and durable. */
    ghost predicate SyncedMarker(p: Pending)
      reads this`disk
    {
      && disk.marker.live.Some? && disk.marker.live.value.data == markers.encode(p)
      && exists s: Slot :: s.live.Some? && disk.marker == FileSyncedSlot(s)
    }

    /** Syncs the directory with the new marker in it: then no older one can come back. */
    method ArmMarker(p: Pending, ghost base: seq<seq<byte>>, ghost phase: Phase) returns (ok: bool)
      requires Valid() && Proper(base, p) && In(markers, disk, base, phase) && !phase.Intent? && For(phase, p) && SyncedMarker(p)
      modifies this`disk, this`passed, this`faulty
      ensures (old(faulty) ==> faulty) && (!ok ==> faulty)
      ensures Keeps(old(passed), base, phase)
      ensures ok ==> Armed(markers, disk, base, p) && NamesDurable(disk) && SameLive(disk, old(disk))
    {
      ok := SyncNames(base, phase);
      if ok {
        NamesNow(old(disk));
        ArmedBy(markers, disk, base, phase, p);
      }
    }

    /** Checks that the marker is still in place, or removes it. */
    method ConfirmMarker(ghost base: seq<seq<byte>>, ghost phase: Phase) returns (ok: bool)
      requires Valid() && In(markers, disk, base, phase) && !phase.Intent?
      modifies this`disk, this`passed, this`faulty
      ensures (old(faulty) ==> faulty) && (!ok ==> faulty)
      ensures Keeps(old(passed), base, phase) && (ok ==> disk == old(disk))
    {
      ok := Check();
      if !ok { CleanUpMarker(base, phase); }
    }

    /** Creates the marker where there is none, and makes it durable. */
    method CreateAfresh(p: Pending, ghost base: seq<seq<byte>>, ghost phase: Phase) returns (ok: bool)
      requires Valid() && Proper(base, p) && In(markers, disk, base, phase) && !phase.Intent? && For(phase, p) && disk.marker.live == None
      modifies this`disk, this`nextInode, this`passed, this`faulty
      ensures (old(faulty) ==> faulty) && (!ok ==> faulty)
      ensures Keeps(old(passed), base, phase)
      ensures ok ==> Armed(markers, disk, base, p) && NamesDurable(disk) && SameLive(disk, old(disk))
    {
      ok := MakeMarker(p, base, phase);
      if !ok { return; }
      ok := ArmMarker(p, base, phase);
      if ok { ok := ConfirmMarker(base, phase); }
    }

    // ----- the commit -----

    /** Makes the marker's bytes durable again, or proves that they still are the append's. */
    method RewriteMarker(p: Pending, ghost base: seq<seq<byte>>, ghost line: seq<byte>) returns (ok: bool)
      requires Valid() && Committing(markers, disk, base, p, line)
      modifies this`disk, this`nextInode, this`passed, this`faulty
      ensures old(faulty) ==> faulty
      ensures Keeps(old(passed), base, Commit(p, line))
      ensures ok ==> SyncedMarker(p)
    {
      ghost var phase := Commit(p, line);
      if disk.marker.live == None {
        var created;
        created, ok := FillMarker(p, base, phase);
      } else {
        ok := Check();
        ok := ok && disk.marker.live.value.data == markers.encode(p);
      }
      if ok { ok := SyncMarker(base, phase); }
    }

    /** Makes the marker durable again, or proves that it still is; a torn one stays in place. */
    method RestoreAppendPending(p: Pending, ghost base: seq<seq<byte>>, ghost line: seq<byte>) returns (ok: bool)
      requires Valid() && Committing(markers, disk, base, p, line)
      modifies this`disk, this`nextInode, this`passed, this`faulty
      ensures old(faulty) ==> faulty
      ensures Keeps(old(passed), base, Commit(p, line))
      ensures ok ==> Armed(markers, disk, base, p)
    {
      ok := RewriteMarker(p, base, line);
      if !ok { return; }
      ok := ArmMarker(p, base, Commit(p, line));
      if ok { ok := Check(); }
    }

    /** After a failed removal of the marker: the line is durably gone, or the marker is durable, or the journal stops. */
    method ResolveAmbiguousAppend(p: Pending, ghost base: seq<seq<byte>>, ghost line: seq<byte>)
      requires Valid() && Committing(markers, disk, base, p, line) && !failedClosed
      modifies this
      ensures old(faulty) ==> faulty
      ensures Valid() && SafeThrough(markers, old(passed), passed, base, p, line)
      ensures if failedClosed then retainLock && Committing(markers, disk, base, p, line) else Settled(markers, disk, base)
    {
      ghost var phase := Commit(p, line);
      var ok := RollbackPendingAppend(p, false, base, phase);
      if ok { return; }
      ok := RestoreAppendPending(p, base, line);
      if !ok {
        failedClosed := true;
        retainLock := true;
      }
    }

    /** Opens the marked segment, creating it when the append starts one. */
    method OpenSegment(p: Pending, ghost base: seq<seq<byte>>) returns (created: bool, ok: bool)
      requires Valid() && Proper(base, p) && LiveRests(disk, base, p) && Armed(markers, disk, base, p) && NamesDurable(disk)
      modifies this`disk, this`nextInode, this`passed, this`faulty
      ensures (old(faulty) ==> faulty) && (!ok ==> faulty)
      ensures Keeps(old(passed), base, Intent(p))
      ensures ok ==> Unwritten(base, p, Get(disk, SegmentFile(p.epoch)), created)
    {
      var slot := Get(disk, SegmentFile(p.epoch));
      assert SlotCuts(base, p, slot) && SegmentSlot(slot, nextInode);
      created := false;
      if slot.live == None {
        SegmentKeeps(markers, disk, CreatedSlot(slot, nextInode), base, Intent(p), p);
        created := Create(SegmentFile(p.epoch));
        if !created { return created, false; }
      }
      ok := Check();
    }

    /** Writes the line to the opened segment and makes its bytes durable. */
    method FillSegment(p: Pending, line: seq<byte>, created: bool, ghost base: seq<seq<byte>>) returns (ok: bool)
      requires Valid() && Proper(base, p) && Armed(markers, disk, base, p)
      requires Unwritten(base, p, Get(disk, SegmentFile(p.epoch)), created)
      modifies this`disk, this`passed, this`faulty
      ensures (old(faulty) ==> faulty) && (!ok ==> faulty)
      ensures Keeps(old(passed), base, Intent(p))
      ensures ok ==> Filled(base, p, line, Get(disk, SegmentFile(p.epoch)), created)
    {
      var name := SegmentFile(p.epoch);
      ghost var slot := Get(disk, name);
      ghost var k: nat;
      ok, k := Write(name, line);
      WrittenCuts(base, p, slot, line[..k], nextInode, created);
      SegmentKeeps(markers, old(disk), WrittenSlot(slot, line[..k]), base, Intent(p), p);
      if ok {
        assert line[..k] == line;
        FilledSlot(base, p, slot, line, nextInode, created);
        SegmentKeeps(markers, disk, FileSyncedSlot(Get(disk, name)), base, Intent(p), p);
        ok := SyncFile(name);
        if ok { ok := Check(); }
      }
    }

    /** Puts the line into the marked segment, bytes and name durable. */
    method WriteLine(p: Pending, line: seq<byte>, ghost base: seq<seq<byte>>) returns (ok: bool)
      requires Valid() && Proper(base, p)
      requires LiveRests(disk, base, p) && Armed(markers, disk, base, p) && NamesDurable(disk)
      modifies this`disk, this`nextInode, this`passed, this`faulty
      ensures (old(faulty) ==> faulty) && (!ok ==> faulty)
      ensures Keeps(old(passed), base, Intent(p))
      ensures ok ==> LineIn(base, p, line, disk)
    {
      var created;
      created, ok := OpenSegment(p, base);
      if !ok { return; }
      ok := FillSegment(p, line, created, base);
      if !ok { return; }
      ghost var slot := Get(disk, SegmentFile(p.epoch));
      if created {
        ok := SyncNames(base, Intent(p));
        if !ok { return; }
        assert Get(disk, SegmentFile(p.epoch)) == DirSyncedSlot(slot);
      }
      NameDurable(base, p, line, slot, created);
      assert LineIn(base, p, line, disk);
      ok := Check();
    }

    /** Removes the marker durably, which commits the line, or settles what the failure left. */
    method CommitLine(p: Pending, line: seq<byte>, ghost base: seq<seq<byte>>) returns (ok: bool)
      requires Valid() && Armed(markers, disk, base, p) && LineIn(base, p, line, disk) && !failedClosed
      modifies this
      ensures (old(faulty) ==> faulty) && (!ok ==> faulty)
      ensures Valid() && SafeThrough(markers, old(passed), passed, base, p, line)
      ensures ok ==> !failedClosed && disk.marker.live == None && Harmless(markers, disk, Grown(base, p.epoch, line))
      ensures !ok ==> if failedClosed then retainLock && Committing(markers, disk, base, p, line) else Settled(markers, disk, base)
    {
      ghost var phase := Commit(p, line);
      LineDurable(markers, disk, base, p, line);
      ok := DropMarker(base, phase);
      if ok {
        NamesSynced(base, p, line, Put(old(disk), Marker, RemovedSlot(old(disk).marker)));
        Committed(markers, disk, base, p, line);
      } else {
        ghost var before := passed;
        ResolveAmbiguousAppend(p, base, line);
        assert SafeThrough(markers, old(passed), passed, base, p, line);
      }
    }

    /** Appends the line to the segment of `p`, or leaves the contents as they were, or fails closed. */
    method AppendLine(p: Pending, line: seq<byte>, ghost base: seq<seq<byte>>, ghost start: Phase) returns (ok: bool)
      requires Valid() && Proper(base, p) && Stands(markers, disk, base, start) && !start.Intent? && Resumable(base, start, p)
      requires !failedClosed
      modifies this
      ensures (old(faulty) ==> faulty) && (!ok ==> faulty || TornMarker(markers, old(disk))) && (failedClosed ==> faulty)
      ensures Valid() && SafeFromThrough(markers, old(passed), passed, base, start, p, line)
      ensures ok ==> !failedClosed && Harmless(markers, disk, Grown(base, p.epoch, line))
      ensures !ok ==> if failedClosed then retainLock && Committing(markers, disk, base, p, line) else Stands(markers, disk, base, start)
    {
      ok := CreateAppendPending(p, base, start);
      if !ok { return; }
      ghost var armed := passed;
      ok := WriteAndCommit(p, line, base);
      StandsIsSafe(markers, old(passed), armed, passed, base, start, p, line);
    }

    /** With the marker durable: writes the line and commits it, or takes it back. */
    method WriteAndCommit(p: Pending, line: seq<byte>, ghost base: seq<seq<byte>>) returns (ok: bool)
      requires Valid() && Proper(base, p) && !failedClosed
      requires LiveRests(disk, base, p) && Armed(markers, disk, base, p) && NamesDurable(disk)
      modifies this
      ensures (old(faulty) ==> faulty) && (!ok ==> faulty) && (failedClosed ==> faulty)
      ensures Valid() && SafeThrough(markers, old(passed), passed, base, p, line)
      ensures ok ==> !failedClosed && Harmless(markers, disk, Grown(base, p.epoch, line))
      ensures !ok ==> if failedClosed then retainLock && Committing(markers, disk, base, p, line) else Settled(markers, disk, base)
    {
      ok := WriteLine(p, line, base);
      SafeStep(markers, old(passed), old(passed), passed, base, p, line, Intent(p));
      if ok {
        ok := CommitLine(p, line, base);
      } else {
        var recovered := RecoverPendingAppend(base, AtRest);
      }
    }
  }
}
