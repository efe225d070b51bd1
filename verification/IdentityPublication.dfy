/**
  Issuing request identities: an identity is staged, then counted by the shard's authority, then published under its final
  name; what a crash leaves is reconciled before the next use.
 */
module IdentityPublication {
  import opened Results
  import opened ByteLines
  import opened Durability
  import opened LinkedHistory
  import opened ShardDisk

  datatype Answer = Done | Refused | Failed | AlreadyIssued | Exhausted | TooLong

  ghost predicate Through(c: HistoryCodec, from: set<Shard>, now: set<Shard>, b: Book) {
    from <= now && forall d :: d in now && d !in from ==> Rest(c, d, b)
  }

  /** Only staged names of committed identities are left. */
  ghost predicate NoStray(d: Shard, records: seq<Entry>) {
    forall l {:trigger Name(d.pendings, l)} :: Find(records, l) == None ==> Name(d.pendings, l).live == None
  }

  /** The identity's final name leads to it, and its staged name is gone. */
  predicate Published(d: Shard, r: Entry) {
    Name(d.finals, r.key).live == Some(r.inode) && Name(d.pendings, r.key).live == None
  }

  /** Link the staged name to its final one, sync, drop the staged name, sync. */
  function AfterPublish(d: Shard, lookup: string): Shard {
    DirSynced(Unlinked(DirSynced(if Name(d.finals, lookup).live == None then Linked(d, lookup) else d), lookup))
  }

  lemma PublishedNames(d: Shard, r: Entry)
    requires Name(d.pendings, r.key).live == Some(r.inode)
    requires Name(d.finals, r.key).live.Some? ==> Name(d.finals, r.key).live.value == r.inode
    ensures var e := AfterPublish(d, r.key);
            && Published(e, r) && Certain(e)
            && (forall l {:trigger Name(e.finals, l)} :: l != r.key ==> Name(e.finals, l).live == Name(d.finals, l).live)
            && (forall l {:trigger Name(e.pendings, l)} :: l != r.key ==> Name(e.pendings, l).live == Name(d.pendings, l).live)
  {
    var linked := if Name(d.finals, r.key).live == None then Linked(d, r.key) else d;
    var synced := DirSynced(linked);
    var unlinked := Unlinked(synced, r.key);
    forall l ensures Name(AfterPublish(d, r.key).finals, l).live == Name(linked.finals, l).live
             ensures l != r.key ==> Name(AfterPublish(d, r.key).pendings, l).live == Name(d.pendings, l).live
    {
      SyncedName(linked.finals, l);
      SyncedName(linked.pendings, l);
      SyncedName(unlinked.finals, l);
      SyncedName(unlinked.pendings, l);
    }
    SyncedName(unlinked.pendings, r.key);
  }

  lemma FindMember(c: HistoryCodec, records: seq<Entry>, r: Entry)
    requires Chained(c, records) && r in records
    ensures Find(records, r.key) == Some(r)
  {
    var i :| 0 <= i < |records| && records[i] == r;
    FindAt(c, records, i);
  }

  /** Publishing one record takes nothing from the others. */
  lemma StillPublished(c: HistoryCodec, d: Shard, e: Shard, records: seq<Entry>, r: Entry, todo: set<Entry>)
    requires Chained(c, records) && r in records && NoStray(d, records) && e == AfterPublish(d, r.key)
    requires Name(d.pendings, r.key).live == Some(r.inode)
    requires Name(d.finals, r.key).live.Some? ==> Name(d.finals, r.key).live.value == r.inode
    requires forall q :: q in records && q !in todo ==> Published(d, q)
    ensures NoStray(e, records)
    ensures forall q :: q in records && q !in todo - {r} ==> Published(e, q)
  {
    PublishedNames(d, r);
    FindMember(c, records, r);
    forall q | q in records && q !in todo - {r} ensures Published(e, q) {
      FindMember(c, records, q);
      if q != r { assert Published(d, q); }
    }
    forall l ensures Find(records, l) == None ==> Name(e.pendings, l).live == None {
      if l != r.key { assert Name(e.pendings, l).live == Name(d.pendings, l).live; }
    }
  }

  /** Once the last record's identity is published, no other authority can come back. */
  lemma PublishedCertain(c: HistoryCodec, d: Shard, b: Book)
    requires Rest(c, d, b) && forall r :: r in b.records ==> Published(d, r)
    ensures Rest(c, d, Firm(b))
  {
    if b.records != [] { assert Published(d, Last(b)); }
    CertainIsFirm(c, d, b);
  }

  /** What an issuing call may pass through: not issued, or issued. */
  ghost predicate Safe(c: HistoryCodec, d: Shard, b: Book, r: Entry, text: seq<byte>) {
    Rest(c, d, b) || Rest(c, d, Grown(b, r, text))
  }

  ghost predicate SafeThrough(c: HistoryCodec, from: set<Shard>, now: set<Shard>, b: Book, r: Entry, text: seq<byte>) {
    from <= now && forall d :: d in now && d !in from ==> Safe(c, d, b, r, text)
  }

  lemma SafeStep(c: HistoryCodec, x: set<Shard>, y: set<Shard>, z: set<Shard>, b: Book, r: Entry, text: seq<byte>, at: Book)
    requires SafeThrough(c, x, y, b, r, text) && Through(c, y, z, at) && (at == b || at == Grown(b, r, text))
    ensures SafeThrough(c, x, z, b, r, text)
  {
    forall d | d in z && d !in x ensures Safe(c, d, b, r, text) {
      if d !in y { assert Rest(c, d, at); }
    }
  }

  lemma SafeSteps(c: HistoryCodec, x: set<Shard>, y: set<Shard>, z: set<Shard>, b: Book, r: Entry, text: seq<byte>)
    requires SafeThrough(c, x, y, b, r, text) && SafeThrough(c, y, z, b, r, text)
    ensures SafeThrough(c, x, z, b, r, text)
  {
    forall d | d in z && d !in x ensures Safe(c, d, b, r, text) {
      if d in y { assert Safe(c, d, b, r, text); }
    }
  }

  lemma FirmSafe(c: HistoryCodec, d: Shard, b: Book, r: Entry, text: seq<byte>)
    requires Safe(c, d, Firm(b), r, text)
    ensures Safe(c, d, b, r, text)
  {
    if Rest(c, d, Firm(b)) { FirmIsBook(c, d, b); }
    assert Grown(Firm(b), r, text) == Grown(b, r, text);
  }

  lemma SafeJoin(c: HistoryCodec, x: set<Shard>, y: set<Shard>, z: set<Shard>, b: Book, r: Entry, text: seq<byte>)
    requires Through(c, x, y, b) && SafeThrough(c, y, z, Firm(b), r, text)
    ensures SafeThrough(c, x, z, b, r, text)
  {
    forall d | d in z && d !in x ensures Safe(c, d, b, r, text) {
      if d in y { assert Rest(c, d, b); } else { FirmSafe(c, d, b, r, text); }
    }
  }

  /**
    One shard of the request index, held under the action lock. `passed` collects every state that a request passes;
    `faulty` says that some system call has failed since it began.
   */
  class RequestShard {
    const codec: HistoryCodec
    var disk: Shard
    var failedClosed: bool
    var retainLock: bool
    var passed: set<Shard>
    ghost var faulty: bool

    ghost predicate Keeps(from: set<Shard>, b: Book)
      reads this`disk, this`passed
    {
      Rest(codec, disk, b) && Through(codec, from, passed, b)
    }

    constructor (codec: HistoryCodec, disk: Shard)
      ensures this.codec == codec && this.disk == disk && !failedClosed && !retainLock && passed == {} && !faulty
    {
      this.codec := codec;
      this.disk := disk;
      failedClosed := false;
      retainLock := false;
      passed := {};
      faulty := false;
    }

    /** A new process starts: on the disk as a killed one left it at some state, or on what the power coming back finds there. */
    method Restart(ghost from: Shard, after: Shard)
      requires after == from || Crashed(from, after)
      modifies this
      ensures disk == after && !failedClosed && !retainLock && passed == {after} && !faulty
    {
      faulty := false;
      disk := after;
      passed := {after};
      failedClosed := false;
      retainLock := false;
    }

    /** A new request: only the states passed from here on are of interest. */
    method Begin()
      modifies this`passed, this`faulty
      ensures passed == {disk} && !faulty
    {
      passed, faulty := {disk}, false;
    }

    /** One system call that takes the shard to `next`; a failed one may have happened all the same. */
    method Attempt(next: Shard) returns (ok: bool)
      modifies this`disk, this`passed, this`faulty
      ensures disk == old(disk) || disk == next
      ensures ok ==> disk == next
      ensures passed == old(passed) + {disk} && faulty == (old(faulty) || !ok)
    {
      ok := *;
      faulty := faulty || !ok;
      var done: bool := *;
      if ok || done { disk := next; }
      passed := passed + {disk};
    }

    /** How much of a write went through. */
    method Wrote(size: nat) returns (ok: bool, k: nat)
      modifies this`faulty
      ensures k <= size && (ok ==> k == size) && faulty == (old(faulty) || !ok)
    {
      ok := *;
      faulty := faulty || !ok;
      k := size;
      if !ok { k :| 0 <= k <= size; }
    }

    /** A stat, a read back, or a check that a name still leads to the open file. */
    method Check() returns (ok: bool)
      modifies this`faulty
      ensures faulty == (old(faulty) || !ok)
    {
      ok := *;
      faulty := faulty || !ok;
    }

    method SyncDir(ghost b: Book) returns (ok: bool)
      requires Rest(codec, disk, b)
      modifies this`disk, this`passed, this`faulty
      ensures (old(faulty) ==> faulty) && (!ok ==> faulty)
      ensures Keeps(old(passed), b)
      ensures disk == old(disk) || disk == DirSynced(old(disk))
      ensures ok ==> disk == DirSynced(old(disk))
    {
      SyncKeeps(codec, disk, b);
      ok := Attempt(DirSynced(disk));
    }

    // ----- reconciliation -----

    /** Cuts the history back to what the authority counts. */
    method CutTail(committed: nat, ghost b: Book) returns (ok: bool)
      requires Rest(codec, disk, b) && committed == |Lines(codec, b.records)|
      modifies this`disk, this`passed, this`faulty
      ensures (old(faulty) ==> faulty) && (!ok ==> faulty)
      ensures Keeps(old(passed), b)
      ensures disk == old(disk).(history := disk.history)
      ensures ok ==> disk.history.live == Lines(codec, b.records)
    {
      ok := true;
      CutKeeps(codec, disk, b);
      if |disk.history.live| != committed {
        ok := Attempt(disk.(history := Changed(disk.history, disk.history.live[..committed])));
        if !ok { return; }
        CutKeeps(codec, disk, b);
        ok := Attempt(disk.(history := Durable(disk.history.live)));
        if !ok { return; }
        ok := Check();
      }
    }

    /** Drops every staged name that no committed record mentions. */
    method DropStray(records: seq<Entry>, ghost b: Book) returns (ok: bool)
      requires Rest(codec, disk, b) && records == b.records
      modifies this`disk, this`passed, this`faulty
      ensures (old(faulty) ==> faulty) && (!ok ==> faulty)
      ensures Keeps(old(passed), b)
      ensures disk.history == old(disk.history)
      ensures ok ==> NoStray(disk, records)
    {
      ok := true;
      var removed := false;
      var todo := disk.pendings.Keys;
      while todo != {}
        invariant Keeps(old(passed), b) && disk.history == old(disk.history)
        invariant forall l :: l in disk.pendings && l !in todo && Find(records, l) == None ==> Name(disk.pendings, l).live == None
        invariant old(faulty) ==> faulty
        decreases todo
      {
        var l :| l in todo;
        todo := todo - {l};
        if Name(disk.pendings, l).live.Some? && Find(records, l) == None {
          UnlinkKeeps(codec, disk, b, l);
          ok := Attempt(Unlinked(disk, l));
          if !ok { return; }
          removed := true;
        }
      }
      assert NoStray(disk, records);
      if removed {
        ghost var before := disk;
        ok := SyncDir(b);
        forall l ensures Name(DirSynced(before).pendings, l).live == Name(before.pendings, l).live {
          SyncedName(before.pendings, l);
        }
      }
    }

    /** Publishes one committed identity that is still only staged, and drops its staged name. */
    method PublishStaged(r: Entry, ghost b: Book) returns (ok: bool)
      requires Rest(codec, disk, b) && Find(b.records, r.key) == Some(r)
      requires Name(disk.pendings, r.key).live.Some?
      modifies this`disk, this`passed, this`faulty
      ensures (old(faulty) ==> faulty) && (!ok ==> faulty)
      ensures Keeps(old(passed), b)
      ensures disk.history == old(disk.history)
      ensures ok ==> disk == AfterPublish(old(disk), r.key)
    {
      assert LookupOk(codec, disk, b, r.key);
      if Name(disk.finals, r.key).live == None {
        LinkKeeps(codec, disk, b, r);
        ok := Attempt(Linked(disk, r.key));
        if !ok { return; }
        assert LookupOk(codec, disk, b, r.key);
      }
      SyncedName(disk.finals, r.key);
      SyncKeeps(codec, disk, b);
      ok := SyncDir(b);
      if !ok { return; }
      UnlinkKeeps(codec, disk, b, r.key);
      ok := Attempt(Unlinked(disk, r.key));
      if !ok { return; }
      ok := SyncDir(b);
    }

    method PublishTracked(records: seq<Entry>, ghost b: Book) returns (ok: bool)
      requires Rest(codec, disk, b) && records == b.records && NoStray(disk, records)
      modifies this`disk, this`passed, this`faulty
      ensures (old(faulty) ==> faulty) && (!ok ==> faulty)
      ensures Keeps(old(passed), b) && disk.history == old(disk.history)
      ensures ok ==> NoStray(disk, records)
      ensures ok ==> forall r :: r in records ==> Published(disk, r)
    {
      ok := true;
      var todo := set r | r in records;
      while todo != {}
        invariant Keeps(old(passed), b) && NoStray(disk, records)
        invariant disk.history == old(disk.history)
        invariant forall r :: r in records && r !in todo ==> Published(disk, r)
        invariant (forall r :: r in todo ==> r in records) && (old(faulty) ==> faulty)
        decreases todo
      {
        var r :| r in todo;
        todo := todo - {r};
        FindMember(codec, records, r);
        assert LookupOk(codec, disk, b, r.key);
        if Name(disk.pendings, r.key).live.Some? {
          ok := Check();
          if !ok { return; }
          ghost var before := disk;
          PublishedNames(disk, r);
          ok := PublishStaged(r, b);
          if !ok { return; }
          StillPublished(codec, before, disk, records, r, todo + {r});
        }
      }
    }

    /** Brings the shard to its committed identities, each published; it is refused for crowding and for nothing else. */
    method Reconcile(ghost b: Book) returns (answer: Answer, records: seq<Entry>)
      requires CanonicalIssuances(codec) && Rest(codec, disk, b)
      modifies this`disk, this`passed, this`faulty
      ensures old(faulty) ==> faulty
      ensures Keeps(old(passed), b)
      ensures answer == Refused <==> Crowded(old(disk), b.records)
      ensures answer == Refused || answer == Done || (answer == Failed && faulty)
      ensures answer == Done ==> records == b.records && NoStray(disk, records) && disk.history.live == Lines(codec, records)
      ensures answer == Done ==> Rest(codec, disk, Firm(b)) && forall r :: r in records ==> Published(disk, r)
    {
      answer, records := Refused, [];
      RestAcceptable(codec, disk, b);
      if Acceptable(codec, disk) {
        answer := Failed;
        var loaded := LoadState(codec, disk).value;
        records := loaded.0;
        var ok := CutTail(loaded.1, b);
        if ok { ok := DropStray(records, b); }
        if ok { ok := PublishTracked(records, b); }
        if ok {
          answer := Done;
          PublishedCertain(codec, disk, b);
        }
      }
    }

    // ----- issuing -----

    method CleanUpStaged(lookup: string, ghost b: Book)
      requires Rest(codec, disk, b) && Find(b.records, lookup) == None
      modifies this`disk, this`passed, this`faulty
      ensures old(faulty) ==> faulty
      ensures Keeps(old(passed), b)
    {
      UnlinkKeeps(codec, disk, b, lookup);
      var removed := Attempt(Unlinked(disk, lookup));
      var synced := SyncDir(b);
    }

    /** Creates the staged name and its file, and writes the identity. */
    method WriteStaged(lookup: string, text: seq<byte>, ghost b: Book) returns (created: bool, ok: bool)
      requires Rest(codec, disk, b) && Find(b.records, lookup) == None
      modifies this`disk, this`passed, this`faulty
      ensures (old(faulty) ==> faulty) && (!ok ==> faulty)
      ensures Keeps(old(passed), b)
      ensures disk.history == old(disk.history) && (ok ==> created && Name(disk.pendings, lookup).live == Some(old(disk.next)))
      ensures ok ==> old(disk.next) in disk.files && disk.files[old(disk.next)] == Durable(text) && old(disk.next) < disk.next
    {
      var inode := disk.next;
      StageKeeps(codec, disk, b, lookup);
      created := Attempt(Staged(disk, lookup));
      ok := false;
      if created {
        var k;
        ok, k := Wrote(|text|);
        var file := Appended(disk.files[inode], text[..k]);
        assert text[..k][..k] == text[..k];
        FileKeeps(codec, disk, b, inode, file);
        disk := disk.(files := disk.files[inode := file]);
        passed := passed + {disk};
        if ok {
          assert [] + text[..k] == text;
          FileKeeps(codec, disk, b, inode, Durable(text));
          ok := Attempt(disk.(files := disk.files[inode := Durable(text)]));
          if ok { ok := Check(); }
        }
      }
    }

    /** Makes a new identity's staged name and bytes durable. */
    method StageIdentity(lookup: string, text: seq<byte>, ghost b: Book) returns (created: bool, ok: bool, inode: nat)
      requires Rest(codec, disk, b) && Find(b.records, lookup) == None
      modifies this`disk, this`passed, this`faulty
      ensures (old(faulty) ==> faulty) && (!ok ==> faulty)
      ensures Keeps(old(passed), b) && disk.history == old(disk.history)
      ensures inode == old(disk.next)
      ensures ok ==> created && Name(disk.pendings, lookup) == Durable(Some(inode)) && inode in disk.files
                     && disk.files[inode] == Durable(text) && inode < disk.next
    {
      inode := disk.next;
      created, ok := WriteStaged(lookup, text, b);
      if ok {
        SyncedName(disk.pendings, lookup);
        ok := SyncDir(b);
        if ok { ok := Check(); }
      }
    }

    /** Appends the record's line to the history and makes it durable; the authority does not count it yet. */
    method AppendIssuance(r: Entry, ghost b: Book) returns (ok: bool)
      requires Rest(codec, disk, b)
      requires disk.history.live == Lines(codec, b.records) && |disk.history.live| + |codec.encode(r)| + 1 <= MAX_HISTORY_BYTES
      modifies this`disk, this`passed, this`faulty
      ensures (old(faulty) ==> faulty) && (!ok ==> faulty)
      ensures Keeps(old(passed), b) && disk == old(disk).(history := disk.history)
      ensures ok ==> HistoryKeeps(codec, disk, b.records + [r])
    {
      var line := codec.encode(r) + [NEWLINE];
      var k;
      ok, k := Wrote(|line|);
      var history := Appended(disk.history, line[..k]);
      AppendKeeps(codec, history, disk, b.records, line[..k]);
      HistoryChanges(codec, disk, history, b);
      disk := disk.(history := history);
      passed := passed + {disk};
      if ok {
        assert line[..k] == line;
        LinesOneMore(codec, b.records, r);
        assert history.live == Lines(codec, b.records + [r]);
        HistoryChanges(codec, disk, Durable(history.live), b);
        ok := Attempt(disk.(history := Durable(history.live)));
        if ok { ok := Check(); }
      }
    }

    /** Cuts an uncounted record off the history, or stops the journal. */
    method RollBack(committed: nat, ghost b: Book)
      requires Rest(codec, disk, b) && committed == |Lines(codec, b.records)|
      modifies this
      ensures old(faulty) ==> faulty
      ensures Keeps(old(passed), b)
      ensures failedClosed ==> old(failedClosed) || (retainLock && faulty)
      ensures retainLock ==> old(retainLock) || failedClosed
    {
      CutKeeps(codec, disk, b);
      var cut := Attempt(disk.(history := Changed(disk.history, disk.history.live[..committed])));
      CutKeeps(codec, disk, b);
      var synced := Attempt(disk.(history := Durable(disk.history.live)));
      var checked := Check();
      if !cut || !synced || !checked {
        failedClosed := true;
        retainLock := true;
      }
    }

    /** Sets the authority to count the record. `seen` is what the running process then reads, if it can read it. */
    method SetAuthority(next: Checkpoint, ghost b: Book, ghost grown: Book) returns (seen: Option<Checkpoint>, durable: bool)
      requires Rest(codec, disk, b) && Rest(codec, disk.(authority := Changed(disk.authority, next)), grown)
      requires next != disk.authority.live
      modifies this`disk, this`passed, this`faulty
      ensures old(faulty) ==> faulty
      ensures old(passed) <= passed && forall d :: d in passed && d !in old(passed) ==> d == old(disk) || Rest(codec, d, grown)
      ensures disk == old(disk) || (disk.authority.live == next && Rest(codec, disk, grown))
      ensures if seen.Some? then seen.value == disk.authority.live else faulty
      ensures disk == old(disk) || !durable ==> faulty
      ensures durable ==> Certain(disk) && disk == DirSynced(old(disk).(authority := Changed(old(disk).authority, next)))
    {
      durable := Attempt(disk.(authority := Changed(disk.authority, next)));
      if durable { durable := SyncDir(grown); }
      var readable := Check();
      seen := if readable then Some(disk.authority.live) else None;
    }

    /** The record is durable: has the authority count it. `committed` is what the running process sees. */
    method Count(r: Entry, ghost b: Book, ghost text: seq<byte>) returns (committed: bool, ok: bool)
      requires Rest(codec, disk, b) && !b.unsure && Extends(codec, b.records, r) && |b.records| < MAX_REQUESTS_PER_SHARD
      requires HistoryKeeps(codec, disk, b.records + [r])
      requires StagedOk(disk, r, text) && |text| <= MAX_REQUEST_INDEX_BYTES && codec.digest(text) == r.value
      requires !failedClosed && !retainLock
      modifies this
      ensures (old(faulty) ==> faulty) && (!ok ==> faulty) && failedClosed == retainLock
      ensures SafeThrough(codec, old(passed), passed, b, r, text) && Safe(codec, disk, b, r, text)
      ensures committed ==> !failedClosed && Rest(codec, disk, Grown(b, r, text))
      ensures ok ==> committed && Certain(disk) && Name(disk.pendings, r.key) == Durable(Some(r.inode))
      ensures !committed && !retainLock ==> disk == old(disk)
    {
      LinesOneMore(codec, b.records, r);
      Issues(codec, disk, b, r, text);
      var next := Checkpoint(r.sequence, codec.digest(codec.encode(r)));
      var prior := disk.authority.live;
      SyncedName(disk.pendings, r.key);
      var seen;
      seen, ok := SetAuthority(next, b, Grown(b, r, text));
      committed := seen == Some(next);
      ok := ok && committed;
      if !committed && seen != Some(prior) {
        failedClosed := true;
        retainLock := true;
      }
    }

    /**
      Commits the record, then the authority that counts it. `committed` says whether the running process sees the new
      authority, `ok` whether it is durable as well. A record too long for a reader is not written.
     */
    method CommitIssuance(r: Entry, ghost b: Book, ghost text: seq<byte>) returns (committed: bool, ok: bool)
      requires Rest(codec, disk, b) && !b.unsure && Follows(codec, b.records, r) && |b.records| < MAX_REQUESTS_PER_SHARD
      requires disk.history.live == Lines(codec, b.records) && codec.maxLine == MAX_ISSUANCE_BYTES
      requires StagedOk(disk, r, text) && |text| <= MAX_REQUEST_INDEX_BYTES && codec.digest(text) == r.value
      requires !failedClosed && !retainLock
      modifies this
      ensures (old(faulty) ==> faulty) && (!ok ==> faulty || |codec.encode(r)| > MAX_ISSUANCE_BYTES) && failedClosed == retainLock
      ensures SafeThrough(codec, old(passed), passed, b, r, text) && Safe(codec, disk, b, r, text)
      ensures failedClosed ==> faulty
      ensures committed ==> !failedClosed && Rest(codec, disk, Grown(b, r, text)) && |codec.encode(r)| <= MAX_ISSUANCE_BYTES
      ensures ok ==> committed && Certain(disk) && Name(disk.pendings, r.key) == Durable(Some(r.inode))
      ensures !committed && !retainLock ==> Rest(codec, disk, b)
    {
      if |codec.encode(r)| > MAX_ISSUANCE_BYTES { return false, false; }
      RoomForOne(codec, b.records, r);
      var offset := |disk.history.live|;
      ok := AppendIssuance(r, b);
      committed := false;
      SafeStep(codec, old(passed), old(passed), passed, b, r, text, b);
      ghost var appended := passed;
      if ok {
        committed, ok := Count(r, b, text);
        SafeSteps(codec, old(passed), appended, passed, b, r, text);
        if committed || retainLock { return; }
      }
      ghost var before := passed;
      RollBack(offset, b);
      SafeStep(codec, old(passed), before, passed, b, r, text, b);
    }

    /** The last steps of issuing: the identity is counted, so publish it. */
    method PublishIssued(r: Entry, ghost b: Book) returns (ok: bool)
      requires Rest(codec, disk, b) && Find(b.records, r.key) == Some(r)
      requires Name(disk.pendings, r.key).live == Some(r.inode)
      modifies this`disk, this`passed, this`faulty
      ensures (old(faulty) ==> faulty) && (!ok ==> faulty)
      ensures Keeps(old(passed), b)
      ensures ok ==> Rest(codec, disk, Firm(b)) && Published(disk, r)
    {
      assert LookupOk(codec, disk, b, r.key);
      PublishedNames(disk, r);
      ok := PublishStaged(r, b);
      if ok { CertainIsFirm(codec, disk, b); }
    }

    /** Commits a staged identity and publishes it; one that is not counted is cleaned up. */
    method CommitAndPublish(r: Entry, text: seq<byte>, ghost b: Book) returns (ok: bool)
      requires Rest(codec, disk, b) && !b.unsure && Follows(codec, b.records, r) && |b.records| < MAX_REQUESTS_PER_SHARD
      requires disk.history.live == Lines(codec, b.records) && codec.maxLine == MAX_ISSUANCE_BYTES
      requires StagedOk(disk, r, text) && |text| <= MAX_REQUEST_INDEX_BYTES && codec.digest(text) == r.value
      requires !failedClosed && !retainLock
      modifies this
      ensures (old(faulty) ==> faulty) && (!ok ==> faulty || |codec.encode(r)| > MAX_ISSUANCE_BYTES) && failedClosed == retainLock
      ensures SafeThrough(codec, old(passed), passed, b, r, text) && Safe(codec, disk, b, r, text)
      ensures failedClosed ==> faulty
      ensures ok ==> !failedClosed && Rest(codec, disk, Firm(Grown(b, r, text))) && Published(disk, r)
      ensures |codec.encode(r)| > MAX_ISSUANCE_BYTES ==> !ok && (!failedClosed ==> Rest(codec, disk, b))
    {
      var committed;
      FindIs(b.records, r.key);
      committed, ok := CommitIssuance(r, b, text);
      ghost var before := passed;
      if ok {
        FindMore(b.records, r, r.key);
        ok := PublishIssued(r, Grown(b, r, text));
        SafeStep(codec, old(passed), before, passed, b, r, text, Grown(b, r, text));
      } else if !committed && !retainLock {
        CleanUpStaged(r.key, b);
        SafeStep(codec, old(passed), before, passed, b, r, text, b);
      }
    }

    /** Stages, commits and publishes an identity no record mentions. */
    method Issue(r: Entry, text: seq<byte>, ghost b: Book) returns (ok: bool)
      requires Rest(codec, disk, b) && !b.unsure && Follows(codec, b.records, r) && |b.records| < MAX_REQUESTS_PER_SHARD && r.inode == disk.next
      requires disk.history.live == Lines(codec, b.records) && codec.maxLine == MAX_ISSUANCE_BYTES
      requires |text| <= MAX_REQUEST_INDEX_BYTES && codec.digest(text) == r.value
      requires !failedClosed && !retainLock
      modifies this
      ensures (old(faulty) ==> faulty) && (!ok ==> faulty || |codec.encode(r)| > MAX_ISSUANCE_BYTES) && failedClosed == retainLock
      ensures SafeThrough(codec, old(passed), passed, b, r, text) && Safe(codec, disk, b, r, text)
      ensures failedClosed ==> faulty
      ensures ok ==> !failedClosed && Rest(codec, disk, Firm(Grown(b, r, text))) && Published(disk, r)
      ensures |codec.encode(r)| > MAX_ISSUANCE_BYTES ==> !ok && (!failedClosed ==> Rest(codec, disk, b))
    {
      var created, inode;
      FindIs(b.records, r.key);
      created, ok, inode := StageIdentity(r.key, text, b);
      SafeStep(codec, old(passed), old(passed), passed, b, r, text, b);
      if !created { return; }
      ghost var staged := passed;
      if ok {
        ok := CommitAndPublish(r, text, b);
        SafeSteps(codec, old(passed), staged, passed, b, r, text);
      } else {
        CleanUpStaged(r.key, b);
        SafeStep(codec, old(passed), staged, passed, b, r, text, b);
      }
    }

    /**
      Issues a new identity on a shard that stands for a book. Every state passed stands for the book or for the book with
      the new identity; the call is refused for crowding only, and gives up for a reason only.
     */
    method CreateIdentity(lookup: string, text: seq<byte>, ghost b: Book) returns (answer: Answer, ghost r: Entry)
      requires CanonicalIssuances(codec) && Rest(codec, disk, b) && !failedClosed && !retainLock
      modifies this
      ensures old(faulty) ==> faulty
      ensures r.key == lookup && SafeThrough(codec, old(passed), passed, b, r, text) && Safe(codec, disk, b, r, text)
      ensures failedClosed == retainLock && (answer == Failed || failedClosed ==> faulty)
      ensures answer == Refused <==> Crowded(old(disk), b.records)
      ensures answer == Done ==> !failedClosed && Rest(codec, disk, Firm(Grown(b, r, text))) && Published(disk, r)
      ensures answer == Done ==> Find(b.records, lookup) == None
      ensures answer == AlreadyIssued ==> Find(b.records, lookup).Some?
      ensures answer == Exhausted ==> |b.records| == MAX_REQUESTS_PER_SHARD
      ensures answer == TooLong ==> |text| > MAX_REQUEST_INDEX_BYTES || |codec.encode(r)| > MAX_ISSUANCE_BYTES
      ensures answer != Done && answer != Failed && !failedClosed ==> Rest(codec, disk, b)
    {
      r := Entry(1, "", lookup, "", 0);
      var records;
      answer, records := Reconcile(b);
      SafeStep(codec, old(passed), old(passed), passed, b, r, text, b);
      if answer != Done { return; }
      FindIs(records, lookup);
      if Find(records, lookup).Some? { return AlreadyIssued, r; }
      if |records| >= MAX_REQUESTS_PER_SHARD { return Exhausted, r; }
      if |text| > MAX_REQUEST_INDEX_BYTES { return TooLong, r; }
      ghost var reconciled := passed;
      var record := Entry(|records| + 1, FinalDigest(codec, records), lookup, codec.digest(text), disk.next);
      r := record;
      var ok := Issue(record, text, Firm(b));
      SafeJoin(codec, old(passed), reconciled, passed, b, r, text);
      FirmSafe(codec, disk, b, r, text);
      if Rest(codec, disk, Firm(b)) { FirmIsBook(codec, disk, b); }
      answer := if ok then Done else if |codec.encode(record)| > MAX_ISSUANCE_BYTES then TooLong else Failed;
    }

    /** The identity issued for a lookup key, if any. */
    method ReadIdentity(lookup: string, ghost b: Book) returns (answer: Answer, identity: Option<seq<byte>>)
      requires CanonicalIssuances(codec) && Rest(codec, disk, b)
      modifies this`disk, this`passed, this`faulty
      ensures old(faulty) ==> faulty
      ensures Keeps(old(passed), b)
      ensures answer == Refused <==> Crowded(old(disk), b.records)
      ensures answer == Refused || answer == Done || (answer == Failed && faulty)
      ensures answer == Done ==> Rest(codec, disk, Firm(b)) && (identity.Some? <==> Find(b.records, lookup).Some?)
      ensures answer == Done && identity.Some? ==> lookup in b.texts && identity.value == b.texts[lookup]
    {
      var records;
      answer, records := Reconcile(b);
      identity := None;
      if answer != Done || Find(records, lookup) == None { return; }
      FindIs(records, lookup);
      assert LookupOk(codec, disk, b, lookup);
      var checked := Check();
      if !checked { return Failed, None; }
      var inode := Name(disk.finals, lookup).live.value;
      identity := Some(disk.files[inode].live);
    }
  }
}
