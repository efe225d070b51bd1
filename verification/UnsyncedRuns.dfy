/**
  What a process risks that goes on after a failed sync of a run's final name or of the root authority: for each of the
  steps it takes next, exactly when every power loss still leaves actions a new process can start on.
 */
module UnsyncedRuns {
  import opened Results
  import opened ByteLines
  import opened Durability
  import opened LinkedHistory
  import opened RunDisk
  import opened RunRegistration

  /** What a new process accepts: it reconciles, and then finds each registered run's directory and no other name. */
  predicate Startable(c: HistoryCodec, d: Actions) {
    && LoadRuns(c, d).Some?
    && var (records, offset) := LoadRuns(c, d).value;
       if d.authority.live.Prepared? then
         var r := d.authority.live.record;
         && offset <= |d.history.live| && PreparedSound(c, d, records, offset, r)
         && (d.dir.live - {STAGE})[r.key := r.inode] == Directory(records + [r])
       else
         && offset <= |d.history.live| && (STAGE in d.dir.live ==> d.dir.live[STAGE] !in d.used)
         && var tail := d.history.live[offset..];
            if tail == [] then d.dir.live - {STAGE} == Directory(records)
            else LegacySound(c, d, records, tail)
                 && d.dir.live - {STAGE} == Directory(records + [c.decode(tail[..|tail| - 1]).value])
  }

  lemma BoundStartable(c: HistoryCodec, d: Actions, records: seq<Entry>, r: Entry)
    requires CanonicalRuns(c) && At(c, d, records, Bound(r))
    ensures Startable(c, d)
  {
    PreparedIsSound(c, d, records, r);
    Renamed(c, d, records, r);
    assert records + [r] == (records + [r])[..];
    DropName(Directory(records + [r]), STAGE, r.inode);
    if STAGE !in d.dir.live {
      assert d.dir.live - {STAGE} == d.dir.live;
      assert d.dir.live[r.key := r.inode] == d.dir.live;
    }
  }

  /** What is left of the names once the private one is gone, and that its directory is empty. */
  lemma NamesLeft(c: HistoryCodec, d: Actions, records: seq<Entry>, stage: Stage)
    requires At(c, d, records, stage) && (stage.Idle? || stage.Legacy?)
    ensures d.dir.live - {STAGE} == Directory(records + RecordOf(stage))
    ensures STAGE in d.dir.live ==> d.dir.live[STAGE] !in d.used
  {
    UnstageKeeps(c, d, records, stage);
  }

  lemma IdleStartable(c: HistoryCodec, d: Actions, records: seq<Entry>)
    requires CanonicalRuns(c) && Ready(c, d, records, Idle)
    ensures Startable(c, d)
  {
    LoadsUnbound(c, d, records, Idle);
    NamesLeft(c, d, records, Idle);
    assert records + [] == records;
  }

  lemma LegacyStartable(c: HistoryCodec, d: Actions, records: seq<Entry>, r: Entry)
    requires CanonicalRuns(c) && Ready(c, d, records, Legacy(r))
    ensures Startable(c, d)
  {
    LegacyIsSound(c, d, records, r);
    NamesLeft(c, d, records, Legacy(r));
    DirectoryMore(records, r);
    var tail := d.history.live[|Lines(c, records)|..];
    assert tail[..|tail| - 1] == c.encode(r);
    assert r.key in d.dir.live - {STAGE};
  }

  /** Whatever recovery can start from, a new process accepts. */
  lemma ReadyStartable(c: HistoryCodec, d: Actions, records: seq<Entry>, stage: Stage)
    requires CanonicalRuns(c) && Ready(c, d, records, stage)
    ensures Startable(c, d)
  {
    match stage
    case Idle => IdleStartable(c, d, records);
    case Bound(r) => BoundStartable(c, d, records, r);
    case Legacy(r) => LegacyStartable(c, d, records, r);
    case _ => assert false;
  }

  ghost predicate EveryLossStartable(c: HistoryCodec, d: Actions) {
    forall e {:trigger Crashed(d, e)} :: Crashed(d, e) ==> Startable(c, e)
  }

  lemma LossesStartable(c: HistoryCodec, d: Actions, records: seq<Entry>, stage: Stage)
    requires CanonicalRuns(c) && At(c, d, records, stage)
    ensures EveryLossStartable(c, d)
  {
    forall e | Crashed(d, e) ensures Startable(c, e) {
      var now, left := CrashAt(c, d, e, records, stage);
      ReadyStartable(c, e, now, left);
    }
  }

  /** Everything durable as it is, but for the authority and the names. */
  function Returned(d: Actions, authority: RunAuthority, names: map<string, nat>): Actions {
    d.(history := Durable(d.history.live), authority := Durable(authority), dir := Durable(names))
  }

  // ----- a run moved into place, its name not synced -----

  /** What recovery of a bound run that is already in place leaves: it syncs the history and the authority, not the names. */
  function Recovered(c: HistoryCodec, d: Actions, records: seq<Entry>, r: Entry): Actions {
    d.(history := Durable(Lines(c, records + [r])), authority := Durable(AuthorityOf(c, records + [r])))
  }

  /**
    The rename's sync failed and the process went on to recover the run. Every power loss from there leaves startable
    actions if and only if the private name cannot come back.
   */
  lemma UnsyncedRename(c: HistoryCodec, d: Actions, records: seq<Entry>, r: Entry)
    requires CanonicalRuns(c) && At(c, d, records, Bound(r)) && STAGE !in d.dir.live
    ensures EveryLossStartable(c, Recovered(c, d, records, r)) <==> WithStage(records, r.inode) !in d.dir.may
    ensures WithStage(records, r.inode) !in d.dir.may <==> Certain(d)
  {
    var f := Recovered(c, d, records, r);
    assert d.authority == Durable(d.authority.live);
    if WithStage(records, r.inode) !in d.dir.may {
      assert d.dir.may == {Directory(records + [r])};
      RunsOkMore(c, d, records, r);
      assert At(c, f, records + [r], Idle);
      LossesStartable(c, f, records + [r], Idle);
    } else {
      var e := Returned(f, f.authority.live, WithStage(records, r.inode));
      assert Crashed(f, e);
      LostName(c, e, records, r);
    }
  }

  lemma LostName(c: HistoryCodec, e: Actions, records: seq<Entry>, r: Entry)
    requires CanonicalRuns(c) && Chained(c, records + [r]) && |records| < MAX_JOURNAL_RUNS && r.key != STAGE
    requires e.history.live == Lines(c, records + [r]) && e.authority.live == AuthorityOf(c, records + [r])
    requires e.dir.live == WithStage(records, r.inode)
    ensures !Startable(c, e)
  {
    RunsBounded(c, records + [r]);
    RunsLoad(c, e, records + [r]);
    LinesOneMore(c, records, r);
    FindIs(records, r.key);
    DirectoryIs(records, r.key);
    DirectoryMore(records, r);
    assert r.key !in e.dir.live - {STAGE} && r.key in Directory(records + [r]);
  }

  // ----- an authority bound to a run, not synced -----

  /** What recovery does first for an authority that it finds prepared: the directory moves into place, durably. */
  function MovedDurably(d: Actions, records: seq<Entry>, r: Entry): Actions {
    d.(dir := Durable(Directory(records + [r])))
  }

  /**
    The sync of the prepared authority failed and the process went on to recover the run. Every power loss once the
    directory is in place leaves startable actions if and only if the authority before cannot come back.
   */
  lemma UnsyncedPrepared(c: HistoryCodec, d: Actions, records: seq<Entry>, r: Entry)
    requires CanonicalRuns(c) && At(c, d, records, Preparing(r)) && d.authority.live == PreparedFor(c, records, r)
    ensures EveryLossStartable(c, MovedDurably(d, records, r)) <==> AuthorityOf(c, records) !in d.authority.may
    ensures AuthorityOf(c, records) !in d.authority.may <==> Certain(d)
  {
    var f := MovedDurably(d, records, r);
    LinesOneMore(c, records, r);
    NoStage(records + [r]);
    if AuthorityOf(c, records) !in d.authority.may {
      assert d.authority.may == {PreparedFor(c, records, r)};
      assert At(c, f, records, Bound(r));
      LossesStartable(c, f, records, Bound(r));
    } else {
      var e := Returned(f, AuthorityOf(c, records), Directory(records + [r]));
      assert Crashed(f, e);
      Unrecorded(c, e, records, r);
    }
  }

  lemma Unrecorded(c: HistoryCodec, e: Actions, records: seq<Entry>, r: Entry)
    requires CanonicalRuns(c) && Chained(c, records + [r]) && |records| < MAX_JOURNAL_RUNS && r.key != STAGE
    requires e.history.live == Lines(c, records) && e.authority.live == AuthorityOf(c, records)
    requires e.dir.live == Directory(records + [r])
    ensures !Startable(c, e)
  {
    LinesOneMore(c, records, r);
    RunsBounded(c, records);
    RunsLoad(c, e, records);
    FindIs(records, r.key);
    DirectoryIs(records, r.key);
    DirectoryMore(records, r);
    assert r.key in e.dir.live - {STAGE} && r.key !in Directory(records);
  }

  // ----- an authority that counts a run, not synced -----

  /** The process writes into the run's directory. */
  function Used(d: Actions, inode: nat): Actions {
    d.(used := d.used + {inode})
  }

  /** The process prepares a directory for another run, durably. */
  function NextStaged(d: Actions, records: seq<Entry>): Actions {
    d.(dir := Durable(WithStage(records, d.next)), next := d.next + 1)
  }

  /**
    The sync of the advanced authority failed and the process went on, to use the run or to prepare another. Every power
    loss from there leaves startable actions if and only if the prepared authority cannot come back.
   */
  lemma UnsyncedEstablished(c: HistoryCodec, d: Actions, records: seq<Entry>, r: Entry)
    requires CanonicalRuns(c) && At(c, d, records, Finishing(r)) && d.authority.live == AuthorityOf(c, records + [r])
    ensures EveryLossStartable(c, Used(d, r.inode)) <==> PreparedFor(c, records, r) !in d.authority.may
    ensures EveryLossStartable(c, NextStaged(d, records + [r])) <==> PreparedFor(c, records, r) !in d.authority.may
    ensures PreparedFor(c, records, r) !in d.authority.may <==> Certain(d)
  {
    if PreparedFor(c, records, r) !in d.authority.may {
      assert d.authority.may == {AuthorityOf(c, records + [r])};
      SettledUse(c, d, records, r);
    } else {
      TooLate(c, d, records, r);
    }
  }

  lemma SettledUse(c: HistoryCodec, d: Actions, records: seq<Entry>, r: Entry)
    requires CanonicalRuns(c) && At(c, d, records, Finishing(r)) && d.authority.may == {AuthorityOf(c, records + [r])}
    ensures EveryLossStartable(c, Used(d, r.inode)) && EveryLossStartable(c, NextStaged(d, records + [r]))
  {
    var all := records + [r];
    Settled(c, d, records, Finishing(r));
    assert all[|records|] == r;
    forall n | n in Used(d, r.inode).used ensures exists i :: 0 <= i < |all| && all[i].inode == n {
      if n == r.inode { assert all[|records|].inode == n; }
    }
    assert At(c, Used(d, r.inode), all, Idle);
    LossesStartable(c, Used(d, r.inode), all, Idle);
    var staged := NextStaged(d, all);
    NextUnused(c, d, all);
    assert StageBeside(staged, WithStage(all, d.next), all);
    assert At(c, staged, all, Idle);
    LossesStartable(c, staged, all, Idle);
  }

  lemma TooLate(c: HistoryCodec, d: Actions, records: seq<Entry>, r: Entry)
    requires CanonicalRuns(c) && At(c, d, records, Finishing(r)) && PreparedFor(c, records, r) in d.authority.may
    ensures !EveryLossStartable(c, Used(d, r.inode)) && !EveryLossStartable(c, NextStaged(d, records + [r]))
  {
    var all := records + [r];
    LinesOneMore(c, records, r);
    RunsBounded(c, all);
    var used, staged := Used(d, r.inode), NextStaged(d, all);
    var e := Returned(used, PreparedFor(c, records, r), Directory(all));
    assert Crashed(used, e);
    RunsLoad(c, e, records);
    assert !PreparedSound(c, e, records, |Lines(c, records)|, r);
    var g := Returned(staged, PreparedFor(c, records, r), WithStage(all, d.next));
    assert Crashed(staged, g);
    RunsLoad(c, g, records);
    DirectoryMore(records, r);
    assert STAGE in g.dir.live && r.key in g.dir.live;
    assert !PreparedSound(c, g, records, |Lines(c, records)|, r);
  }
}
