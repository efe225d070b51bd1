/**
  The actions directory, the history of registered run directories, and the root authority over both. A run is registered
  by preparing its directory under a private name, moving it into place, writing its record and advancing the authority.
 */
module RunDisk {
  import opened Results
  import opened ByteLines
  import opened Durability
  import opened LinkedHistory

  const MAX_JOURNAL_RUNS: nat := 10000
  const MAX_RUN_RECORD_BYTES: nat := 1024
  const MAX_RUN_HISTORY_BYTES: nat := MAX_JOURNAL_RUNS * (MAX_RUN_RECORD_BYTES + 1)

  /** The private name of a directory being prepared; no run's storage component is spelled so. */
  const STAGE := ".run-generation.prepared"

  /** In this history a key is a run's storage component, and its value the run. */
  ghost predicate CanonicalRuns(c: HistoryCodec) {
    CanonicalHistory(c) && c.maxLine == MAX_RUN_RECORD_BYTES
  }

  datatype RunAuthority = Established(count: nat, digest: string) | Prepared(count: nat, digest: string, record: Entry)

  /** `dir` leads from names in the actions directory to inodes; `used` are the run directories with something in them. */
  datatype Actions = Actions(history: Cell<seq<byte>>, authority: Cell<RunAuthority>, dir: Cell<map<string, nat>>,
                             used: set<nat>, next: nat)

  /** The names of the committed runs. */
  function Directory(records: seq<Entry>): map<string, nat> {
    if records == [] then map[] else
      Directory(records[..|records| - 1])[records[|records| - 1].key := records[|records| - 1].inode]
  }

  function AuthorityOf(c: HistoryCodec, records: seq<Entry>): RunAuthority {
    Established(|records|, FinalDigest(c, records))
  }

  function PreparedFor(c: HistoryCodec, records: seq<Entry>, r: Entry): RunAuthority {
    Prepared(|records|, FinalDigest(c, records), r)
  }

  function WithStage(records: seq<Entry>, inode: nat): map<string, nat> {
    Directory(records)[STAGE := inode]
  }

  lemma {:induction false} DirectoryIs(records: seq<Entry>, key: string)
    ensures key in Directory(records) <==> Find(records, key).Some?
    ensures key in Directory(records) ==> Directory(records)[key] == Find(records, key).value.inode
  {
    if records != [] { DirectoryIs(records[..|records| - 1], key); }
  }

  lemma DirectoryMore(records: seq<Entry>, r: Entry)
    ensures Directory(records + [r]) == Directory(records)[r.key := r.inode]
  {
    assert (records + [r])[..|records|] == records;
  }

  // ----- what a disk stands for -----

  /** The committed runs: each has its own inode, none is named like the stage, and only their directories are used. */
  predicate RunsOk(c: HistoryCodec, d: Actions, records: seq<Entry>) {
    && Chained(c, records) && |records| <= MAX_JOURNAL_RUNS
    && (forall i :: 0 <= i < |records| ==> records[i].inode < d.next && records[i].key != STAGE)
    && (forall n :: n in d.used ==> exists i :: 0 <= i < |records| && records[i].inode == n)
  }

  /** A directory no run has, with nothing in it. */
  predicate Vacant(d: Actions, records: seq<Entry>, inode: nat) {
    inode !in d.used && inode < d.next && forall i :: 0 <= i < |records| ==> records[i].inode != inode
  }

  /** A run that may be registered next: its directory is new and empty. */
  predicate Candidate(c: HistoryCodec, d: Actions, records: seq<Entry>, r: Entry) {
    && Chained(c, records + [r]) && |records| < MAX_JOURNAL_RUNS
    && Vacant(d, records, r.inode) && r.key != STAGE
  }

  /** Where the registration of a run stands. `Legacy` is a record an older writer appended before the authority counted it. */
  datatype Stage = Idle | Preparing(r: Entry) | Bound(r: Entry) | Finishing(r: Entry) | Legacy(r: Entry)

  ghost predicate At(c: HistoryCodec, d: Actions, records: seq<Entry>, stage: Stage) {
    && RunsOk(c, d, records)
    && d.history.live in d.history.may && d.authority.live in d.authority.may && d.dir.live in d.dir.may
    && match stage
       case Idle => AtIdle(c, d, records)
       case Preparing(r) => Candidate(c, d, records, r) && AtPreparing(c, d, records, r)
       case Bound(r) => Candidate(c, d, records, r) && AtBound(c, d, records, r)
       case Finishing(r) => Candidate(c, d, records, r) && AtFinishing(c, d, records, r)
       case Legacy(r) => Candidate(c, d, records, r) && AtLegacy(c, d, records, r)
  }

  predicate AtIdle(c: HistoryCodec, d: Actions, records: seq<Entry>) {
    && d.authority.may == {AuthorityOf(c, records)}
    && d.history.may == {Lines(c, records)}
    && forall v :: v in d.dir.may ==> v == Directory(records) || StageBeside(d, v, records)
  }

  predicate AtPreparing(c: HistoryCodec, d: Actions, records: seq<Entry>, r: Entry) {
    && (forall v :: v in d.authority.may ==> v == AuthorityOf(c, records) || v == PreparedFor(c, records, r))
    && d.history.may == {Lines(c, records)}
    && d.dir.may == {WithStage(records, r.inode)}
  }

  predicate AtBound(c: HistoryCodec, d: Actions, records: seq<Entry>, r: Entry) {
    && d.authority.may == {PreparedFor(c, records, r)}
    && (forall v :: v in d.history.may ==> Lines(c, records) <= v <= Lines(c, records + [r]))
    && forall v :: v in d.dir.may ==> v == WithStage(records, r.inode) || v == Directory(records + [r])
  }

  predicate AtFinishing(c: HistoryCodec, d: Actions, records: seq<Entry>, r: Entry) {
    && (forall v :: v in d.authority.may ==> v == PreparedFor(c, records, r) || v == AuthorityOf(c, records + [r]))
    && d.history.may == {Lines(c, records + [r])}
    && d.dir.may == {Directory(records + [r])}
  }

  predicate AtLegacy(c: HistoryCodec, d: Actions, records: seq<Entry>, r: Entry) {
    && (forall v :: v in d.authority.may ==> v == AuthorityOf(c, records) || v == AuthorityOf(c, records + [r]))
    && d.history.may == {Lines(c, records + [r])}
    && forall v :: v in d.dir.may ==> v == Directory(records + [r]) || StageBeside(d, v, records + [r])
  }

  /** A directory left under the private name, empty and not yet bound to a run. */
  predicate StageBeside(d: Actions, v: map<string, nat>, records: seq<Entry>) {
    STAGE in v && v == WithStage(records, v[STAGE]) && Vacant(d, records, v[STAGE])
  }

  // ----- crashes -----

  /** The power fails: every place comes back as one of its versions. */
  predicate Crashed(d: Actions, e: Actions) {
    && Restarted(d.history, e.history) && Restarted(d.authority, e.authority) && Restarted(d.dir, e.dir)
    && e.used == d.used && e.next == d.next
  }

  /** The authority is durable, and so is the final name of a run that it has bound and that has been moved into place. */
  predicate Certain(d: Actions) {
    && d.authority == Durable(d.authority.live)
    && (d.authority.live.Prepared? && STAGE !in d.dir.live ==> d.dir == Durable(d.dir.live))
  }

  /** The disk of a process that takes for durable what it sees of the authority and of a bound run's final name. */
  function Taken(d: Actions): Actions {
    d.(authority := Durable(d.authority.live),
       dir := if d.authority.live.Prepared? && STAGE !in d.dir.live then Durable(d.dir.live) else d.dir)
  }

  /** Versions that a process has taken for overwritten, and that a power loss may bring back all the same. */
  datatype Stale = Stale(authorities: set<RunAuthority>, names: set<map<string, nat>>)

  const NOTHING_STALE := Stale({}, {})

  function TakenOver(d: Actions): Stale {
    Stale(d.authority.may - {d.authority.live},
          if d.authority.live.Prepared? && STAGE !in d.dir.live then d.dir.may - {d.dir.live} else {})
  }

  function Both(a: Stale, b: Stale): Stale {
    Stale(a.authorities + b.authorities, a.names + b.names)
  }

  /** The disk with the stale versions. */
  function Real(d: Actions, stale: Stale): Actions {
    d.(authority := Cell(d.authority.live, d.authority.may + stale.authorities), dir := Cell(d.dir.live, d.dir.may + stale.names))
  }

  /** Nothing is lost from sight by taking it for durable. */
  lemma RealIsWhole(d: Actions)
    requires Current(d.authority) && Current(d.dir)
    ensures Real(Taken(d), TakenOver(d)) == d
  {
    assert {d.authority.live} + (d.authority.may - {d.authority.live}) == d.authority.may;
    assert {d.dir.live} + (d.dir.may - {d.dir.live}) == d.dir.may;
    assert d.dir.may + {} == d.dir.may;
  }

  lemma CertainTakes(d: Actions, stale: Stale)
    requires Certain(d)
    ensures Both(stale, TakenOver(d)) == stale
  {
    assert stale.authorities + {} == stale.authorities && stale.names + {} == stale.names;
    assert d.authority.may - {d.authority.live} == {};
  }

  /** A disk recovery can start from, as a crash leaves it or a process that goes on sees it. */
  ghost predicate Ready(c: HistoryCodec, d: Actions, records: seq<Entry>, stage: Stage) {
    && At(c, d, records, stage) && Certain(d)
    && (stage.Idle? || stage.Bound? || (stage.Legacy? && d.authority.live == AuthorityOf(c, records)))
  }

  function RecordOf(stage: Stage): seq<Entry> {
    match stage case Idle => [] case Preparing(r) => [r] case Bound(r) => [r] case Finishing(r) => [r] case Legacy(r) => [r]
  }

  lemma RunsOkMore(c: HistoryCodec, d: Actions, records: seq<Entry>, r: Entry)
    requires RunsOk(c, d, records) && Candidate(c, d, records, r)
    ensures RunsOk(c, d, records + [r])
  {
    forall n | n in d.used ensures exists i :: 0 <= i < |records + [r]| && (records + [r])[i].inode == n {
      var i :| 0 <= i < |records| && records[i].inode == n;
      assert (records + [r])[i] == records[i];
    }
  }

  /** The authority has settled on the longer history. */
  lemma Settled(c: HistoryCodec, d: Actions, records: seq<Entry>, stage: Stage)
    requires At(c, d, records, stage) && (stage.Finishing? || stage.Legacy?)
    requires d.authority.may == {AuthorityOf(c, records + [stage.r])}
    ensures At(c, d, records + [stage.r], Idle)
  {
    RunsOkMore(c, d, records, stage.r);
  }

  lemma IdleCrashes(c: HistoryCodec, d: Actions, e: Actions, records: seq<Entry>)
    requires At(c, d, records, Idle) && Crashed(d, e)
    ensures At(c, e, records, Idle)
  {
    if e.dir.live != Directory(records) { assert StageBeside(d, e.dir.live, records); }
  }

  lemma BoundCrashes(c: HistoryCodec, d: Actions, e: Actions, records: seq<Entry>, r: Entry)
    requires At(c, d, records, Bound(r)) && Crashed(d, e)
    ensures At(c, e, records, Bound(r))
  {
  }

  lemma PreparingCrashes(c: HistoryCodec, d: Actions, e: Actions, records: seq<Entry>, r: Entry)
    requires At(c, d, records, Preparing(r)) && Crashed(d, e)
    ensures e.authority.live == AuthorityOf(c, records) ==> At(c, e, records, Idle)
    ensures e.authority.live != AuthorityOf(c, records) ==> At(c, e, records, Bound(r))
  {
    LinesOneMore(c, records, r);
    assert e.dir.live == WithStage(records, r.inode);
    assert StageBeside(e, e.dir.live, records);
  }

  lemma FinishingCrashes(c: HistoryCodec, d: Actions, e: Actions, records: seq<Entry>, r: Entry)
    requires At(c, d, records, Finishing(r)) && Crashed(d, e)
    ensures e.authority.live == AuthorityOf(c, records + [r]) ==> At(c, e, records + [r], Idle)
    ensures e.authority.live != AuthorityOf(c, records + [r]) ==> At(c, e, records, Bound(r))
  {
    LinesOneMore(c, records, r);
    if e.authority.live == AuthorityOf(c, records + [r]) {
      assert AtFinishing(c, e, records, r);
      Settled(c, e, records, Finishing(r));
    }
  }

  lemma LegacyCrashes(c: HistoryCodec, d: Actions, e: Actions, records: seq<Entry>, r: Entry)
    requires At(c, d, records, Legacy(r)) && Crashed(d, e)
    ensures At(c, e, records, Legacy(r))
    ensures e.authority.live == AuthorityOf(c, records + [r]) ==> At(c, e, records + [r], Idle)
  {
    if e.authority.live == AuthorityOf(c, records + [r]) {
      Settled(c, e, records, Legacy(r));
    }
  }

  /** A crash leaves the registration where it was, one step back, or complete. */
  lemma CrashAt(c: HistoryCodec, d: Actions, e: Actions, records: seq<Entry>, stage: Stage)
    returns (now: seq<Entry>, left: Stage)
    requires At(c, d, records, stage) && Crashed(d, e)
    ensures Ready(c, e, now, left)
    ensures now == records || (now == records + RecordOf(stage) && left == Idle)
    ensures left == Idle || left == stage || (left.Bound? && RecordOf(left) == RecordOf(stage))
  {
    now, left := records, stage;
    match stage
    case Idle => IdleCrashes(c, d, e, records);
    case Bound(r) => BoundCrashes(c, d, e, records, r);
    case Preparing(r) =>
      PreparingCrashes(c, d, e, records, r);
      left := if e.authority.live == AuthorityOf(c, records) then Idle else Bound(r);
    case Finishing(r) =>
      FinishingCrashes(c, d, e, records, r);
      if e.authority.live == AuthorityOf(c, records + [r]) {
        now, left := records + [r], Idle;
      } else {
        left := Bound(r);
      }
    case Legacy(r) =>
      LegacyCrashes(c, d, e, records, r);
      if e.authority.live == AuthorityOf(c, records + [r]) {
        now, left := records + [r], Idle;
      }
  }

  lemma PreparingTaken(c: HistoryCodec, d: Actions, records: seq<Entry>, r: Entry)
    requires At(c, d, records, Preparing(r))
    ensures d.authority.live == AuthorityOf(c, records) ==> At(c, Taken(d), records, Idle)
    ensures d.authority.live != AuthorityOf(c, records) ==> At(c, Taken(d), records, Bound(r))
  {
    LinesOneMore(c, records, r);
    assert StageBeside(Taken(d), WithStage(records, r.inode), records);
  }

  lemma FinishingTaken(c: HistoryCodec, d: Actions, records: seq<Entry>, r: Entry)
    requires At(c, d, records, Finishing(r))
    ensures d.authority.live == AuthorityOf(c, records + [r]) ==> At(c, Taken(d), records + [r], Idle)
    ensures d.authority.live != AuthorityOf(c, records + [r]) ==> At(c, Taken(d), records, Bound(r))
  {
    LinesOneMore(c, records, r);
    if d.authority.live == AuthorityOf(c, records + [r]) { Settled(c, Taken(d), records, Finishing(r)); }
  }

  lemma LegacyTaken(c: HistoryCodec, d: Actions, records: seq<Entry>, r: Entry)
    requires At(c, d, records, Legacy(r))
    ensures At(c, Taken(d), records, Legacy(r))
    ensures d.authority.live == AuthorityOf(c, records + [r]) ==> At(c, Taken(d), records + [r], Idle)
  {
    BesideTaken(d, records + [r]);
    if d.authority.live == AuthorityOf(c, records + [r]) { Settled(c, Taken(d), records, Legacy(r)); }
  }

  /** Going on, or starting anew, on what the disk shows leaves the registration where it was, one step back, or complete. */
  lemma TakenAt(c: HistoryCodec, d: Actions, records: seq<Entry>, stage: Stage) returns (now: seq<Entry>, left: Stage)
    requires At(c, d, records, stage)
    ensures Ready(c, Taken(d), now, left)
    ensures now == records || (now == records + RecordOf(stage) && left == Idle)
    ensures left == Idle || left == stage || (left.Bound? && RecordOf(left) == RecordOf(stage))
  {
    now, left := records, stage;
    match stage
    case Idle => assert Taken(d) == d;
    case Bound(r) => BoundNames(c, d, records, r);
    case Preparing(r) =>
      PreparingTaken(c, d, records, r);
      left := if d.authority.live == AuthorityOf(c, records) then Idle else Bound(r);
    case Finishing(r) =>
      FinishingTaken(c, d, records, r);
      if d.authority.live == AuthorityOf(c, records + [r]) {
        now, left := records + [r], Idle;
      } else {
        left := Bound(r);
      }
    case Legacy(r) =>
      LegacyTaken(c, d, records, r);
      if d.authority.live == AuthorityOf(c, records + [r]) {
        now, left := records + [r], Idle;
      }
  }

  lemma BoundNames(c: HistoryCodec, d: Actions, records: seq<Entry>, r: Entry)
    requires At(c, d, records, Bound(r))
    ensures At(c, Taken(d), records, Bound(r))
  {
  }

  lemma BesideTaken(d: Actions, records: seq<Entry>)
    ensures forall v {:trigger StageBeside(Taken(d), v, records)} :: StageBeside(d, v, records) ==> StageBeside(Taken(d), v, records)
  {
  }

  /** What the disk shows is one of the things a crash may leave of it. */
  lemma TakenCrashes(d: Actions, e: Actions)
    requires Current(d.authority) && Current(d.dir) && Crashed(Taken(d), e)
    ensures Crashed(d, e)
  {
  }

  // ----- the steps -----

  function NamesSynced(d: Actions): Actions {
    d.(dir := Durable(d.dir.live))
  }

  function RootSynced(d: Actions): Actions {
    d.(authority := Durable(d.authority.live))
  }

  function Moved(d: Actions, to: map<string, nat>): Actions {
    d.(dir := Changed(d.dir, to))
  }

  function Set(d: Actions, authority: RunAuthority): Actions {
    d.(authority := Changed(d.authority, authority))
  }

  /** What may be under the private name depends on the used inodes alone. */
  lemma BesideSame(d: Actions, e: Actions, v: map<string, nat>, records: seq<Entry>)
    requires e.used == d.used && e.next == d.next
    ensures StageBeside(e, v, records) <==> StageBeside(d, v, records)
  {
  }

  lemma NamesSyncKeeps(c: HistoryCodec, d: Actions, records: seq<Entry>, stage: Stage)
    requires At(c, d, records, stage)
    ensures At(c, NamesSynced(d), records, stage)
  {
    var e := NamesSynced(d);
    BesideSame(d, e, d.dir.live, records + RecordOf(stage));
    assert records + [] == records;
    match stage
    case Idle => assert AtIdle(c, e, records);
    case Preparing(r) => assert AtPreparing(c, e, records, r);
    case Bound(r) => assert AtBound(c, e, records, r);
    case Finishing(r) => assert AtFinishing(c, e, records, r);
    case Legacy(r) => assert AtLegacy(c, e, records, r);
  }

  lemma RootSyncKeeps(c: HistoryCodec, d: Actions, records: seq<Entry>, stage: Stage)
    requires At(c, d, records, stage)
    ensures At(c, RootSynced(d), records, stage)
  {
    var e := RootSynced(d);
    match stage
    case Idle => assert e == d;
    case Preparing(r) => assert AtPreparing(c, e, records, r);
    case Bound(r) => assert AtBound(c, e, records, r);
    case Finishing(r) => assert AtFinishing(c, e, records, r);
    case Legacy(r) =>
      forall v | v in e.dir.may ensures v == Directory(records + [r]) || StageBeside(e, v, records + [r]) {
        BesideSame(d, e, v, records + [r]);
      }
      assert AtLegacy(c, e, records, r);
  }

  /** Taking the private name away, or putting it beside the committed runs. */
  lemma StageKeeps(c: HistoryCodec, d: Actions, records: seq<Entry>, stage: Stage, to: map<string, nat>)
    requires At(c, d, records, stage) && (stage.Idle? || stage.Legacy?)
    requires var all := records + RecordOf(stage); to == Directory(all) || StageBeside(d, to, all)
    ensures At(c, Moved(d, to), records, stage)
  {
    assert records + [] == records;
    var e, all := Moved(d, to), records + RecordOf(stage);
    forall v | v in e.dir.may ensures v == Directory(all) || StageBeside(e, v, all) {
      BesideSame(d, e, v, all);
    }
    if stage.Idle? { assert AtIdle(c, e, records); } else { assert AtLegacy(c, e, records, stage.r); }
  }

  lemma {:induction false} NoStage(records: seq<Entry>)
    requires forall i :: 0 <= i < |records| ==> records[i].key != STAGE
    ensures STAGE !in Directory(records)
  {
    if records != [] { NoStage(records[..|records| - 1]); }
  }

  /** What is left once the private name is gone. */
  lemma StageGone(d: Actions, v: map<string, nat>, records: seq<Entry>)
    requires forall i :: 0 <= i < |records| ==> records[i].key != STAGE
    requires v == Directory(records) || StageBeside(d, v, records)
    ensures v - {STAGE} == Directory(records) && (STAGE !in v ==> v == Directory(records))
  {
    NoStage(records);
    DropName(Directory(records), STAGE, if STAGE in v then v[STAGE] else 0);
  }

  lemma DropName(names: map<string, nat>, name: string, inode: nat)
    requires name !in names
    ensures names[name := inode] - {name} == names && names - {name} == names
  {
  }

  /** The bound directory moves into place. */
  lemma Renamed(c: HistoryCodec, d: Actions, records: seq<Entry>, r: Entry)
    requires At(c, d, records, Bound(r))
    ensures (WithStage(records, r.inode) - {STAGE})[r.key := r.inode] == Directory(records + [r])
    ensures At(c, Moved(d, Directory(records + [r])), records, Bound(r))
    ensures STAGE !in Directory(records + [r]) && r.key !in WithStage(records, r.inode)
    ensures Directory(records + [r])[r.key] == r.inode
  {
    NoStage(records);
    DirectoryMore(records, r);
    DropName(Directory(records), STAGE, r.inode);
    LinesOneMore(c, records, r);
    FindIs(records, r.key);
    DirectoryIs(records, r.key);
  }

  /** Any prefix of the record's line may be in the history while the run is bound. */
  lemma HistoryKeeps(c: HistoryCodec, d: Actions, records: seq<Entry>, r: Entry, h: Cell<seq<byte>>)
    requires At(c, d, records, Bound(r)) && h.live in h.may
    requires forall v :: v in h.may ==> Lines(c, records) <= v <= Lines(c, records + [r])
    ensures At(c, d.(history := h), records, Bound(r))
  {
  }

  lemma WrittenBetween(c: HistoryCodec, h: Cell<seq<byte>>, records: seq<Entry>, r: Entry, chunk: seq<byte>)
    requires h.live == Lines(c, records) && chunk <= c.encode(r) + [NEWLINE]
    requires forall v :: v in h.may ==> Lines(c, records) <= v <= Lines(c, records + [r])
    ensures forall v :: v in Appended(h, chunk).may ==> Lines(c, records) <= v <= Lines(c, records + [r])
    ensures Appended(h, chunk).live in Appended(h, chunk).may
  {
    LinesOneMore(c, records, r);
    var line := c.encode(r) + [NEWLINE];
    assert chunk[..|chunk|] == chunk;
    forall v | v in Prefixes(h.live, chunk) ensures Lines(c, records) <= v <= Lines(c, records + [r]) {
      var k :| 0 <= k <= |chunk| && v == h.live + chunk[..k];
      assert chunk[..k] == line[..k];
      assert v == (h.live + line)[..|h.live| + k];
    }
  }

  /** Name and record are durable: the authority may advance. */
  lemma ReadyToFinish(c: HistoryCodec, d: Actions, records: seq<Entry>, r: Entry)
    requires At(c, d, records, Bound(r))
    requires d.history.may == {Lines(c, records + [r])} && d.dir.may == {Directory(records + [r])}
    ensures At(c, d, records, Finishing(r)) && At(c, Set(d, AuthorityOf(c, records + [r])), records, Finishing(r))
  {
  }

  /** The staged directory is durable and nothing else has changed: the authority may bind it to a run. */
  lemma ReadyToBind(c: HistoryCodec, d: Actions, records: seq<Entry>, r: Entry)
    requires At(c, d, records, Idle) && Candidate(c, d, records, r) && d.dir.may == {WithStage(records, r.inode)}
    ensures At(c, d, records, Preparing(r)) && At(c, Set(d, PreparedFor(c, records, r)), records, Preparing(r))
  {
  }

  lemma BoundNow(c: HistoryCodec, d: Actions, records: seq<Entry>, r: Entry)
    requires At(c, d, records, Preparing(r)) && d.authority.may == {PreparedFor(c, records, r)}
    ensures At(c, d, records, Bound(r))
  {
    LinesOneMore(c, records, r);
  }

  /** Nothing was bound after all. */
  lemma Unbound(c: HistoryCodec, d: Actions, records: seq<Entry>, r: Entry)
    requires At(c, d, records, Preparing(r)) && d.authority.may == {AuthorityOf(c, records)}
    ensures At(c, d, records, Idle)
  {
    assert StageBeside(d, WithStage(records, r.inode), records);
  }

  /** Without the private name there are the committed runs' names. */
  lemma NamesClear(c: HistoryCodec, d: Actions, records: seq<Entry>, stage: Stage)
    requires At(c, d, records, stage) && (stage.Idle? || stage.Legacy?) && STAGE !in d.dir.live
    ensures d.dir.live == Directory(records + RecordOf(stage))
  {
    assert records + [] == records;
    var all := records + RecordOf(stage);
    assert forall i :: 0 <= i < |all| ==> all[i].key != STAGE;
    StageGone(d, d.dir.live, all);
  }

  lemma LegacyAdvances(c: HistoryCodec, d: Actions, records: seq<Entry>, r: Entry)
    requires At(c, d, records, Legacy(r))
    ensures At(c, Set(d, AuthorityOf(c, records + [r])), records, Legacy(r))
  {
  }

  /** A new directory under the private name. */
  lemma StageMade(c: HistoryCodec, d: Actions, records: seq<Entry>)
    requires At(c, d, records, Idle) && d.next !in d.used
    ensures At(c, Moved(d.(next := d.next + 1), WithStage(records, d.next)), records, Idle)
  {
    var e := Moved(d.(next := d.next + 1), WithStage(records, d.next));
    assert StageBeside(e, WithStage(records, d.next), records);
    forall v | v in d.dir.may ensures v == Directory(records) || StageBeside(e, v, records) {
      if v != Directory(records) { assert StageBeside(d, v, records); }
    }
  }

  /** The number of the next new directory is not a used one. */
  lemma NextUnused(c: HistoryCodec, d: Actions, records: seq<Entry>)
    requires RunsOk(c, d, records)
    ensures d.next !in d.used
  {
  }
}
