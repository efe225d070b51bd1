/**
  The disk a run directory lives on: it may lose or tear whatever was not synced. Which contents a disk stands for, given
  the rollback marker, and what each kind of step keeps of that.
 */
module AppendDisk {
  import opened Results
  import opened ByteLines
  import opened Journal
  import opened JournalTheorems

  // ----- the disk -----

  /** One version of a named file: which inode the name leads to, and that inode's bytes. */
  datatype Node = Node(inode: nat, data: seq<byte>)

  /** What a name holds now, and every version of it that a crash may bring back. */
  datatype Slot = Slot(live: Option<Node>, may: set<Option<Node>>)

  /** `segments[i]` is the file of epoch i + 1. */
  datatype Disk = Disk(marker: Slot, segments: seq<Slot>)

  function Data(v: Option<Node>): Option<seq<byte>> {
    match v case None => None case Some(n) => Some(n.data)
  }

  function CreatedSlot(s: Slot, inode: nat): Slot {
    Slot(Some(Node(inode, [])), s.may + {Some(Node(inode, []))})
  }

  /** Appending may persist any prefix of the bytes. */
  function WrittenSlot(s: Slot, chunk: seq<byte>): (r: Slot)
    requires s.live.Some?
    ensures r.live in r.may
  {
    var n := s.live.value;
    assert chunk[..|chunk|] == chunk;
    Slot(Some(Node(n.inode, n.data + chunk)),
         s.may + set k | 0 <= k <= |chunk| :: Some(Node(n.inode, n.data + chunk[..k])))
  }

  /** Truncation is one step. */
  function TruncatedSlot(s: Slot, size: nat): Slot
    requires s.live.Some? && size <= |s.live.value.data|
  {
    var n := s.live.value;
    Slot(Some(Node(n.inode, n.data[..size])), s.may + {Some(Node(n.inode, n.data[..size]))})
  }

  function RemovedSlot(s: Slot): Slot {
    Slot(None, s.may + {None})
  }

  /** After a file sync the open inode has only its current bytes; its directory entry may still be lost. */
  function FileSyncedSlot(s: Slot): Slot
    requires s.live.Some?
  {
    Slot(s.live, (set v | v in s.may && (v.None? || v.value.inode != s.live.value.inode)) + {s.live})
  }

  /** After a directory sync the name leads where it leads now. */
  function DirSyncedSlot(s: Slot): Slot {
    match s.live
    case None => Slot(None, {None})
    case Some(n) => Slot(s.live, set v | v in s.may && v.Some? && v.value.inode == n.inode)
  }

  function DirSynced(d: Disk): Disk {
    Disk(DirSyncedSlot(d.marker), seq(|d.segments|, i requires 0 <= i < |d.segments| => DirSyncedSlot(d.segments[i])))
  }

  datatype Name = Marker | SegmentFile(epoch: nat)

  predicate Named(d: Disk, name: Name) {
    name.SegmentFile? ==> 1 <= name.epoch <= |d.segments|
  }

  function Get(d: Disk, name: Name): Slot
    requires Named(d, name)
  {
    match name case Marker => d.marker case SegmentFile(e) => d.segments[e - 1]
  }

  function Put(d: Disk, name: Name, s: Slot): Disk
    requires Named(d, name)
  {
    match name case Marker => d.(marker := s) case SegmentFile(e) => d.(segments := d.segments[e - 1 := s])
  }

  // ----- the marker -----

  /** The rollback marker: the segment being appended to, and its size before. */
  datatype Pending = Pending(epoch: nat, size: nat)

  datatype MarkerCodec = MarkerCodec(encode: Pending -> seq<byte>, decode: seq<byte> -> Option<Pending>)

  /** Only the canonical encoding decodes, and no proper prefix of one does. */
  ghost predicate Framed(m: MarkerCodec) {
    && (forall p: Pending :: m.decode(m.encode(p)) == Some(p))
    && (forall p: Pending, torn: seq<byte> {:trigger m.decode(torn), m.encode(p)} :: torn < m.encode(p) ==> m.decode(torn) == None)
    && m.decode([]) == None
  }

  // ----- what a crash leaves -----

  datatype Image = Image(marker: Option<seq<byte>>, segments: seq<Option<seq<byte>>>)

  predicate Version(s: Slot, x: Option<seq<byte>>) {
    exists v :: v in s.may && x == Data(v)
  }

  lemma VersionOf(s: Slot, x: Option<seq<byte>>) returns (v: Option<Node>)
    requires Version(s, x)
    ensures v in s.may && x == Data(v)
  {
    v :| v in s.may && x == Data(v);
  }

  /** Each name independently comes back as one of its possible versions. */
  ghost predicate IsImage(d: Disk, im: Image) {
    && Version(d.marker, im.marker)
    && |im.segments| == |d.segments|
    && forall i {:trigger im.segments[i]} :: 0 <= i < |im.segments| ==> Version(d.segments[i], im.segments[i])
  }

  /** The segment files after recovery has consumed the marker, or None where recovery refuses. */
  function Recover(m: MarkerCodec, im: Image): Option<seq<Option<seq<byte>>>> {
    match im.marker
    case None => Some(im.segments)
    case Some(bytes) =>
      match m.decode(bytes)
      case None => None
      case Some(p) =>
        if !(1 <= p.epoch <= |im.segments|) || im.segments[p.epoch - 1] == None then
          if p.size == 0 then Some(im.segments) else None
        else
          var data := im.segments[p.epoch - 1].value;
          if |data| < p.size then None else Some(im.segments[p.epoch - 1 := Some(data[..p.size])])
  }

  function FileOf(segments: seq<Option<seq<byte>>>, epoch: nat): Option<seq<byte>> {
    if 1 <= epoch <= |segments| then segments[epoch - 1] else None
  }

  function DirectoryOf(segments: seq<Option<seq<byte>>>): map<nat, seq<byte>> {
    map e: nat | 1 <= e <= |segments| && FileOf(segments, e).Some? :: FileOf(segments, e).value
  }

  /** What a fresh process reads from an image: recovery, then the scan. */
  function ReadBack(c: Codec, m: MarkerCodec, im: Image): Option<State> {
    match Recover(m, im)
    case None => None
    case Some(segments) => Scan(c, DirectoryOf(segments))
  }

  // ----- the contents a disk stands for -----

  /** `base` lists the non-empty segments; one empty segment may trail them. */
  predicate GoodAt(base: seq<seq<byte>>, i: nat, x: Option<seq<byte>>) {
    if i < |base| then x == Some(base[i]) else x == None || (i == |base| && x == Some([]))
  }

  predicate Matches(segments: seq<Option<seq<byte>>>, base: seq<seq<byte>>) {
    |base| <= |segments| && forall i :: 0 <= i < |segments| ==> GoodAt(base, i, segments[i])
  }

  predicate SlotReads(base: seq<seq<byte>>, i: nat, s: Slot) {
    forall v :: v in s.may ==> GoodAt(base, i, Data(v))
  }

  /** Cutting any version of the slot back to `size` gives the contents. */
  predicate CutsTo(base: seq<seq<byte>>, i: nat, size: nat, x: Option<seq<byte>>) {
    match x
    case None => size == 0 && GoodAt(base, i, None)
    case Some(data) => size <= |data| && GoodAt(base, i, Some(data[..size]))
  }

  predicate SlotCuts(base: seq<seq<byte>>, p: Pending, s: Slot)
    requires p.epoch > 0
  {
    forall v :: v in s.may ==> CutsTo(base, p.epoch - 1, p.size, Data(v))
  }

  /** Rolling back to `p` gives the contents, whatever versions come back. */
  predicate RollsBackTo(base: seq<seq<byte>>, p: Pending, segments: seq<Slot>) {
    && 1 <= p.epoch <= |segments|
    && SlotCuts(base, p, segments[p.epoch - 1])
    && forall i :: 0 <= i < |segments| && i != p.epoch - 1 ==> SlotReads(base, i, segments[i])
  }

  /** Every version of the disk that recovery accepts reads as `base`. */
  ghost predicate Holds(m: MarkerCodec, d: Disk, base: seq<seq<byte>>) {
    && |base| <= |d.segments| == MAX_JOURNAL_EPOCHS
    && (None in d.marker.may ==> forall i :: 0 <= i < |d.segments| ==> SlotReads(base, i, d.segments[i]))
    && (forall n :: Some(n) in d.marker.may && m.decode(n.data).Some? ==> RollsBackTo(base, m.decode(n.data).value, d.segments))
  }

  lemma HoldsMeans(m: MarkerCodec, d: Disk, base: seq<seq<byte>>, im: Image)
    requires Holds(m, d, base) && IsImage(d, im)
    ensures Recover(m, im) == None <==> im.marker.Some? && m.decode(im.marker.value) == None
    ensures Recover(m, im).Some? ==> Matches(Recover(m, im).value, base)
  {
    var v := VersionOf(d.marker, im.marker);
    forall i | 0 <= i < |im.segments|
      ensures v == None ==> GoodAt(base, i, im.segments[i])
      ensures v.Some? && m.decode(v.value.data).Some? ==>
                var p := m.decode(v.value.data).value;
                if i == p.epoch - 1 then CutsTo(base, i, p.size, im.segments[i]) else GoodAt(base, i, im.segments[i])
    {
      var w := VersionOf(d.segments[i], im.segments[i]);
      if v == None { assert SlotReads(base, i, d.segments[i]); }
    }
  }

  // ----- phases of an append -----

  /** The segment's contents before the append, as far as the marker's size. */
  function Kept(base: seq<seq<byte>>, epoch: nat): seq<byte>
    requires 1 <= epoch <= |base| + 1
  {
    if epoch <= |base| then base[epoch - 1] else []
  }

  /** The contents once the line is in. */
  function Grown(base: seq<seq<byte>>, epoch: nat, line: seq<byte>): seq<seq<byte>>
    requires 1 <= epoch <= |base| + 1
  {
    if epoch <= |base| then base[epoch - 1 := base[epoch - 1] + line] else base + [line]
  }

  /** The marker is for an append to `base`: its size is the segment's, and the segment is the last or the next. */
  predicate Proper(base: seq<seq<byte>>, p: Pending) {
    1 <= p.epoch <= |base| + 1 && p.epoch <= MAX_JOURNAL_EPOCHS && p.size == |Kept(base, p.epoch)|
  }

  /** Nodes of a segment slot share one inode, a slot's live version is one of its versions, and inodes are not reused. */
  ghost predicate WellFormed(d: Disk, nextInode: nat) {
    && |d.segments| == MAX_JOURNAL_EPOCHS
    && d.marker.live in d.marker.may
    && (forall n :: Some(n) in d.marker.may ==> n.inode < nextInode)
    && forall i :: 0 <= i < |d.segments| ==> SegmentSlot(d.segments[i], nextInode)
  }

  ghost predicate SegmentSlot(s: Slot, nextInode: nat) {
    && s.live in s.may
    && forall n :: Some(n) in s.may ==> n.inode < nextInode && s.live.Some? && n.inode == s.live.value.inode
  }

  /** No version of the marker matters: every segment version reads as `base` and is as long as any marker says. */
  ghost predicate Harmless(m: MarkerCodec, d: Disk, base: seq<seq<byte>>) {
    && |base| <= |d.segments| == MAX_JOURNAL_EPOCHS
    && (forall i :: 0 <= i < |d.segments| ==> SlotReads(base, i, d.segments[i]))
    && (forall n :: Some(n) in d.marker.may && m.decode(n.data).Some? ==> Proper(base, m.decode(n.data).value))
  }

  /** The marker is durable, so whatever is in its segment beyond the old size will be cut off. */
  ghost predicate Armed(m: MarkerCodec, d: Disk, base: seq<seq<byte>>, p: Pending) {
    && Proper(base, p)
    && d.marker.live.Some? && d.marker.may == {d.marker.live} && m.decode(d.marker.live.value.data) == Some(p)
    && |base| <= |d.segments| == MAX_JOURNAL_EPOCHS
    && RollsBackTo(base, p, d.segments)
  }

  /**
    The commit is under way: the marker may or may not come back, the segment has all of the line or none; as long as the
    line is seen, every version has it.
   */
  ghost predicate Committing(m: MarkerCodec, d: Disk, base: seq<seq<byte>>, p: Pending, line: seq<byte>) {
    && Proper(base, p)
    && |base| <= |d.segments| == MAX_JOURNAL_EPOCHS
    && (forall n :: Some(n) in d.marker.may && m.decode(n.data).Some? ==> m.decode(n.data).value == p)
    && HalfIn(base, p, line, d.segments[p.epoch - 1])
    && (forall i :: 0 <= i < |d.segments| && i != p.epoch - 1 ==> SlotReads(base, i, d.segments[i]))
  }

  predicate HalfIn(base: seq<seq<byte>>, p: Pending, line: seq<byte>, s: Slot)
    requires Proper(base, p)
  {
    var kept := Kept(base, p.epoch);
    && (forall v :: v in s.may ==> Data(v) == Some(kept) || Data(v) == Some(kept + line))
    && (Data(s.live) == Some(kept + line) ==> forall v :: v in s.may ==> Data(v) == Some(kept + line))
  }

  /** At rest, but for an older marker whose removal is not durable, and which takes the journal back to `prior`. */
  ghost predicate HarmlessBut(m: MarkerCodec, d: Disk, base: seq<seq<byte>>, was: Pending, prior: seq<seq<byte>>) {
    && Proper(prior, was) && |prior| <= MAX_JOURNAL_EPOCHS && RollsBackTo(prior, was, d.segments)
    && |base| <= |d.segments| == MAX_JOURNAL_EPOCHS
    && (forall i :: 0 <= i < |d.segments| ==> SlotReads(base, i, d.segments[i]))
    && (d.marker.live.Some? && m.decode(d.marker.live.value.data).Some? ==> Proper(base, m.decode(d.marker.live.value.data).value))
    && (forall n :: Some(n) in d.marker.may && m.decode(n.data).Some? ==>
          m.decode(n.data).value == was || Proper(base, m.decode(n.data).value))
  }

  datatype Phase = AtRest | Doubt(was: Pending, prior: seq<seq<byte>>) | Intent(p: Pending) | Commit(p: Pending, line: seq<byte>)

  ghost predicate In(m: MarkerCodec, d: Disk, base: seq<seq<byte>>, phase: Phase) {
    match phase
    case AtRest => Harmless(m, d, base)
    case Doubt(was, prior) => HarmlessBut(m, d, base, was, prior)
    case Intent(p) => Armed(m, d, base, p)
    case Commit(p, line) => Committing(m, d, base, p, line)
  }

  /** Between appends: at rest, or with a durable marker still to be consumed. */
  ghost predicate Settled(m: MarkerCodec, d: Disk, base: seq<seq<byte>>) {
    Harmless(m, d, base) || exists p :: Armed(m, d, base, p)
  }

  lemma HarmlessHolds(m: MarkerCodec, d: Disk, base: seq<seq<byte>>)
    requires Harmless(m, d, base)
    ensures Holds(m, d, base)
  {
    forall n | Some(n) in d.marker.may && m.decode(n.data).Some?
      ensures RollsBackTo(base, m.decode(n.data).value, d.segments)
    {
      var p := m.decode(n.data).value;
      assert SlotReads(base, p.epoch - 1, d.segments[p.epoch - 1]);
      forall v | v in d.segments[p.epoch - 1].may ensures CutsTo(base, p.epoch - 1, p.size, Data(v)) {
        assert GoodAt(base, p.epoch - 1, Data(v));
        if v.Some? { assert v.value.data[..p.size] == Kept(base, p.epoch); }
      }
    }
  }

  lemma ArmedHolds(m: MarkerCodec, d: Disk, base: seq<seq<byte>>, p: Pending)
    requires Armed(m, d, base, p)
    ensures Holds(m, d, base)
  {
  }

  predicate MatchesBut(segments: seq<Option<seq<byte>>>, base: seq<seq<byte>>, k: nat) {
    |base| <= |segments| && k < |segments| && forall i :: 0 <= i < |segments| && i != k ==> GoodAt(base, i, segments[i])
  }

  lemma PutMatches(segments: seq<Option<seq<byte>>>, base: seq<seq<byte>>, k: nat, x: Option<seq<byte>>)
    requires MatchesBut(segments, base, k) && GoodAt(base, k, x)
    ensures Matches(segments[k := x], base)
  {
  }

  lemma GrownMatches(segments: seq<Option<seq<byte>>>, base: seq<seq<byte>>, epoch: nat, line: seq<byte>)
    requires 1 <= epoch <= |base| + 1 && MatchesBut(segments, base, epoch - 1)
    requires segments[epoch - 1] == Some(Kept(base, epoch) + line)
    ensures Matches(segments, Grown(base, epoch, line))
  {
    assert [] + line == line;
    forall i | 0 <= i < |segments| ensures GoodAt(Grown(base, epoch, line), i, segments[i]) {
      if i != epoch - 1 { assert GoodAt(base, i, segments[i]); }
    }
  }

  /** While committing, a crash leaves the old contents or the new. */
  lemma CommittingMeans(m: MarkerCodec, d: Disk, base: seq<seq<byte>>, p: Pending, line: seq<byte>, im: Image)
    requires Committing(m, d, base, p, line) && IsImage(d, im) && line != []
    ensures Recover(m, im) == None <==> im.marker.Some? && m.decode(im.marker.value) == None
    ensures Recover(m, im).Some? ==> Matches(Recover(m, im).value, base) || Matches(Recover(m, im).value, Grown(base, p.epoch, line))
  {
    var k := p.epoch - 1;
    forall i | 0 <= i < |im.segments| && i != k ensures GoodAt(base, i, im.segments[i]) {
      var w := VersionOf(d.segments[i], im.segments[i]);
      assert SlotReads(base, i, d.segments[i]);
    }
    var w := VersionOf(d.segments[k], im.segments[k]);
    var v := VersionOf(d.marker, im.marker);
    var kept := Kept(base, p.epoch);
    assert Data(w) == Some(kept) || Data(w) == Some(kept + line);
    PutMatches(im.segments, base, k, Some(kept));
    assert (kept + line)[..p.size] == kept && kept[..p.size] == kept;
    if Data(w) == Some(kept) {
      assert im.segments[k := Some(kept)] == im.segments;
    } else {
      GrownMatches(im.segments, base, p.epoch, line);
    }
  }

  // ----- what the primitives keep -----

  /** Fewer versions of every name, and the same live ones. */
  predicate Narrows(after: Disk, before: Disk) {
    && after.marker.live == before.marker.live && after.marker.may <= before.marker.may
    && |after.segments| == |before.segments|
    && forall i :: 0 <= i < |after.segments| ==>
         after.segments[i].live == before.segments[i].live && after.segments[i].may <= before.segments[i].may
  }

  lemma SyncNarrows(d: Disk, nextInode: nat)
    requires WellFormed(d, nextInode)
    ensures WellFormed(DirSynced(d), nextInode) && Narrows(DirSynced(d), d)
  {
    forall i | 0 <= i < |d.segments|
      ensures SegmentSlot(DirSyncedSlot(d.segments[i]), nextInode) && DirSyncedSlot(d.segments[i]).may <= d.segments[i].may
    {
      assert SegmentSlot(d.segments[i], nextInode);
    }
  }

  /** Syncing a file and its directory leaves only the current version. */
  lemma Settles(s: Slot)
    requires s.live.Some?
    ensures DirSyncedSlot(FileSyncedSlot(s)) == Slot(s.live, {s.live})
  {
  }

  /** Every version of a marker being created and written is torn, or the whole marker, or an older one. */
  lemma MarkerVersions(m: MarkerCodec, s: Slot, inode: nat, p: Pending, written: nat)
    requires Framed(m) && written <= |m.encode(p)|
    ensures forall n :: Some(n) in CreatedSlot(s, inode).may && m.decode(n.data).Some? ==> Some(n) in s.may
    ensures forall n :: Some(n) in WrittenSlot(CreatedSlot(s, inode), m.encode(p)[..written]).may && m.decode(n.data).Some? ==>
              Some(n) in s.may || m.decode(n.data) == Some(p)
    ensures var d := WrittenSlot(CreatedSlot(s, inode), m.encode(p)[..written]).live.value.data; m.decode(d).Some? ==> m.decode(d) == Some(p)
    ensures m.decode(CreatedSlot(s, inode).live.value.data) == None
  {
    var data := m.encode(p);
    assert [] + data[..written][..written] == [] + data[..written];
    forall k | 0 <= k <= written ensures m.decode([] + data[..written][..k]) == None || [] + data[..written][..k] == data {
      assert [] + data[..written][..k] == data[..k];
      if k < |data| { assert data[..k] < data; }
    }
  }

  lemma NarrowKeeps(m: MarkerCodec, d: Disk, e: Disk, base: seq<seq<byte>>, phase: Phase)
    requires In(m, d, base, phase) && Narrows(e, d) && e.marker.live in e.marker.may
    ensures In(m, e, base, phase)
  {
    forall i | 0 <= i < |e.segments| ensures SlotReads(base, i, d.segments[i]) ==> SlotReads(base, i, e.segments[i]) {
    }
  }

  /** What a phase needs of each version of the marked segment. */
  predicate Suits(base: seq<seq<byte>>, phase: Phase, p: Pending, x: Option<seq<byte>>)
    requires Proper(base, p)
  {
    match phase
    case AtRest => GoodAt(base, p.epoch - 1, x)
    case Doubt(was, prior) =>
      && GoodAt(base, p.epoch - 1, x) && Proper(prior, was)
      && if p.epoch == was.epoch then CutsTo(prior, p.epoch - 1, was.size, x) else GoodAt(prior, p.epoch - 1, x)
    case Intent(_) => CutsTo(base, p.epoch - 1, p.size, x)
    case Commit(_, line) => x == Some(Kept(base, p.epoch)) || x == Some(Kept(base, p.epoch) + line)
  }

  predicate For(phase: Phase, p: Pending) {
    phase.AtRest? || phase.Doubt? || phase.p == p
  }

  /** What a phase needs of the slot of the marked segment. */
  predicate SuitsSlot(base: seq<seq<byte>>, phase: Phase, p: Pending, s: Slot)
    requires Proper(base, p)
  {
    && (forall v :: v in s.may ==> Suits(base, phase, p, Data(v)))
    && (phase.Commit? ==> HalfIn(base, p, phase.line, s))
  }

  lemma PhaseSuits(m: MarkerCodec, d: Disk, base: seq<seq<byte>>, phase: Phase, p: Pending)
    requires In(m, d, base, phase) && Proper(base, p) && For(phase, p)
    ensures |d.segments| >= p.epoch && forall v :: v in d.segments[p.epoch - 1].may ==> Suits(base, phase, p, Data(v))
  {
    if phase.AtRest? || phase.Doubt? { assert SlotReads(base, p.epoch - 1, d.segments[p.epoch - 1]); }
    if phase.Doubt? {
      assert SlotCuts(phase.prior, phase.was, d.segments[phase.was.epoch - 1]);
      assert p.epoch != phase.was.epoch ==> SlotReads(phase.prior, p.epoch - 1, d.segments[p.epoch - 1]);
    }
  }

  lemma LiveSuits(base: seq<seq<byte>>, phase: Phase, p: Pending, x: Option<seq<byte>>)
    requires Proper(base, p) && For(phase, p) && Suits(base, phase, p, x)
    ensures if x == None then p.size == 0 else p.size <= |x.value|
  {
  }

  /** New versions of the marked segment keep the phase, as long as each of them suits it. */
  lemma SegmentKeeps(m: MarkerCodec, d: Disk, s: Slot, base: seq<seq<byte>>, phase: Phase, p: Pending)
    requires In(m, d, base, phase) && Proper(base, p) && For(phase, p) && p.epoch <= |d.segments|
    requires SuitsSlot(base, phase, p, s)
    ensures In(m, Put(d, SegmentFile(p.epoch), s), base, phase)
  {
  }

  /** Cutting back a version that suits the phase gives one that suits it, and is the segment before the append. */
  lemma CutSuits(base: seq<seq<byte>>, phase: Phase, p: Pending, data: seq<byte>)
    requires Proper(base, p) && For(phase, p) && Suits(base, phase, p, Some(data)) && p.size <= |data|
    ensures data[..p.size] == Kept(base, p.epoch) && Suits(base, phase, p, Some(data[..p.size]))
  {
    var cut := data[..p.size];
    assert cut[..p.size] == cut;
    assert forall line: seq<byte> :: (Kept(base, p.epoch) + line)[..p.size] == Kept(base, p.epoch);
  }

  /** The segment's slot, cut back and synced. */
  lemma CutSlot(base: seq<seq<byte>>, phase: Phase, p: Pending, s: Slot, nextInode: nat)
    requires Proper(base, p) && For(phase, p) && SegmentSlot(s, nextInode)
    requires s.live.Some? && p.size <= |s.live.value.data|
    requires forall v :: v in s.may ==> Suits(base, phase, p, Data(v))
    ensures var cut := TruncatedSlot(s, p.size);
            && SegmentSlot(cut, nextInode)
            && SuitsSlot(base, phase, p, cut)
            && SegmentSlot(FileSyncedSlot(cut), nextInode)
            && SuitsSlot(base, phase, p, FileSyncedSlot(cut))
            && SlotReads(base, p.epoch - 1, FileSyncedSlot(cut))
  {
    CutSuits(base, phase, p, s.live.value.data);
    var synced := FileSyncedSlot(TruncatedSlot(s, p.size));
    forall v | v in synced.may ensures GoodAt(base, p.epoch - 1, Data(v)) {
      assert v == None ==> v in s.may && Suits(base, phase, p, None);
    }
  }

  /** New versions of the marker keep the phase when each is torn, an older one, or the marker of this append. */
  lemma MarkerKeeps(m: MarkerCodec, d: Disk, s: Slot, base: seq<seq<byte>>, phase: Phase, p: Pending)
    requires In(m, d, base, phase) && !phase.Intent? && Proper(base, p) && For(phase, p)
    requires s.live.Some? && m.decode(s.live.value.data).Some? ==> m.decode(s.live.value.data) == Some(p)
    requires forall n :: Some(n) in s.may && m.decode(n.data).Some? ==> Some(n) in d.marker.may || m.decode(n.data) == Some(p)
    ensures In(m, d.(marker := s), base, phase)
  {
  }

  /** Once every version of the segment is the segment before the append, no version of the marker matters. */
  lemma CutBack(m: MarkerCodec, d: Disk, base: seq<seq<byte>>, phase: Phase, p: Pending)
    requires In(m, d, base, phase) && !phase.Doubt? && Proper(base, p) && For(phase, p) && |d.segments| == MAX_JOURNAL_EPOCHS
    requires SlotReads(base, p.epoch - 1, d.segments[p.epoch - 1])
    ensures Harmless(m, d, base)
  {
    forall i | 0 <= i < |d.segments| ensures SlotReads(base, i, d.segments[i]) {
      if i != p.epoch - 1 && phase.Intent? { assert RollsBackTo(base, phase.p, d.segments); }
    }
  }

  /** The line is durable and so is the marker: only the marker's removal is left. */
  lemma LineDurable(m: MarkerCodec, d: Disk, base: seq<seq<byte>>, p: Pending, line: seq<byte>)
    requires Armed(m, d, base, p)
    requires forall v :: v in d.segments[p.epoch - 1].may ==> Data(v) == Some(Kept(base, p.epoch) + line)
    ensures Committing(m, d, base, p, line)
  {
  }

  /** The marker is durably gone: the contents have grown by the line. */
  lemma Committed(m: MarkerCodec, d: Disk, base: seq<seq<byte>>, p: Pending, line: seq<byte>)
    requires Committing(m, d, base, p, line) && d.marker == Slot(None, {None})
    requires forall v :: v in d.segments[p.epoch - 1].may ==> Data(v) == Some(Kept(base, p.epoch) + line)
    ensures Harmless(m, d, Grown(base, p.epoch, line))
  {
    var grown := Grown(base, p.epoch, line);
    assert [] + line == line;
    forall i | 0 <= i < |d.segments| ensures SlotReads(grown, i, d.segments[i]) {
      if i != p.epoch - 1 { assert SlotReads(base, i, d.segments[i]); }
      forall v | v in d.segments[i].may ensures GoodAt(grown, i, Data(v)) {
        assert i != p.epoch - 1 ==> GoodAt(base, i, Data(v));
      }
    }
  }

  /** The marker is durable again before the segment was proved cut back. */
  lemma Rearmed(m: MarkerCodec, d: Disk, base: seq<seq<byte>>, p: Pending, line: seq<byte>)
    requires Committing(m, d, base, p, line)
    requires d.marker.live.Some? && d.marker.may == {d.marker.live} && m.decode(d.marker.live.value.data) == Some(p)
    ensures Armed(m, d, base, p)
  {
    var kept := Kept(base, p.epoch);
    assert (kept + line)[..p.size] == kept && kept[..p.size] == kept;
  }

  lemma MissingMarker(m: MarkerCodec, d: Disk, base: seq<seq<byte>>)
    requires Settled(m, d, base) && d.marker.live == None
    ensures Harmless(m, d, base)
  {
  }

  /** No existing file's name can be lost. */
  predicate NamesDurable(d: Disk) {
    forall i :: 0 <= i < |d.segments| && d.segments[i].live.Some? ==> None !in d.segments[i].may
  }

  /** The directory sync that arms the marker leaves no other, and makes every segment's name durable. */
  lemma NamesNow(before: Disk)
    requires exists s: Slot :: s.live.Some? && before.marker == FileSyncedSlot(s)
    ensures DirSynced(before).marker == Slot(before.marker.live, {before.marker.live}) && NamesDurable(DirSynced(before))
  {
    var s: Slot :| s.live.Some? && before.marker == FileSyncedSlot(s);
    Settles(s);
  }

  lemma ArmedNow(m: MarkerCodec, d: Disk, base: seq<seq<byte>>, p: Pending)
    requires Harmless(m, d, base) && Proper(base, p)
    requires d.marker.live.Some? && d.marker.may == {d.marker.live} && m.decode(d.marker.live.value.data) == Some(p)
    ensures Armed(m, d, base, p)
  {
    HarmlessHolds(m, d, base);
  }

  /** With one marker and that one this journal's, or none, the older one is gone. */
  lemma DoubtEnds(m: MarkerCodec, d: Disk, base: seq<seq<byte>>, was: Pending, prior: seq<seq<byte>>)
    requires HarmlessBut(m, d, base, was, prior) && d.marker.may == {d.marker.live}
    ensures Harmless(m, d, base)
  {
  }

  /** A new marker alone, in any phase that it may be made in. */
  lemma ArmedBy(m: MarkerCodec, d: Disk, base: seq<seq<byte>>, phase: Phase, p: Pending)
    requires In(m, d, base, phase) && !phase.Intent? && For(phase, p) && Proper(base, p)
    requires d.marker.live.Some? && d.marker.may == {d.marker.live} && m.decode(d.marker.live.value.data) == Some(p)
    ensures Armed(m, d, base, p)
  {
    match phase
    case AtRest => ArmedNow(m, d, base, p);
    case Doubt(was, prior) =>
      DoubtEnds(m, d, base, was, prior);
      ArmedNow(m, d, base, p);
    case Commit(_, line) => Rearmed(m, d, base, p, line);
    case Intent(_) => assert false;
  }

  /** The segment of `p` is seen as it was before the append. */
  predicate LiveRests(d: Disk, base: seq<seq<byte>>, p: Pending)
    requires Proper(base, p)
  {
    p.epoch <= |d.segments| && GoodAt(base, p.epoch - 1, Data(d.segments[p.epoch - 1].live))
  }

  lemma RestsThere(m: MarkerCodec, d: Disk, nextInode: nat, base: seq<seq<byte>>, phase: Phase, p: Pending)
    requires In(m, d, base, phase) && WellFormed(d, nextInode) && Proper(base, p)
    ensures phase.AtRest? || phase.Doubt? ==> LiveRests(d, base, p)
  {
    if phase.AtRest? || phase.Doubt? {
      assert SlotReads(base, p.epoch - 1, d.segments[p.epoch - 1]) && SegmentSlot(d.segments[p.epoch - 1], nextInode);
    }
  }

  /** The segments before `epoch` as they are seen, as if durable. */
  function LeftBehind(d: Disk, epoch: nat): Disk {
    d.(segments := seq(|d.segments|, i requires 0 <= i < |d.segments| =>
                         if i + 1 < epoch then Slot(d.segments[i].live, {d.segments[i].live}) else d.segments[i]))
  }

  lemma LeavesLess(m: MarkerCodec, d: Disk, nextInode: nat, epoch: nat, base: seq<seq<byte>>, phase: Phase)
    requires WellFormed(d, nextInode) && In(m, d, base, phase)
    ensures WellFormed(LeftBehind(d, epoch), nextInode) && In(m, LeftBehind(d, epoch), base, phase)
  {
    var e := LeftBehind(d, epoch);
    forall i | 0 <= i < |d.segments| ensures SegmentSlot(e.segments[i], nextInode) && e.segments[i].may <= d.segments[i].may {
      assert SegmentSlot(d.segments[i], nextInode);
    }
    NarrowKeeps(m, d, e, base, phase);
  }

  /** A commit whose segment is seen without the line, and durable so, is decided. */
  lemma LeftDecided(m: MarkerCodec, d: Disk, base: seq<seq<byte>>, p: Pending, line: seq<byte>)
    requires Committing(m, d, base, p, line) && LiveRests(d, base, p) && d.segments[p.epoch - 1].may == {d.segments[p.epoch - 1].live}
    ensures Harmless(m, d, base)
  {
    forall i | 0 <= i < |d.segments| ensures SlotReads(base, i, d.segments[i]) {
    }
  }

  predicate SameLive(d: Disk, e: Disk) {
    |d.segments| == |e.segments| && forall i :: 0 <= i < |d.segments| ==> d.segments[i].live == e.segments[i].live
  }

  // ----- the segment's slot while the line goes in -----

  /** The open segment holds what it held before the append, and every version of it starts so; only a name just created may still be lost. */
  predicate Unwritten(base: seq<seq<byte>>, p: Pending, s: Slot, created: bool)
    requires Proper(base, p)
  {
    && s.live.Some? && s.live.value.data == Kept(base, p.epoch)
    && (None in s.may ==> created && p.size == 0 && p.epoch == |base| + 1)
    && forall v :: v in s.may && v.Some? ==> p.size <= |v.value.data| && v.value.data[..p.size] == Kept(base, p.epoch)
  }

  predicate Filled(base: seq<seq<byte>>, p: Pending, line: seq<byte>, s: Slot, created: bool)
    requires Proper(base, p)
  {
    && s.live.Some?
    && (None in s.may ==> created)
    && forall v :: v in s.may && v.Some? ==> v.value.data == Kept(base, p.epoch) + line
  }

  predicate LineIn(base: seq<seq<byte>>, p: Pending, line: seq<byte>, d: Disk)
    requires Proper(base, p)
  {
    && p.epoch <= |d.segments|
    && forall v :: v in d.segments[p.epoch - 1].may ==> Data(v) == Some(Kept(base, p.epoch) + line)
  }

  lemma WrittenCuts(base: seq<seq<byte>>, p: Pending, s: Slot, chunk: seq<byte>, nextInode: nat, created: bool)
    requires Proper(base, p) && Unwritten(base, p, s, created) && SegmentSlot(s, nextInode)
    ensures var w := WrittenSlot(s, chunk);
            SegmentSlot(w, nextInode) && forall v :: v in w.may ==> CutsTo(base, p.epoch - 1, p.size, Data(v))
  {
    var w, kept := WrittenSlot(s, chunk), Kept(base, p.epoch);
    forall v | v in w.may ensures CutsTo(base, p.epoch - 1, p.size, Data(v)) {
      if v in s.may {
        assert kept[..p.size] == kept;
      } else {
        var k :| 0 <= k <= |chunk| && v == Some(Node(s.live.value.inode, kept + chunk[..k]));
        assert (kept + chunk[..k])[..p.size] == kept;
      }
    }
  }

  lemma FilledSlot(base: seq<seq<byte>>, p: Pending, s: Slot, line: seq<byte>, nextInode: nat, created: bool)
    requires Proper(base, p) && Unwritten(base, p, s, created) && SegmentSlot(s, nextInode)
    ensures var f := FileSyncedSlot(WrittenSlot(s, line));
            && SegmentSlot(f, nextInode) && Filled(base, p, line, f, created)
            && forall v :: v in f.may ==> CutsTo(base, p.epoch - 1, p.size, Data(v))
  {
    WrittenCuts(base, p, s, line, nextInode, created);
  }

  lemma NameDurable(base: seq<seq<byte>>, p: Pending, line: seq<byte>, s: Slot, created: bool)
    requires Proper(base, p) && Filled(base, p, line, s, created)
    ensures forall v :: v in (if created then DirSyncedSlot(s) else s).may ==> Data(v) == Some(Kept(base, p.epoch) + line)
  {
  }

  lemma NamesSynced(base: seq<seq<byte>>, p: Pending, line: seq<byte>, d: Disk)
    requires Proper(base, p) && LineIn(base, p, line, d) && d.segments[p.epoch - 1].live in d.segments[p.epoch - 1].may
    ensures LineIn(base, p, line, DirSynced(d))
  {
  }

  // ----- crashes -----

  /** After a crash each name has come back as one of its versions, and that version is durable. */
  predicate Restarted(s: Slot, t: Slot) {
    t.live in s.may && t.may == {t.live}
  }

  predicate Crashed(d: Disk, e: Disk) {
    && Restarted(d.marker, e.marker)
    && |e.segments| == |d.segments|
    && forall i :: 0 <= i < |d.segments| ==> Restarted(d.segments[i], e.segments[i])
  }

  function InodeIn(s: Slot): nat {
    if s.live.Some? then s.live.value.inode else 0
  }

  function UnusedInode(segments: seq<Slot>): (n: nat)
    ensures forall i :: 0 <= i < |segments| ==> InodeIn(segments[i]) < n
  {
    if segments == [] then 1 else
      var n := |segments| - 1;
      var rest, last := UnusedInode(segments[..n]), InodeIn(segments[n]);
      assert forall i :: 0 <= i < n ==> segments[..n][i] == segments[i];
      if last < rest then rest else last + 1
  }

  lemma CrashWellFormed(d: Disk, e: Disk, nextInode: nat)
    requires Crashed(d, e) && |d.segments| == MAX_JOURNAL_EPOCHS
    requires nextInode > InodeIn(e.marker) && nextInode >= UnusedInode(e.segments)
    ensures WellFormed(e, nextInode)
  {
    forall i | 0 <= i < |e.segments| ensures SegmentSlot(e.segments[i], nextInode) {
      assert Restarted(d.segments[i], e.segments[i]) && InodeIn(e.segments[i]) < nextInode;
    }
  }
}
