/**
  What the append protocol's disk states mean to a later reader: which journal any crash leaves, and when recovery
  refuses one.
 */
module AppendTheorems {
  import opened Results
  import opened ByteLines
  import opened Journal
  import opened JournalTheorems
  import opened AppendDisk

  // ----- journals without a trailing empty segment -----

  ghost predicate IsJournal(c: Codec, base: seq<seq<byte>>) {
    |base| <= MAX_JOURNAL_EPOCHS && (forall i :: 0 <= i < |base| ==> base[i] != []) && ScanFiles(c, base).Some?
  }

  function ContentsIn(c: Codec, base: seq<seq<byte>>): Contents
    requires ScanFiles(c, base).Some?
  {
    ContentsOf(ScanFiles(c, base).value)
  }

  /** The contents with one more record. */
  function Folded(c: Codec, x: Contents, body: Body): Option<Contents> {
    match ApplyDecoded(c, State(x.sequence, x.total, [], x.operations, x.lookups, x.decisions), body)
    case None => None
    case Some(t) => Some(ContentsOf(t).(sequence := x.sequence + 1, total := x.total + 1))
  }

  lemma FoldedIsAfter(c: Codec, s: State, p: Prepared)
    requires ApplyDecoded(c, s, p.record.body).Some?
    ensures Folded(c, ContentsOf(s), p.record.body) == Some(After(c, s, p))
  {
    ApplyIgnoresSegments(c, s, State(s.sequence, s.total, [], s.operations, s.lookups, s.decisions), p.record.body);
  }

  lemma EndsNonEmpty(c: Codec, base: seq<seq<byte>>)
    requires CanonicalCodec(c) && IsJournal(c, base)
    ensures ScanSegments(c, base) == ScanFiles(c, base) && LastNonEmpty(ScanSegments(c, base).value)
    ensures MatchFiles(ScanSegments(c, base).value, base)
  {
    SegmentsMatchFiles(c, base);
    if base != [] {
      assert Describes(ScanSegments(c, base).value.segments[|base| - 1], base[|base| - 1]);
    }
  }

  /** The segment files as a reader lists them. */
  function FilesIn(base: seq<seq<byte>>, segments: seq<Option<seq<byte>>>): seq<seq<byte>> {
    if |base| < |segments| && segments[|base|] == Some([]) then base + [[]] else base
  }

  lemma {:induction false} KeysCounted(keys: set<nat>, n: nat)
    requires forall e: nat :: e in keys <==> 1 <= e <= n
    ensures |keys| == n
  {
    if n == 0 {
      assert keys == {};
    } else {
      KeysCounted(keys - {n}, n - 1);
    }
  }

  lemma ListsFiles(base: seq<seq<byte>>, segments: seq<Option<seq<byte>>>)
    requires Matches(segments, base) && |segments| == MAX_JOURNAL_EPOCHS
    ensures Listing(DirectoryOf(segments)) == Some(FilesIn(base, segments))
  {
    var dir, files := DirectoryOf(segments), FilesIn(base, segments);
    forall e: nat ensures e in dir <==> 1 <= e <= |files| {
      if 1 <= e <= |segments| { assert GoodAt(base, e - 1, segments[e - 1]); }
    }
    KeysCounted(dir.Keys, |files|);
    forall i | 0 <= i < |files| ensures files[i] == dir[i + 1] {
      assert GoodAt(base, i, segments[i]);
    }
    ListingIs(dir, files);
  }

  lemma TrailingScans(c: Codec, base: seq<seq<byte>>)
    requires CanonicalCodec(c) && IsJournal(c, base) && |base| < MAX_JOURNAL_EPOCHS
    ensures ScanFiles(c, base + [[]]).Some? && ContentsIn(c, base + [[]]) == ContentsIn(c, base)
  {
    EndsNonEmpty(c, base);
    TrailingEmpty(c, base);
  }

  /** Whatever matches a journal reads as that journal. */
  lemma MatchingReads(c: Codec, base: seq<seq<byte>>, segments: seq<Option<seq<byte>>>)
    requires CanonicalCodec(c) && IsJournal(c, base) && Matches(segments, base) && |segments| == MAX_JOURNAL_EPOCHS
    ensures Scan(c, DirectoryOf(segments)) == ScanFiles(c, FilesIn(base, segments))
    ensures Scan(c, DirectoryOf(segments)).Some? && ContentsOf(Scan(c, DirectoryOf(segments)).value) == ContentsIn(c, base)
  {
    ListsFiles(base, segments);
    if |base| < |segments| && segments[|base|] == Some([]) { TrailingScans(c, base); }
  }

  // ----- the prepared line makes the grown journal -----

  /** A reader's files: the journal, or the journal and one empty segment. */
  predicate FilesFor(base: seq<seq<byte>>, files: seq<seq<byte>>) {
    files == base || (files == base + [[]] && |base| < MAX_JOURNAL_EPOCHS)
  }

  lemma GrownPlace(c: Codec, base: seq<seq<byte>>, files: seq<seq<byte>>, s: State, p: Prepared)
    requires FilesFor(base, files) && MatchFiles(s, files) && (forall i :: 0 <= i < |base| ==> base[i] != [])
    requires AppendsToLast(s, p) || StartsSegment(s, p)
    requires |base| <= MAX_JOURNAL_EPOCHS
    ensures Proper(base, Pending(p.epoch, p.offset)) && 0 < p.epoch <= |files| + 1
    ensures Extend(files, p) == Grown(base, p.epoch, p.line)
  {
    var k := |files|;
    if k > 0 { assert Describes(s.segments[k - 1], files[k - 1]); }
    if files != base { assert [] + p.line == p.line; }
  }

  lemma GrownIsJournal(c: Codec, base: seq<seq<byte>>, files: seq<seq<byte>>, s: State, p: Prepared)
    requires IsJournal(c, base) && FilesFor(base, files) && MatchFiles(s, files) && ContentsOf(s) == ContentsIn(c, base)
    requires AppendsToLast(s, p) || (StartsSegment(s, p) && p.epoch == |files| + 1)
    requires p.line != [] && ApplyDecoded(c, s, p.record.body).Some?
    requires 0 < p.epoch <= |files| + 1
    requires ScanFiles(c, Extend(files, p)).Some? && ContentsIn(c, Extend(files, p)) == After(c, s, p)
    ensures Proper(base, Pending(p.epoch, p.offset))
    ensures IsJournal(c, Grown(base, p.epoch, p.line))
    ensures Some(ContentsIn(c, Grown(base, p.epoch, p.line))) == Folded(c, ContentsIn(c, base), p.record.body)
  {
    GrownPlace(c, base, files, s, p);
    FoldedIsAfter(c, s, p);
  }

  lemma GrowsBy(c: Codec, base: seq<seq<byte>>, files: seq<seq<byte>>, s: State, body: Body, p: Prepared)
    requires CanonicalCodec(c) && CompactCodec(c) && IsJournal(c, base) && FilesFor(base, files) && ScanFiles(c, files) == Some(s)
    requires ContentsOf(s) == ContentsIn(c, base)
    requires PrepareAppend(c, s, body) == Ok(p) && Admits(c, s, body)
    ensures Proper(base, Pending(p.epoch, p.offset)) && p.line != []
    ensures IsJournal(c, Grown(base, p.epoch, p.line))
    ensures Some(ContentsIn(c, Grown(base, p.epoch, p.line))) == Folded(c, ContentsIn(c, base), body)
  {
    WriterRefinesReader(c, files, s, body, p);
    SegmentsMatchFiles(c, files);
    assert p.line != [] && (AppendsToLast(s, p) || (StartsSegment(s, p) && p.epoch == |files| + 1)) by {
      PreparedShape(c, s, body);
    }
    GrownIsJournal(c, base, files, s, p);
  }

  // ----- crashes -----

  lemma CrashedReads(d: Disk, e: Disk, base: seq<seq<byte>>, i: nat)
    requires Crashed(d, e) && i < |d.segments| && SlotReads(base, i, d.segments[i])
    ensures SlotReads(base, i, e.segments[i])
  {
    assert Restarted(d.segments[i], e.segments[i]);
  }

  /** A crash between appends, or during recovery, loses nothing. */
  lemma CrashSettled(m: MarkerCodec, d: Disk, e: Disk, base: seq<seq<byte>>)
    requires Settled(m, d, base) && Crashed(d, e)
    ensures Settled(m, e, base)
  {
    if Harmless(m, d, base) {
      forall i | 0 <= i < |e.segments| ensures SlotReads(base, i, e.segments[i]) { CrashedReads(d, e, base, i); }
    } else {
      var p :| Armed(m, d, base, p);
      forall i | 0 <= i < |e.segments| && i != p.epoch - 1 ensures SlotReads(base, i, e.segments[i]) {
        CrashedReads(d, e, base, i);
      }
      assert Restarted(d.segments[p.epoch - 1], e.segments[p.epoch - 1]);
      assert Armed(m, e, base, p);
    }
  }

  /** A crash while the line is being committed leaves the old journal or the new one. */
  lemma CrashCommitting(m: MarkerCodec, d: Disk, e: Disk, base: seq<seq<byte>>, p: Pending, line: seq<byte>)
    requires Committing(m, d, base, p, line) && Crashed(d, e)
    ensures Settled(m, e, base) || Settled(m, e, Grown(base, p.epoch, line))
  {
    forall i | 0 <= i < |e.segments| && i != p.epoch - 1 ensures SlotReads(base, i, e.segments[i]) {
      CrashedReads(d, e, base, i);
    }
    var k, kept := p.epoch - 1, Kept(base, p.epoch);
    assert Restarted(d.segments[k], e.segments[k]);
    assert (kept + line)[..p.size] == kept && kept[..p.size] == kept && [] + line == line;
    if e.marker.live.Some? && m.decode(e.marker.live.value.data).Some? {
      assert Armed(m, e, base, p);
    } else if Data(e.segments[k].live) == Some(kept) {
      assert SlotReads(base, k, e.segments[k]);
    } else {
      var grown := Grown(base, p.epoch, line);
      forall i | 0 <= i < |e.segments| ensures SlotReads(grown, i, e.segments[i]) {
        if i != k { assert SlotReads(base, i, e.segments[i]); }
      }
      assert Harmless(m, e, grown);
    }
  }

  /** A commit that was not decided durably: it may still be under way, or only its marker may come back. */
  ghost predicate Undecided(m: MarkerCodec, d: Disk, base: seq<seq<byte>>, p: Pending, line: seq<byte>)
    requires Proper(base, p)
  {
    Committing(m, d, base, p, line) || HarmlessBut(m, d, Grown(base, p.epoch, line), p, base)
  }

  /** A power loss decides it. */
  lemma CrashUndecided(m: MarkerCodec, d: Disk, e: Disk, base: seq<seq<byte>>, p: Pending, line: seq<byte>)
    requires Proper(base, p) && Undecided(m, d, base, p, line) && Crashed(d, e)
    ensures Settled(m, e, base) || Settled(m, e, Grown(base, p.epoch, line))
  {
    if Committing(m, d, base, p, line) {
      CrashCommitting(m, d, e, base, p, line);
    } else {
      CrashDoubtful(m, d, e, Grown(base, p.epoch, line), p, base);
    }
  }

  lemma CrashDoubtful(m: MarkerCodec, d: Disk, e: Disk, base: seq<seq<byte>>, was: Pending, prior: seq<seq<byte>>)
    requires HarmlessBut(m, d, base, was, prior) && Crashed(d, e)
    ensures Settled(m, e, prior) || Settled(m, e, base)
  {
    if e.marker.live.Some? && m.decode(e.marker.live.value.data) == Some(was) {
      forall i | 0 <= i < |e.segments| && i != was.epoch - 1 ensures SlotReads(prior, i, e.segments[i]) {
        CrashedReads(d, e, prior, i);
      }
      assert Restarted(d.segments[was.epoch - 1], e.segments[was.epoch - 1]);
      assert Armed(m, e, prior, was);
    } else {
      forall i | 0 <= i < |e.segments| ensures SlotReads(base, i, e.segments[i]) { CrashedReads(d, e, base, i); }
      assert Harmless(m, e, base);
    }
  }

  /** Where the line is seen and the marker is not, only the marker can take the line back. */
  lemma SeenThere(m: MarkerCodec, d: Disk, nextInode: nat, base: seq<seq<byte>>, p: Pending, line: seq<byte>)
    requires Committing(m, d, base, p, line) && WellFormed(d, nextInode) && d.marker.live == None && line != []
    requires Data(d.segments[p.epoch - 1].live) == Some(Kept(base, p.epoch) + line)
    ensures HarmlessBut(m, d, Grown(base, p.epoch, line), p, base)
  {
    var k, kept, grown := p.epoch - 1, Kept(base, p.epoch), Grown(base, p.epoch, line);
    assert [] + line == line && (kept + line)[..p.size] == kept;
    forall i | 0 <= i < |d.segments| ensures SlotReads(grown, i, d.segments[i]) {
      if i != k { assert SlotReads(base, i, d.segments[i]); }
      forall v | v in d.segments[i].may ensures GoodAt(grown, i, Data(v)) {
        assert i != k ==> GoodAt(base, i, Data(v));
      }
    }
  }

  // ----- what a later reader sees -----

  /** Recovery succeeds unless the marker came back torn, and then the scan reads these contents. */
  ghost predicate ReadsAs(c: Codec, m: MarkerCodec, im: Image, x: Contents) {
    ReadBack(c, m, im).Some? && ContentsOf(ReadBack(c, m, im).value) == x
  }

  ghost predicate Torn(m: MarkerCodec, im: Image) {
    im.marker.Some? && m.decode(im.marker.value) == None
  }

  lemma RecoverLength(m: MarkerCodec, im: Image)
    requires Recover(m, im).Some?
    ensures |Recover(m, im).value| == |im.segments|
  {
  }

  /** A settled disk reads as its journal after any crash, unless the marker came back torn; then nothing is read. */
  lemma SettledReads(c: Codec, m: MarkerCodec, d: Disk, base: seq<seq<byte>>, im: Image)
    requires CanonicalCodec(c) && IsJournal(c, base) && |d.segments| == MAX_JOURNAL_EPOCHS
    requires Settled(m, d, base) && IsImage(d, im)
    ensures if Torn(m, im) then ReadBack(c, m, im) == None else ReadsAs(c, m, im, ContentsIn(c, base))
  {
    if Harmless(m, d, base) {
      HarmlessHolds(m, d, base);
    } else {
      var p :| Armed(m, d, base, p);
      ArmedHolds(m, d, base, p);
    }
    HoldsMeans(m, d, base, im);
    if !Torn(m, im) {
      RecoverLength(m, im);
      MatchingReads(c, base, Recover(m, im).value);
    }
  }

  /** A disk caught while the line is being committed reads, after any crash, as the old journal or the new one. */
  lemma CommittingReads(c: Codec, m: MarkerCodec, d: Disk, base: seq<seq<byte>>, p: Pending, line: seq<byte>, im: Image)
    requires CanonicalCodec(c) && IsJournal(c, base) && line != []
    requires Committing(m, d, base, p, line) && IsImage(d, im) && IsJournal(c, Grown(base, p.epoch, line))
    ensures if Torn(m, im) then ReadBack(c, m, im) == None
            else ReadsAs(c, m, im, ContentsIn(c, base)) || ReadsAs(c, m, im, ContentsIn(c, Grown(base, p.epoch, line)))
  {
    CommittingMeans(m, d, base, p, line, im);
    if !Torn(m, im) {
      RecoverLength(m, im);
      var segments := Recover(m, im).value;
      if Matches(segments, base) {
        MatchingReads(c, base, segments);
      } else {
        MatchingReads(c, Grown(base, p.epoch, line), segments);
      }
    }
  }

  /** Where only an older marker may come back, every image reads as the journal or the one before it. */
  lemma DoubtfulReads(c: Codec, m: MarkerCodec, d: Disk, base: seq<seq<byte>>, was: Pending, prior: seq<seq<byte>>, im: Image)
    requires CanonicalCodec(c) && IsJournal(c, base) && IsJournal(c, prior)
    requires HarmlessBut(m, d, base, was, prior) && IsImage(d, im)
    ensures if Torn(m, im) then ReadBack(c, m, im) == None
            else ReadsAs(c, m, im, ContentsIn(c, prior)) || ReadsAs(c, m, im, ContentsIn(c, base))
  {
    if !Torn(m, im) {
      var v := VersionOf(d.marker, im.marker);
      var e := OnlyMarker(d, v);
      ImageKept(d, v, im);
      if v.Some? && m.decode(v.value.data) == Some(was) {
        assert Armed(m, e, prior, was);
        SettledReads(c, m, e, prior, im);
      } else {
        assert Harmless(m, e, base);
        SettledReads(c, m, e, base, im);
      }
    }
  }

  function OnlyMarker(d: Disk, v: Option<Node>): Disk {
    d.(marker := Slot(v, {v}))
  }

  lemma ImageKept(d: Disk, v: Option<Node>, im: Image)
    requires IsImage(d, im) && im.marker == Data(v)
    ensures IsImage(OnlyMarker(d, v), im)
  {
    var e := OnlyMarker(d, v);
    assert v in e.marker.may;
    forall i {:trigger im.segments[i]} | 0 <= i < |im.segments| ensures Version(e.segments[i], im.segments[i]) {
      assert Version(d.segments[i], im.segments[i]);
    }
  }

  // ----- a process killed while it commits -----

  /** What the disk shows now, as if all of it were durable. */
  function Seen(d: Disk): Disk {
    Disk(Slot(d.marker.live, {d.marker.live}),
         seq(|d.segments|, i requires 0 <= i < |d.segments| => Slot(d.segments[i].live, {d.segments[i].live})))
  }

  lemma SeenCrashes(d: Disk, nextInode: nat)
    requires WellFormed(d, nextInode)
    ensures Crashed(d, Seen(d))
  {
    forall i | 0 <= i < |d.segments| ensures Restarted(d.segments[i], Seen(d).segments[i]) {
      assert SegmentSlot(d.segments[i], nextInode);
    }
  }

  /** The journal a new process finds there: with the line unless its marker is there, which takes the line back. */
  function SeenJournal(d: Disk, base: seq<seq<byte>>, p: Pending, line: seq<byte>): seq<seq<byte>>
    requires Proper(base, p) && p.epoch <= |d.segments|
  {
    if d.marker.live == None && Data(d.segments[p.epoch - 1].live) == Some(Kept(base, p.epoch) + line)
    then Grown(base, p.epoch, line) else base
  }

  /**
    A line seen is in every version of the segment, and no marker is left that could take it back; a line not seen is in
    none, or no version of the disk lacks a marker.
   */
  ghost predicate ForGood(m: MarkerCodec, d: Disk, base: seq<seq<byte>>, p: Pending, line: seq<byte>)
    requires Proper(base, p) && p.epoch <= |d.segments|
  {
    var slot, kept := d.segments[p.epoch - 1], Kept(base, p.epoch);
    if SeenJournal(d, base, p, line) != base then
      (forall v :: v in slot.may ==> Data(v) == Some(kept + line))
      && forall n :: Some(n) in d.marker.may ==> m.decode(n.data) == None
    else
      None !in d.marker.may || forall v :: v in slot.may ==> Data(v) == Some(kept)
  }

  ghost predicate EveryImageReads(c: Codec, m: MarkerCodec, d: Disk, x: Contents) {
    forall im {:trigger IsImage(d, im)} :: IsImage(d, im) && !Torn(m, im) ==> ReadsAs(c, m, im, x)
  }

  function LiveImage(d: Disk, marker: Option<seq<byte>>): Image {
    Image(marker, seq(|d.segments|, i requires 0 <= i < |d.segments| => Data(d.segments[i].live)))
  }

  /** Any one version of the marker and of one segment may come back with everything else as it is. */
  lemma ImageOf(d: Disk, nextInode: nat, k: nat, v: Option<Node>, w: Option<Node>)
    requires WellFormed(d, nextInode) && k < |d.segments| && v in d.marker.may && w in d.segments[k].may
    ensures var im := LiveImage(d, Data(v)); IsImage(d, im.(segments := im.segments[k := Data(w)]))
  {
    var im := LiveImage(d, Data(v));
    var all := im.segments[k := Data(w)];
    forall i | 0 <= i < |all| ensures Version(d.segments[i], all[i]) {
      assert SegmentSlot(d.segments[i], nextInode);
    }
  }

  lemma OthersMatch(m: MarkerCodec, d: Disk, nextInode: nat, base: seq<seq<byte>>, p: Pending, line: seq<byte>, x: Option<seq<byte>>)
    requires Committing(m, d, base, p, line) && WellFormed(d, nextInode) && line != []
    requires x == Some(Kept(base, p.epoch)) || x == Some(Kept(base, p.epoch) + line)
    ensures var all := LiveImage(d, None).segments[p.epoch - 1 := x];
            Matches(all, if x == Some(Kept(base, p.epoch)) then base else Grown(base, p.epoch, line))
  {
    var k, live := p.epoch - 1, LiveImage(d, None).segments;
    var all := live[k := x];
    forall i | 0 <= i < |all| && i != k ensures GoodAt(base, i, all[i]) {
      assert SegmentSlot(d.segments[i], nextInode) && SlotReads(base, i, d.segments[i]);
    }
    if x == Some(Kept(base, p.epoch)) {
      PutMatches(live, base, k, x);
    } else {
      GrownMatches(all, base, p.epoch, line);
    }
  }

  lemma RecoverCuts(m: MarkerCodec, im: Image, bytes: seq<byte>, p: Pending, data: seq<byte>)
    requires im.marker == Some(bytes) && m.decode(bytes) == Some(p)
    requires 1 <= p.epoch <= |im.segments| && im.segments[p.epoch - 1] == Some(data) && p.size <= |data|
    ensures Recover(m, im) == Some(im.segments[p.epoch - 1 := Some(data[..p.size])])
  {
  }

  /** A version of the segment comes back without a marker. */
  lemma BareVersion(m: MarkerCodec, d: Disk, nextInode: nat, base: seq<seq<byte>>, p: Pending, line: seq<byte>, w: Option<Node>)
    returns (im: Image)
    requires Committing(m, d, base, p, line) && WellFormed(d, nextInode) && None in d.marker.may && line != []
    requires w in d.segments[p.epoch - 1].may
    ensures IsImage(d, im) && im.marker == None && |im.segments| == MAX_JOURNAL_EPOCHS
    ensures Matches(im.segments, if Data(w) == Some(Kept(base, p.epoch)) then base else Grown(base, p.epoch, line))
  {
    ImageOf(d, nextInode, p.epoch - 1, None, w);
    OthersMatch(m, d, nextInode, base, p, line, Data(w));
    im := LiveImage(d, None).(segments := LiveImage(d, None).segments[p.epoch - 1 := Data(w)]);
  }

  /** The marker comes back and takes the line seen back. */
  lemma MarkerReturns(m: MarkerCodec, d: Disk, nextInode: nat, base: seq<seq<byte>>, p: Pending, line: seq<byte>, n: Node)
    returns (im: Image)
    requires Committing(m, d, base, p, line) && WellFormed(d, nextInode) && line != []
    requires Some(n) in d.marker.may && m.decode(n.data).Some? && SeenJournal(d, base, p, line) != base
    ensures IsImage(d, im) && im.marker == Some(n.data) && |im.segments| == MAX_JOURNAL_EPOCHS
    ensures Recover(m, im).Some? && Matches(Recover(m, im).value, base)
  {
    var k, kept := p.epoch - 1, Kept(base, p.epoch);
    assert d.segments[k].live in d.segments[k].may by { assert SegmentSlot(d.segments[k], nextInode); }
    ImageOf(d, nextInode, k, Some(n), d.segments[k].live);
    im := LiveImage(d, Some(n.data));
    assert im.segments[k := Data(d.segments[k].live)] == im.segments;
    assert (kept + line)[..p.size] == kept;
    RecoverCuts(m, im, n.data, p, kept + line);
    OthersMatch(m, d, nextInode, base, p, line, Some(kept));
  }

  lemma ReadsOther(c: Codec, m: MarkerCodec, d: Disk, im: Image, x: seq<seq<byte>>, y: seq<seq<byte>>)
    requires CanonicalCodec(c) && IsJournal(c, x) && IsJournal(c, y) && ContentsIn(c, x) != ContentsIn(c, y)
    requires IsImage(d, im) && |im.segments| == MAX_JOURNAL_EPOCHS && !Torn(m, im)
    requires Recover(m, im).Some? && Matches(Recover(m, im).value, y)
    ensures !EveryImageReads(c, m, d, ContentsIn(c, x))
  {
    RecoverLength(m, im);
    MatchingReads(c, y, Recover(m, im).value);
    assert !ReadsAs(c, m, im, ContentsIn(c, x));
  }

  /**
    A process killed while it commits, or while it puts its marker back, leaves the marker's last change unsynced. What the
    next one finds, unless it refuses a torn marker, is what every power loss leaves, or a torn marker, if and only if it is
    there for good.
   */
  lemma KilledCommit(c: Codec, m: MarkerCodec, d: Disk, nextInode: nat, base: seq<seq<byte>>, p: Pending, line: seq<byte>)
    requires Committing(m, d, base, p, line) && WellFormed(d, nextInode) && !Torn(m, LiveImage(d, Data(d.marker.live)))
    requires CanonicalCodec(c) && IsJournal(c, base) && IsJournal(c, Grown(base, p.epoch, line)) && line != []
    requires ContentsIn(c, base) != ContentsIn(c, Grown(base, p.epoch, line))
    ensures ReadsAs(c, m, LiveImage(d, Data(d.marker.live)), ContentsIn(c, SeenJournal(d, base, p, line)))
    ensures EveryImageReads(c, m, d, ContentsIn(c, SeenJournal(d, base, p, line))) <==> ForGood(m, d, base, p, line)
  {
    SeenReads(c, m, d, nextInode, base, p, line);
    if ForGood(m, d, base, p, line) {
      GoodReads(c, m, d, nextInode, base, p, line);
    } else {
      NotForGood(c, m, d, nextInode, base, p, line);
    }
  }

  /** What the next process finds is the journal seen. */
  lemma SeenReads(c: Codec, m: MarkerCodec, d: Disk, nextInode: nat, base: seq<seq<byte>>, p: Pending, line: seq<byte>)
    requires Committing(m, d, base, p, line) && WellFormed(d, nextInode) && !Torn(m, LiveImage(d, Data(d.marker.live)))
    requires CanonicalCodec(c) && IsJournal(c, base) && IsJournal(c, Grown(base, p.epoch, line)) && line != []
    ensures ReadsAs(c, m, LiveImage(d, Data(d.marker.live)), ContentsIn(c, SeenJournal(d, base, p, line)))
  {
    var im, seen := LiveImage(d, Data(d.marker.live)), SeenJournal(d, base, p, line);
    SeenMatches(m, d, nextInode, base, p, line);
    RecoverLength(m, im);
    MatchingReads(c, seen, Recover(m, im).value);
  }

  lemma SeenMatches(m: MarkerCodec, d: Disk, nextInode: nat, base: seq<seq<byte>>, p: Pending, line: seq<byte>)
    requires Committing(m, d, base, p, line) && WellFormed(d, nextInode) && !Torn(m, LiveImage(d, Data(d.marker.live))) && line != []
    ensures var im := LiveImage(d, Data(d.marker.live));
            Recover(m, im).Some? && Matches(Recover(m, im).value, SeenJournal(d, base, p, line))
  {
    var k, im := p.epoch - 1, LiveImage(d, Data(d.marker.live));
    var x := Data(d.segments[k].live);
    LiveIsHalf(d, nextInode, base, p, line);
    assert im.segments[k] == x && im.segments[k := x] == im.segments;
    if d.marker.live == None {
      OthersMatch(m, d, nextInode, base, p, line, x);
    } else {
      RecoversToBase(m, d, nextInode, base, p, line, im, d.marker.live.value.data, x.value);
    }
  }

  lemma LiveIsHalf(d: Disk, nextInode: nat, base: seq<seq<byte>>, p: Pending, line: seq<byte>)
    requires WellFormed(d, nextInode) && Proper(base, p) && HalfIn(base, p, line, d.segments[p.epoch - 1])
    ensures var x := Data(d.segments[p.epoch - 1].live); x == Some(Kept(base, p.epoch)) || x == Some(Kept(base, p.epoch) + line)
  {
    assert SegmentSlot(d.segments[p.epoch - 1], nextInode);
  }

  /** An image with the marker, whatever its segment holds, is cut back to the journal without the line. */
  lemma RecoversToBase(m: MarkerCodec, d: Disk, nextInode: nat, base: seq<seq<byte>>, p: Pending, line: seq<byte>, im: Image,
                       bytes: seq<byte>, data: seq<byte>)
    requires Committing(m, d, base, p, line) && WellFormed(d, nextInode) && line != []
    requires im == LiveImage(d, Some(bytes)).(segments := LiveImage(d, None).segments[p.epoch - 1 := Some(data)])
    requires m.decode(bytes) == Some(p) && (data == Kept(base, p.epoch) || data == Kept(base, p.epoch) + line)
    ensures Recover(m, im).Some? && Matches(Recover(m, im).value, base)
  {
    var k, kept := p.epoch - 1, Kept(base, p.epoch);
    assert (kept + line)[..p.size] == kept && kept[..p.size] == kept;
    RecoverCuts(m, im, bytes, p, data);
    OthersMatch(m, d, nextInode, base, p, line, Some(kept));
    assert im.segments[k := Some(kept)] == LiveImage(d, None).segments[k := Some(kept)];
  }

  lemma GoodReads(c: Codec, m: MarkerCodec, d: Disk, nextInode: nat, base: seq<seq<byte>>, p: Pending, line: seq<byte>)
    requires Committing(m, d, base, p, line) && WellFormed(d, nextInode) && ForGood(m, d, base, p, line) && line != []
    requires CanonicalCodec(c) && IsJournal(c, base) && IsJournal(c, Grown(base, p.epoch, line))
    ensures EveryImageReads(c, m, d, ContentsIn(c, SeenJournal(d, base, p, line)))
  {
    var seen := SeenJournal(d, base, p, line);
    forall im | IsImage(d, im) && !Torn(m, im) ensures ReadsAs(c, m, im, ContentsIn(c, seen)) {
      ImageSettles(m, d, base, p, line, im);
      RecoverLength(m, im);
      MatchingReads(c, seen, Recover(m, im).value);
    }
  }

  /** For good, every image that recovery accepts is the journal seen. */
  lemma ImageSettles(m: MarkerCodec, d: Disk, base: seq<seq<byte>>, p: Pending, line: seq<byte>, im: Image)
    requires Committing(m, d, base, p, line) && ForGood(m, d, base, p, line) && IsImage(d, im) && line != []
    requires !Torn(m, im)
    ensures Recover(m, im).Some? && Matches(Recover(m, im).value, SeenJournal(d, base, p, line))
  {
    var k, kept := p.epoch - 1, Kept(base, p.epoch);
    forall i | 0 <= i < |im.segments| && i != k ensures GoodAt(base, i, im.segments[i]) {
      var w := VersionOf(d.segments[i], im.segments[i]);
      assert SlotReads(base, i, d.segments[i]);
    }
    var w := VersionOf(d.segments[k], im.segments[k]);
    var v := VersionOf(d.marker, im.marker);
    assert Data(w) == Some(kept) || Data(w) == Some(kept + line);
    assert (kept + line)[..p.size] == kept && kept[..p.size] == kept;
    PutMatches(im.segments, base, k, Some(kept));
    if SeenJournal(d, base, p, line) != base {
      GrownMatches(im.segments, base, p.epoch, line);
    } else {
      assert Data(w) == Some(kept) ==> im.segments[k := Some(kept)] == im.segments;
    }
  }

  lemma NotForGood(c: Codec, m: MarkerCodec, d: Disk, nextInode: nat, base: seq<seq<byte>>, p: Pending, line: seq<byte>)
    requires Committing(m, d, base, p, line) && WellFormed(d, nextInode)
    requires CanonicalCodec(c) && IsJournal(c, base) && IsJournal(c, Grown(base, p.epoch, line)) && line != []
    requires ContentsIn(c, base) != ContentsIn(c, Grown(base, p.epoch, line)) && !ForGood(m, d, base, p, line)
    ensures !EveryImageReads(c, m, d, ContentsIn(c, SeenJournal(d, base, p, line)))
  {
    if SeenJournal(d, base, p, line) == base {
      LineComesBack(c, m, d, nextInode, base, p, line);
    } else {
      LineTakenBack(c, m, d, nextInode, base, p, line);
    }
  }

  /** The line is not seen, and may come back. */
  lemma LineComesBack(c: Codec, m: MarkerCodec, d: Disk, nextInode: nat, base: seq<seq<byte>>, p: Pending, line: seq<byte>)
    requires Committing(m, d, base, p, line) && WellFormed(d, nextInode)
    requires CanonicalCodec(c) && IsJournal(c, base) && IsJournal(c, Grown(base, p.epoch, line)) && line != []
    requires ContentsIn(c, base) != ContentsIn(c, Grown(base, p.epoch, line))
    requires !ForGood(m, d, base, p, line) && SeenJournal(d, base, p, line) == base
    ensures !EveryImageReads(c, m, d, ContentsIn(c, base))
  {
    var w :| w in d.segments[p.epoch - 1].may && Data(w) != Some(Kept(base, p.epoch));
    var im := BareVersion(m, d, nextInode, base, p, line, w);
    ReadsOther(c, m, d, im, base, Grown(base, p.epoch, line));
  }

  /** The line is seen, and its marker may come back. */
  lemma LineTakenBack(c: Codec, m: MarkerCodec, d: Disk, nextInode: nat, base: seq<seq<byte>>, p: Pending, line: seq<byte>)
    requires Committing(m, d, base, p, line) && WellFormed(d, nextInode)
    requires CanonicalCodec(c) && IsJournal(c, base) && IsJournal(c, Grown(base, p.epoch, line)) && line != []
    requires ContentsIn(c, base) != ContentsIn(c, Grown(base, p.epoch, line))
    requires !ForGood(m, d, base, p, line) && SeenJournal(d, base, p, line) != base
    ensures !EveryImageReads(c, m, d, ContentsIn(c, SeenJournal(d, base, p, line)))
  {
    var n := MarkerLeft(m, d, base, p, line);
    var im := MarkerReturns(m, d, nextInode, base, p, line, n);
    ReadsOther(c, m, d, im, SeenJournal(d, base, p, line), base);
  }

  lemma MarkerLeft(m: MarkerCodec, d: Disk, base: seq<seq<byte>>, p: Pending, line: seq<byte>) returns (n: Node)
    requires Committing(m, d, base, p, line) && !ForGood(m, d, base, p, line) && SeenJournal(d, base, p, line) != base
    ensures Some(n) in d.marker.may && m.decode(n.data).Some?
  {
    n :| Some(n) in d.marker.may && m.decode(n.data) != None;
  }
}
