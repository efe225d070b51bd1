/**
  One run's journal in use: scan, append a record, crash, start again, any number of times.
 */
module RunJournal {
  import opened Results
  import opened ByteLines
  import opened Journal
  import opened JournalTheorems
  import opened AppendDisk
  import opened AppendTheorems
  import opened AppendProtocol

  /** What the running process reads: the current version of every segment. */
  function LiveFiles(d: Disk): seq<Option<seq<byte>>> {
    seq(|d.segments|, i requires 0 <= i < |d.segments| => Data(d.segments[i].live))
  }

  /** At rest with the journal, or undecided and seen as the journal. */
  ghost predicate Legible(m: MarkerCodec, d: Disk, base: seq<seq<byte>>, start: Phase) {
    || Harmless(m, d, base)
    || (!start.Intent? && In(m, d, base, start) && (start.Commit? ==> LiveRests(d, base, start.p)))
  }

  lemma LiveMatches(m: MarkerCodec, d: Disk, nextInode: nat, base: seq<seq<byte>>, start: Phase)
    requires WellFormed(d, nextInode) && Legible(m, d, base, start)
    ensures Matches(LiveFiles(d), base)
  {
    forall i | 0 <= i < |d.segments| ensures GoodAt(base, i, LiveFiles(d)[i]) {
      assert SegmentSlot(d.segments[i], nextInode);
      if !Harmless(m, d, base) && start.Commit? && i == start.p.epoch - 1 {
        assert LiveRests(d, base, start.p);
      } else {
        assert SlotReads(base, i, d.segments[i]);
      }
    }
  }

  /** A disk an append of `body` to the journal `base` may pass through, or leave: the old journal, or its growing undecided. */
  ghost predicate Caught(c: Codec, m: MarkerCodec, d: Disk, base: seq<seq<byte>>, body: Body) {
    || Settled(m, d, base)
    || exists p, line :: GrowsTo(c, base, p, line, body) && Undecided(m, d, base, p, line)
  }

  /** The journal with this line is the journal with one more record. */
  ghost predicate GrowsTo(c: Codec, base: seq<seq<byte>>, p: Pending, line: seq<byte>, body: Body) {
    && IsJournal(c, base) && Proper(base, p) && line != []
    && IsJournal(c, Grown(base, p.epoch, line))
    && Some(ContentsIn(c, Grown(base, p.epoch, line))) == Folded(c, ContentsIn(c, base), body)
  }

  /** Recovery reads the old contents or exactly the old contents and the new record; it refuses only a torn marker. */
  ghost predicate OldOrNew(c: Codec, m: MarkerCodec, im: Image, old_: Contents, body: Body) {
    if Torn(m, im) then ReadBack(c, m, im) == None
    else ReadsAs(c, m, im, old_) || (Folded(c, old_, body).Some? && ReadsAs(c, m, im, Folded(c, old_, body).value))
  }

  lemma CaughtReads(c: Codec, m: MarkerCodec, d: Disk, base: seq<seq<byte>>, body: Body, im: Image)
    requires CanonicalCodec(c) && IsJournal(c, base) && |d.segments| == MAX_JOURNAL_EPOCHS
    requires Caught(c, m, d, base, body) && IsImage(d, im)
    ensures OldOrNew(c, m, im, ContentsIn(c, base), body)
  {
    if Settled(m, d, base) {
      SettledReads(c, m, d, base, im);
    } else {
      var p, line :| GrowsTo(c, base, p, line, body) && Undecided(m, d, base, p, line);
      if Committing(m, d, base, p, line) {
        CommittingReads(c, m, d, base, p, line, im);
      } else {
        DoubtfulReads(c, m, d, Grown(base, p.epoch, line), p, base, im);
      }
    }
  }

  /** A journal that is `base`, or `base` and this record. */
  ghost predicate Follows(c: Codec, base: seq<seq<byte>>, body: Body, now: seq<seq<byte>>) {
    IsJournal(c, base) && IsJournal(c, now) &&
    (now == base || Some(ContentsIn(c, now)) == Folded(c, ContentsIn(c, base), body))
  }

  /** A power loss at any moment of an append, or while it is undecided, leaves the old journal or the new one. */
  lemma CaughtCrashes(c: Codec, m: MarkerCodec, d: Disk, e: Disk, base: seq<seq<byte>>, body: Body) returns (now: seq<seq<byte>>)
    requires IsJournal(c, base) && Caught(c, m, d, base, body) && Crashed(d, e)
    ensures Follows(c, base, body, now) && Settled(m, e, now)
  {
    now := base;
    if Settled(m, d, base) {
      CrashSettled(m, d, e, base);
    } else {
      var p, line :| GrowsTo(c, base, p, line, body) && Undecided(m, d, base, p, line);
      CrashUndecided(m, d, e, base, p, line);
      if !Settled(m, e, base) { now := Grown(base, p.epoch, line); }
    }
  }

  /**
    A process killed while it commits a record, or while it puts the marker back: what the next one reads, unless it refuses
    a torn marker, is what every power loss leaves, or a torn marker, if and only if it is there for good.
   */
  lemma KilledAppend(c: Codec, m: MarkerCodec, d: Disk, nextInode: nat, base: seq<seq<byte>>, p: Pending, line: seq<byte>, body: Body)
    requires CanonicalCodec(c) && Committing(m, d, base, p, line) && GrowsTo(c, base, p, line, body)
    requires WellFormed(d, nextInode) && !Torn(m, LiveImage(d, Data(d.marker.live)))
    ensures ReadsAs(c, m, LiveImage(d, Data(d.marker.live)), ContentsIn(c, SeenJournal(d, base, p, line)))
    ensures EveryImageReads(c, m, d, ContentsIn(c, SeenJournal(d, base, p, line))) <==> ForGood(m, d, base, p, line)
  {
    assert ContentsIn(c, Grown(base, p.epoch, line)).sequence == ContentsIn(c, base).sequence + 1;
    KilledCommit(c, m, d, nextInode, base, p, line);
  }

  datatype Refusal = Unreadable | Refused(error: AppendError) | NotAdmitted | Failed

  /** Where an undecided commit left the disk, or an append to the journal seen there has taken it. */
  ghost predicate CaughtFrom(c: Codec, m: MarkerCodec, d: Disk, base: seq<seq<byte>>, start: Phase, body: Body) {
    In(m, d, base, start) || Caught(c, m, d, base, body)
  }

  ghost predicate CaughtThrough(c: Codec, m: MarkerCodec, from: set<Disk>, now: set<Disk>, base: seq<seq<byte>>, start: Phase, body: Body) {
    from <= now && forall d :: d in now && d !in from ==> CaughtFrom(c, m, d, base, start, body)
  }

  /** A process that starts here finds the journal: what it sees is legible, or its marker takes it back. */
  ghost predicate Viewed(m: MarkerCodec, d: Disk, base: seq<seq<byte>>, start: Phase) {
    !start.Intent? && Stands(m, d, base, start) && (d.marker.live == None && !Settled(m, d, base) ==> Legible(m, d, base, start))
  }

  /** Consumes the marker and scans the segments. */
  method ScanJournal(dir: RunDirectory, c: Codec, ghost base: seq<seq<byte>>, ghost start: Phase) returns (r: Option<State>)
    requires dir.Valid() && Viewed(dir.markers, dir.disk, base, start) && CanonicalCodec(c) && IsJournal(c, base)
    modifies dir`disk, dir`passed, dir`faulty
    ensures (old(dir.faulty) ==> dir.faulty) && (r == None ==> dir.faulty || TornMarker(dir.markers, old(dir.disk)))
    ensures r.Some? ==> dir.disk.marker.live == None && Legible(dir.markers, dir.disk, base, start)
    ensures dir.Valid() && Stands(dir.markers, dir.disk, base, start)
    ensures StandsThrough(dir.markers, old(dir.passed), dir.passed, base, start)
    ensures r.Some? ==> var files := FilesIn(base, LiveFiles(dir.disk)); FilesFor(base, files) && ScanFiles(c, files) == r
    ensures r.Some? ==> ContentsOf(r.value) == ContentsIn(c, base)
  {
    if Settled(dir.markers, dir.disk, base) && dir.disk.marker.live == None { MissingMarker(dir.markers, dir.disk, base); }
    var ok := dir.RecoverPendingAppend(base, start);
    if !ok { return None; }
    ok := dir.Check();
    if !ok { return None; }
    LiveMatches(dir.markers, dir.disk, dir.nextInode, base, start);
    MatchingReads(c, base, LiveFiles(dir.disk));
    r := ScanRun(c, DirectoryOf(LiveFiles(dir.disk)));
  }

  /** The next record goes to the place of the undecided one, or to a later segment. */
  lemma GoesOn(c: Codec, m: MarkerCodec, d: Disk, base: seq<seq<byte>>, start: Phase, s: State, p: Prepared)
    requires start.Commit? && In(m, d, base, start) && LiveRests(d, base, start.p)
    requires forall v :: v in d.segments[start.p.epoch - 1].may ==> v.Some?
    requires d.segments[start.p.epoch - 1].live in d.segments[start.p.epoch - 1].may
    requires MatchFiles(s, FilesIn(base, LiveFiles(d))) && (AppendsToLast(s, p) || (StartsSegment(s, p) && p.epoch == |FilesIn(base, LiveFiles(d))| + 1))
    requires Proper(base, Pending(p.epoch, p.offset))
    ensures start.p.epoch < p.epoch || start.p == Pending(p.epoch, p.offset)
  {
    var k := start.p.epoch - 1;
    assert LiveFiles(d)[k] == Data(d.segments[k].live);
    assert k == |base| ==> FilesIn(base, LiveFiles(d)) == base + [[]];
  }

  /** What AppendRecord is about to append, and where. */
  lemma Prepares(c: Codec, m: MarkerCodec, d: Disk, nextInode: nat, base: seq<seq<byte>>, start: Phase, s: State, body: Body, p: Prepared)
    requires CanonicalCodec(c) && CompactCodec(c) && IsJournal(c, base) && WellFormed(d, nextInode) && Legible(m, d, base, start)
    requires FilesFor(base, FilesIn(base, LiveFiles(d))) && ScanFiles(c, FilesIn(base, LiveFiles(d))) == Some(s)
    requires ContentsOf(s) == ContentsIn(c, base) && Admits(c, s, body) && PrepareAppend(c, s, body) == Ok(p)
    ensures GrowsTo(c, base, Pending(p.epoch, p.offset), p.line, body)
    ensures start.Commit? && !Harmless(m, d, base) ==> start.p.epoch < p.epoch || start.p == Pending(p.epoch, p.offset)
  {
    GrowsBy(c, base, FilesIn(base, LiveFiles(d)), s, body, p);
    if start.Commit? && !Harmless(m, d, base) { PreparesLater(c, m, d, nextInode, base, start, s, body, p); }
  }

  lemma PreparesLater(c: Codec, m: MarkerCodec, d: Disk, nextInode: nat, base: seq<seq<byte>>, start: Phase, s: State, body: Body,
                      p: Prepared)
    requires CanonicalCodec(c) && CompactCodec(c) && WellFormed(d, nextInode)
    requires start.Commit? && In(m, d, base, start) && LiveRests(d, base, start.p)
    requires ScanFiles(c, FilesIn(base, LiveFiles(d))) == Some(s) && Admits(c, s, body) && PrepareAppend(c, s, body) == Ok(p)
    requires Proper(base, Pending(p.epoch, p.offset))
    ensures start.p.epoch < p.epoch || start.p == Pending(p.epoch, p.offset)
  {
    var files := FilesIn(base, LiveFiles(d));
    SegmentsMatchFiles(c, files);
    PreparedShape(c, s, body);
    HalfInSome(d, nextInode, base, start.p, start.line);
    GoesOn(c, m, d, base, start, s, p);
  }

  lemma HalfInSome(d: Disk, nextInode: nat, base: seq<seq<byte>>, p: Pending, line: seq<byte>)
    requires WellFormed(d, nextInode) && Proper(base, p) && HalfIn(base, p, line, d.segments[p.epoch - 1])
    ensures forall v :: v in d.segments[p.epoch - 1].may ==> v.Some?
    ensures d.segments[p.epoch - 1].live in d.segments[p.epoch - 1].may
  {
    assert SegmentSlot(d.segments[p.epoch - 1], nextInode);
  }

  /** Scans, then appends one record if the journal admits it. */
  method AppendRecord(dir: RunDirectory, c: Codec, body: Body, ghost base: seq<seq<byte>>, ghost start: Phase)
    returns (r: Result<State, Refusal>, ghost now: seq<seq<byte>>)
    requires dir.Valid() && Viewed(dir.markers, dir.disk, base, start) && !dir.failedClosed
    requires CanonicalCodec(c) && CompactCodec(c) && IsJournal(c, base)
    modifies dir
    ensures dir.Valid() && CaughtThrough(c, dir.markers, old(dir.passed), dir.passed, base, start, body)
    ensures IsJournal(c, now) && (r.Ok? ==> Settled(dir.markers, dir.disk, now) && !dir.failedClosed)
    ensures r.Ok? ==> Some(ContentsIn(c, now)) == Folded(c, ContentsIn(c, base), body)
    ensures r.Err? ==> now == base && (!dir.failedClosed ==> Stands(dir.markers, dir.disk, base, start))
    ensures r == Err(Unreadable) ==> dir.faulty || TornMarker(dir.markers, old(dir.disk))
    ensures r == Err(Failed) || dir.failedClosed ==> dir.faulty
    ensures r == Err(NotAdmitted) ==> !exists s: State :: ContentsOf(s) == ContentsIn(c, base) && Admits(c, s, body)
    ensures dir.failedClosed ==> dir.retainLock && Caught(c, dir.markers, dir.disk, base, body)
  {
    now := base;
    var scanned := ScanJournal(dir, c, base, start);
    StandsIsCaught(c, dir.markers, old(dir.passed), dir.passed, base, start, body);
    if scanned == None { return Err(Unreadable), now; }
    ghost var before := dir.passed;
    r, now := AppendScanned(dir, c, body, scanned.value, base, start);
    CaughtJoin(c, dir.markers, old(dir.passed), before, dir.passed, base, start, body);
  }

  lemma CaughtJoin(c: Codec, m: MarkerCodec, a: set<Disk>, b: set<Disk>, e: set<Disk>, base: seq<seq<byte>>, start: Phase, body: Body)
    requires CaughtThrough(c, m, a, b, base, start, body) && CaughtThrough(c, m, b, e, base, start, body)
    ensures CaughtThrough(c, m, a, e, base, start, body)
  {
    forall d | d in e && d !in a ensures CaughtFrom(c, m, d, base, start, body) {
    }
  }

  /** The journal has been scanned: appends the record if it is admitted. */
  method AppendScanned(dir: RunDirectory, c: Codec, body: Body, state: State, ghost base: seq<seq<byte>>, ghost start: Phase)
    returns (r: Result<State, Refusal>, ghost now: seq<seq<byte>>)
    requires dir.Valid() && dir.disk.marker.live == None && Legible(dir.markers, dir.disk, base, start) && !dir.failedClosed && !start.Intent?
    requires CanonicalCodec(c) && CompactCodec(c) && IsJournal(c, base)
    requires var files := FilesIn(base, LiveFiles(dir.disk)); FilesFor(base, files) && ScanFiles(c, files) == Some(state)
    requires ContentsOf(state) == ContentsIn(c, base)
    modifies dir
    ensures dir.Valid() && CaughtThrough(c, dir.markers, old(dir.passed), dir.passed, base, start, body)
    ensures IsJournal(c, now) && (r.Ok? ==> Settled(dir.markers, dir.disk, now) && !dir.failedClosed)
    ensures r.Ok? ==> Some(ContentsIn(c, now)) == Folded(c, ContentsIn(c, base), body)
    ensures r.Err? ==> now == base && r.error != Unreadable && (!dir.failedClosed ==> Stands(dir.markers, dir.disk, base, start))
    ensures (old(dir.faulty) ==> dir.faulty) && (r == Err(Failed) || dir.failedClosed ==> dir.faulty)
    ensures r == Err(NotAdmitted) ==> !Admits(c, state, body)
    ensures dir.failedClosed ==> dir.retainLock && Caught(c, dir.markers, dir.disk, base, body)
  {
    now := base;
    if !Admits(c, state, body) { return Err(NotAdmitted), now; }
    var prepared := PrepareAppend(c, state, body);
    if prepared.Err? { return Err(Refused(prepared.error)), now; }
    var next := prepared.value;
    Prepares(c, dir.markers, dir.disk, dir.nextInode, base, start, state, body, next);
    r := PutRecord(dir, c, body, state, next, base, start);
    if r.Ok? { now := Grown(base, next.epoch, next.line); }
  }

  /** Appends the prepared record. */
  method PutRecord(dir: RunDirectory, c: Codec, body: Body, state: State, next: Prepared, ghost base: seq<seq<byte>>, ghost start: Phase)
    returns (r: Result<State, Refusal>)
    requires dir.Valid() && dir.disk.marker.live == None && Legible(dir.markers, dir.disk, base, start) && !dir.failedClosed && !start.Intent?
    requires GrowsTo(c, base, Pending(next.epoch, next.offset), next.line, body)
    requires start.Commit? && !Harmless(dir.markers, dir.disk, base) ==> start.p.epoch < next.epoch || start.p == Pending(next.epoch, next.offset)
    modifies dir
    ensures dir.Valid() && CaughtThrough(c, dir.markers, old(dir.passed), dir.passed, base, start, body)
    ensures r.Ok? ==> Settled(dir.markers, dir.disk, Grown(base, next.epoch, next.line)) && !dir.failedClosed
    ensures r.Err? ==> r.error == Failed && (old(dir.faulty) || dir.faulty) && (!dir.failedClosed ==> Stands(dir.markers, dir.disk, base, start))
    ensures (old(dir.faulty) ==> dir.faulty) && (dir.failedClosed ==> dir.retainLock && dir.faulty && Caught(c, dir.markers, dir.disk, base, body))
    ensures r.Err? ==> dir.faulty
  {
    var p := Pending(next.epoch, next.offset);
    dir.LeaveBehind(next.epoch, base, start);
    var ok := dir.AppendLine(p, next.line, base, start);
    SafeIsCaught(c, dir.markers, old(dir.passed), dir.passed, base, start, p, next.line, body);
    r := if ok then Ok(state) else Err(Failed);
  }

  lemma StandsIsCaught(c: Codec, m: MarkerCodec, a: set<Disk>, b: set<Disk>, base: seq<seq<byte>>, start: Phase, body: Body)
    requires StandsThrough(m, a, b, base, start)
    ensures CaughtThrough(c, m, a, b, base, start, body)
  {
    forall d | d in b && d !in a ensures CaughtFrom(c, m, d, base, start, body) { assert Stands(m, d, base, start); }
  }

  lemma SafeIsCaught(c: Codec, m: MarkerCodec, a: set<Disk>, b: set<Disk>, base: seq<seq<byte>>, start: Phase, p: Pending,
                     line: seq<byte>, body: Body)
    requires SafeFromThrough(m, a, b, base, start, p, line) && GrowsTo(c, base, p, line, body)
    ensures CaughtThrough(c, m, a, b, base, start, body)
  {
    forall d | d in b && d !in a ensures CaughtFrom(c, m, d, base, start, body) {
      assert SafeFrom(m, d, base, start, p, line);
    }
  }

  // ----- whole lives: any number of appends, failures and crashes -----

  /** What a caller knows of one request: acknowledged, refused, or cut off by a crash or by a journal that failed closed. */
  datatype Fate = Acknowledged | Declined | CutOff

  /** The process may be killed during the request, or the power may fail at some state. */
  datatype Ending = Undisturbed | Killed | PowerLost(at: Disk, after: Disk)

  /** `log` is the requests that took effect: every acknowledged one, no declined one, in order. */
  predicate Selected(bodies: seq<Body>, fates: seq<Fate>, log: seq<Body>)
    requires |fates| == |bodies|
  {
    if bodies == [] then log == [] else
      var n := |bodies| - 1;
      var init, fate := bodies[..n], fates[..n];
      || (fates[n] != Acknowledged && Selected(init, fate, log))
      || (fates[n] != Declined && log != [] && log[|log| - 1] == bodies[n] && Selected(init, fate, log[..|log| - 1]))
  }

  function FoldAll(c: Codec, x: Contents, log: seq<Body>): Option<Contents> {
    if log == [] then Some(x) else
      match FoldAll(c, x, log[..|log| - 1])
      case None => None
      case Some(y) => Folded(c, y, log[|log| - 1])
  }

  lemma SelectedMore(bodies: seq<Body>, fates: seq<Fate>, log: seq<Body>, body: Body, fate: Fate, took: bool)
    requires |fates| == |bodies| && Selected(bodies, fates, log)
    requires (fate == Acknowledged ==> took) && (fate == Declined ==> !took)
    ensures Selected(bodies + [body], fates + [fate], if took then log + [body] else log)
  {
    assert (bodies + [body])[..|bodies|] == bodies && (fates + [fate])[..|fates|] == fates;
    assert (log + [body])[..|log|] == log;
  }

  lemma FoldMore(c: Codec, x: Contents, log: seq<Body>, body: Body)
    requires FoldAll(c, x, log).Some?
    ensures FoldAll(c, x, log + [body]) == Folded(c, FoldAll(c, x, log).value, body)
  {
    assert (log + [body])[..|log|] == log;
  }

  /** The journal stands for the log. */
  ghost predicate StandsFor(c: Codec, base: seq<seq<byte>>, now: seq<seq<byte>>, log: seq<Body>) {
    IsJournal(c, base) && IsJournal(c, now) && FoldAll(c, ContentsIn(c, base), log) == Some(ContentsIn(c, now))
  }

  /** The record took effect, or nothing did. */
  ghost predicate Effect(c: Codec, was: seq<seq<byte>>, now: seq<seq<byte>>, body: Body, took: bool) {
    && IsJournal(c, was) && IsJournal(c, now)
    && if took then Some(ContentsIn(c, now)) == Folded(c, ContentsIn(c, was), body) else ContentsIn(c, now) == ContentsIn(c, was)
  }

  lemma ServedMore(c: Codec, base: seq<seq<byte>>, was: seq<seq<byte>>, now: seq<seq<byte>>, bodies: seq<Body>, fates: seq<Fate>,
                   log: seq<Body>, body: Body, fate: Fate, took: bool)
    requires |fates| == |bodies| && Selected(bodies, fates, log) && StandsFor(c, base, was, log) && Effect(c, was, now, body, took)
    requires (fate == Acknowledged ==> took) && (fate == Declined ==> !took)
    ensures Selected(bodies + [body], fates + [fate], if took then log + [body] else log)
    ensures StandsFor(c, base, now, if took then log + [body] else log)
  {
    SelectedMore(bodies, fates, log, body, fate, took);
    FoldMore(c, ContentsIn(c, base), log, body);
  }

  lemma CrashEffect(c: Codec, m: MarkerCodec, d: Disk, e: Disk, base: seq<seq<byte>>, body: Body)
    returns (took: bool, now: seq<seq<byte>>)
    requires IsJournal(c, base) && Caught(c, m, d, base, body) && Crashed(d, e)
    ensures Settled(m, e, now) && Effect(c, base, now, body, took)
  {
    now := CaughtCrashes(c, m, d, e, base, body);
    took := ContentsIn(c, now) != ContentsIn(c, base);
  }

  // ----- an undecided commit, as the next process finds it -----

  /** The journal that a process finds, what it makes of the disk, and whether the undecided record is in that journal. */
  datatype View = View(base: seq<seq<byte>>, start: Phase, took: bool)

  /** `v` is what a process finds where `base` may or may not have grown by the record; a state left so is still undecided. */
  ghost predicate Finds(c: Codec, m: MarkerCodec, d: Disk, base: seq<seq<byte>>, body: Body, v: View) {
    && IsJournal(c, v.base) && Viewed(m, d, v.base, v.start) && Effect(c, base, v.base, body, v.took)
    && forall e {:trigger In(m, e, v.base, v.start)} :: In(m, e, v.base, v.start) ==> Caught(c, m, e, base, body)
  }

  lemma ViewOf(c: Codec, m: MarkerCodec, d: Disk, nextInode: nat, base: seq<seq<byte>>, body: Body) returns (v: View)
    requires IsJournal(c, base) && Caught(c, m, d, base, body) && WellFormed(d, nextInode)
    ensures Finds(c, m, d, base, body, v)
  {
    if Settled(m, d, base) {
      v := View(base, AtRest, false);
    } else {
      var p, line :| GrowsTo(c, base, p, line, body) && Undecided(m, d, base, p, line);
      v := UndecidedView(c, m, d, nextInode, base, body, p, line);
    }
  }

  lemma UndecidedView(c: Codec, m: MarkerCodec, d: Disk, nextInode: nat, base: seq<seq<byte>>, body: Body, p: Pending, line: seq<byte>)
    returns (v: View)
    requires IsJournal(c, base) && WellFormed(d, nextInode) && GrowsTo(c, base, p, line, body) && Undecided(m, d, base, p, line)
    ensures Finds(c, m, d, base, body, v)
  {
    var grown := Grown(base, p.epoch, line);
    if Committing(m, d, base, p, line) && (d.marker.live.Some? || Data(d.segments[p.epoch - 1].live) != Some(Kept(base, p.epoch) + line)) {
      v := View(base, Commit(p, line), false);
      LiveIsHalf(d, nextInode, base, p, line);
      KeptRests(d, base, p);
      forall e {:trigger In(m, e, base, v.start)} | In(m, e, base, v.start) ensures Caught(c, m, e, base, body) {
        assert Undecided(m, e, base, p, line);
      }
    } else {
      v := View(grown, Doubt(p, base), true);
      if Committing(m, d, base, p, line) { SeenThere(m, d, nextInode, base, p, line); }
      forall e {:trigger In(m, e, grown, v.start)} | In(m, e, grown, v.start) ensures Caught(c, m, e, base, body) {
        assert Undecided(m, e, base, p, line);
      }
    }
  }

  lemma KeptRests(d: Disk, base: seq<seq<byte>>, p: Pending)
    requires Proper(base, p) && p.epoch <= |d.segments|
    ensures Data(d.segments[p.epoch - 1].live) == Some(Kept(base, p.epoch)) ==> LiveRests(d, base, p)
  {
  }

  // ----- one request -----

  /**
    What a request comes to, with its power loss if there was one: nothing is decided; or the undecided record took effect
    or not, giving `mid`, and so did the request's, giving `now`; or the former is decided and the latter is not.
   */
  datatype Turn = Still | Moved(held: bool, mid: seq<seq<byte>>, took: bool, now: seq<seq<byte>>) | Closed(held: bool, mid: seq<seq<byte>>)

  ghost predicate TurnOk(dir: RunDirectory, c: Codec, base: seq<seq<byte>>, held: Body, body: Body, fate: Fate, t: Turn)
    reads dir
  {
    match t
    case Still => !dir.failedClosed && fate != Acknowledged && Caught(c, dir.markers, dir.disk, base, held)
    case Moved(was, mid, took, now) =>
      && !dir.failedClosed && Effect(c, base, mid, held, was) && Effect(c, mid, now, body, took)
      && Settled(dir.markers, dir.disk, now) && (fate == Acknowledged ==> took) && (fate == Declined ==> !took)
    case Closed(was, mid) => Effect(c, base, mid, held, was) && fate == CutOff && Caught(c, dir.markers, dir.disk, mid, body)
  }

  /** A power loss at a state the request passed decides everything. */
  lemma LossTurn(c: Codec, m: MarkerCodec, at: Disk, after: Disk, base: seq<seq<byte>>, held: Body, v: View, body: Body)
    returns (t: Turn)
    requires IsJournal(c, base) && IsJournal(c, v.base) && Effect(c, base, v.base, held, v.took) && Crashed(at, after)
    requires CaughtFrom(c, m, at, v.base, v.start, body)
    requires In(m, at, v.base, v.start) ==> Caught(c, m, at, base, held)
    ensures t.Moved? && Effect(c, base, t.mid, held, t.held) && Effect(c, t.mid, t.now, body, t.took) && Settled(m, after, t.now)
    ensures v.start.AtRest? ==> t.held == v.took && t.mid == v.base
  {
    if Caught(c, m, at, v.base, body) {
      var took, now := CrashEffect(c, m, at, after, v.base, body);
      t := Moved(v.took, v.base, took, now);
    } else {
      var was, now := CrashEffect(c, m, at, after, base, held);
      t := Moved(was, now, false, now);
    }
  }

  lemma CaughtLength(c: Codec, m: MarkerCodec, d: Disk, base: seq<seq<byte>>, start: Phase, body: Body)
    requires CaughtFrom(c, m, d, base, start, body)
    ensures |d.segments| == MAX_JOURNAL_EPOCHS
  {
    if !In(m, d, base, start) && !Settled(m, d, base) {
      var p, line :| GrowsTo(c, base, p, line, body) && Undecided(m, d, base, p, line);
    }
  }

  /** One request to a running process, and its ending; `held` is the record that was left undecided, if one was. */
  method Attend(dir: RunDirectory, c: Codec, body: Body, ending: Ending, ghost base: seq<seq<byte>>, ghost held: Body, ghost v: View)
    returns (fate: Fate, ghost t: Turn)
    requires dir.Valid() && !dir.failedClosed && IsJournal(c, base) && Finds(c, dir.markers, dir.disk, base, held, v)
    requires CanonicalCodec(c) && CompactCodec(c)
    modifies dir
    ensures dir.Valid() && TurnOk(dir, c, base, held, body, fate, t)
    ensures v.start.AtRest? ==> !t.Still? && t.held == v.took && t.mid == v.base
  {
    dir.Begin();
    ghost var start := dir.disk;
    var r;
    ghost var now;
    r, now := AppendRecord(dir, c, body, v.base, v.start);
    fate := if r.Ok? then Acknowledged else if dir.failedClosed then CutOff else Declined;
    t := if r.Ok? then Moved(v.took, v.base, true, now) else if dir.failedClosed then Closed(v.took, v.base)
         else if Settled(dir.markers, dir.disk, v.base) then Moved(v.took, v.base, false, v.base) else Still;
    match ending {
      case Undisturbed =>
      case Killed =>
        fate := CutOff;
        dir.Kill();
      case PowerLost(at, after) =>
        if at in dir.passed && Crashed(at, after) {
          assert CaughtFrom(c, dir.markers, at, v.base, v.start, body) by { assert at == start || at !in {start}; }
          CaughtLength(c, dir.markers, at, v.base, v.start, body);
          t := LossTurn(c, dir.markers, at, after, base, held, v, body);
          dir.Restart(at, after);
          fate := CutOff;
        }
    }
  }

  /** A journal that failed closed answers nothing until a new process takes over what it left, or the power fails. */
  method Wake(dir: RunDirectory, c: Codec, ending: Ending, ghost base: seq<seq<byte>>, ghost held: Body)
    returns (ghost decided: bool, ghost took: bool, ghost now: seq<seq<byte>>)
    requires dir.Valid() && dir.failedClosed && IsJournal(c, base) && Caught(c, dir.markers, dir.disk, base, held)
    modifies dir
    ensures dir.Valid()
    ensures if decided then !dir.failedClosed && Settled(dir.markers, dir.disk, now) && Effect(c, base, now, held, took)
            else dir.disk == old(dir.disk)
  {
    decided, took, now := false, false, base;
    match ending {
      case Undisturbed =>
      case Killed =>
        dir.Kill();
      case PowerLost(at, after) =>
        if at == dir.disk && Crashed(at, after) {
          took, now := CrashEffect(c, dir.markers, at, after, base, held);
          CaughtLength(c, dir.markers, at, base, AtRest, held);
          dir.Restart(at, after);
          decided := true;
        }
    }
  }

  // ----- whole lives -----

  /** Where a life has got to while request `held` is undecided: those after it had no effect. */
  ghost predicate Held(bodies: seq<Body>, fates: seq<Fate>, log: seq<Body>, held: nat)
    requires |fates| == |bodies|
  {
    && held < |bodies| && Selected(bodies[..held], fates[..held], log) && fates[held] == CutOff
    && forall i :: held < i < |fates| ==> fates[i] != Acknowledged
  }

  /** Whichever way request `held` is decided, the log is one of what happened. */
  lemma {:induction false} HeldDecided(bodies: seq<Body>, fates: seq<Fate>, log: seq<Body>, held: nat, took: bool)
    requires |fates| == |bodies| && Held(bodies, fates, log, held)
    ensures Selected(bodies, fates, if took then log + [bodies[held]] else log)
    decreases |bodies|
  {
    var n := |bodies| - 1;
    if held == n {
      assert bodies == bodies[..n] + [bodies[n]] && fates == fates[..n] + [fates[n]];
      SelectedMore(bodies[..n], fates[..n], log, bodies[n], CutOff, took);
    } else {
      assert bodies[..n][..held] == bodies[..held] && fates[..n][..held] == fates[..held];
      HeldDecided(bodies[..n], fates[..n], log, held, took);
    }
  }

  lemma HeldOn(bodies: seq<Body>, fates: seq<Fate>, log: seq<Body>, held: nat, body: Body, fate: Fate)
    requires |fates| == |bodies| && Held(bodies, fates, log, held) && fate != Acknowledged
    ensures Held(bodies + [body], fates + [fate], log, held)
  {
    assert (bodies + [body])[..held] == bodies[..held] && (fates + [fate])[..held] == fates[..held];
  }

  lemma HeldStarts(bodies: seq<Body>, fates: seq<Fate>, log: seq<Body>, body: Body)
    requires |fates| == |bodies| && Selected(bodies, fates, log)
    ensures Held(bodies + [body], fates + [CutOff], log, |bodies|)
  {
    assert (bodies + [body])[..|bodies|] == bodies && (fates + [CutOff])[..|bodies|] == fates;
  }

  lemma LogGrows(c: Codec, base: seq<seq<byte>>, was: seq<seq<byte>>, now: seq<seq<byte>>, log: seq<Body>, body: Body, took: bool)
    requires StandsFor(c, base, was, log) && Effect(c, was, now, body, took)
    ensures StandsFor(c, base, now, if took then log + [body] else log)
  {
    FoldMore(c, ContentsIn(c, base), log, body);
  }

  /** The log of a life so far, the journal it stands for, and the request that is undecided, if one is. */
  datatype Life = Life(now: seq<seq<byte>>, log: seq<Body>, held: Option<nat>)

  ghost predicate Telling(c: Codec, bodies: seq<Body>, fates: seq<Fate>, base: seq<seq<byte>>, life: Life)
    requires |fates| == |bodies|
  {
    && StandsFor(c, base, life.now, life.log)
    && match life.held
       case Some(held) => Held(bodies, fates, life.log, held)
       case None => Selected(bodies, fates, life.log)
  }

  ghost predicate Living(dir: RunDirectory, c: Codec, bodies: seq<Body>, fates: seq<Fate>, base: seq<seq<byte>>, life: Life)
    requires |fates| == |bodies|
    reads dir
  {
    && dir.Valid() && Telling(c, bodies, fates, base, life) && (dir.failedClosed ==> life.held.Some?)
    && if life.held.Some? then Caught(c, dir.markers, dir.disk, life.now, bodies[life.held.value])
       else Settled(dir.markers, dir.disk, life.now)
  }

  function LogWith(log: seq<Body>, body: Body, took: bool): seq<Body> {
    if took then log + [body] else log
  }

  /** The log once the undecided request is decided. */
  function Resolved(bodies: seq<Body>, life: Life, took: bool): seq<Body>
    requires life.held.Some? ==> life.held.value < |bodies|
  {
    if life.held.Some? then LogWith(life.log, bodies[life.held.value], took) else life.log
  }

  lemma ResolvedOk(c: Codec, bodies: seq<Body>, fates: seq<Fate>, base: seq<seq<byte>>, life: Life, took: bool, mid: seq<seq<byte>>)
    requires |fates| == |bodies| && Telling(c, bodies, fates, base, life)
    requires if life.held.Some? then Effect(c, life.now, mid, bodies[life.held.value], took) else mid == life.now
    ensures Selected(bodies, fates, Resolved(bodies, life, took)) && StandsFor(c, base, mid, Resolved(bodies, life, took))
  {
    if life.held.Some? {
      HeldDecided(bodies, fates, life.log, life.held.value, took);
      LogGrows(c, base, life.now, mid, life.log, bodies[life.held.value], took);
    }
  }

  /** Where a life has got to after a request of a running process. */
  ghost function After(bodies: seq<Body>, life: Life, body: Body, t: Turn): Life
    requires life.held.Some? ==> life.held.value < |bodies|
  {
    match t
    case Still => life
    case Moved(was, mid, took, now) => Life(now, LogWith(Resolved(bodies, life, was), body, took), None)
    case Closed(was, mid) => Life(mid, Resolved(bodies, life, was), Some(|bodies|))
  }

  /** What a life's story needs of the turn, with nothing of the disk. */
  lemma AfterOk(c: Codec, bodies: seq<Body>, fates: seq<Fate>, base: seq<seq<byte>>, life: Life, body: Body, fate: Fate, t: Turn)
    requires |fates| == |bodies| && Telling(c, bodies, fates, base, life)
    requires match t
             case Still => life.held.Some? && fate != Acknowledged
             case Moved(was, mid, took, now) =>
               && (if life.held.Some? then Effect(c, life.now, mid, bodies[life.held.value], was) else mid == life.now)
               && Effect(c, mid, now, body, took) && (fate == Acknowledged ==> took) && (fate == Declined ==> !took)
             case Closed(was, mid) =>
               && (if life.held.Some? then Effect(c, life.now, mid, bodies[life.held.value], was) else mid == life.now)
               && fate == CutOff
    ensures Telling(c, bodies + [body], fates + [fate], base, After(bodies, life, body, t))
  {
    match t
    case Still => HeldOn(bodies, fates, life.log, life.held.value, body, fate);
    case Moved(was, mid, took, now) =>
      ResolvedOk(c, bodies, fates, base, life, was, mid);
      ServedMore(c, base, mid, now, bodies, fates, Resolved(bodies, life, was), body, fate, took);
    case Closed(was, mid) =>
      ResolvedOk(c, bodies, fates, base, life, was, mid);
      HeldStarts(bodies, fates, Resolved(bodies, life, was), body);
  }

  /** What the next process, or the running one, finds. */
  lemma FoundIn(dir: RunDirectory, c: Codec, bodies: seq<Body>, fates: seq<Fate>, base: seq<seq<byte>>, life: Life, body: Body)
    returns (v: View)
    requires |fates| == |bodies| && Living(dir, c, bodies, fates, base, life)
    ensures Finds(c, dir.markers, dir.disk, life.now, if life.held.Some? then bodies[life.held.value] else body, v)
    ensures life.held == None ==> v == View(life.now, AtRest, false)
  {
    if life.held.Some? {
      v := ViewOf(c, dir.markers, dir.disk, dir.nextInode, life.now, bodies[life.held.value]);
    } else {
      v := View(life.now, AtRest, false);
    }
  }

  /** A request while the journal is failed closed. */
  method Refuse(dir: RunDirectory, c: Codec, body: Body, ending: Ending, ghost bodies: seq<Body>, ghost fates: seq<Fate>,
                ghost base: seq<seq<byte>>, ghost life: Life)
    returns (ghost next: Life)
    requires |fates| == |bodies| && Living(dir, c, bodies, fates, base, life) && dir.failedClosed
    modifies dir
    ensures Living(dir, c, bodies + [body], fates + [Declined], base, next)
  {
    ghost var held := life.held.value;
    HeldOn(bodies, fates, life.log, held, body, Declined);
    ghost var decided, took, now := Wake(dir, c, ending, life.now, bodies[held]);
    next := life;
    if decided {
      next := Life(now, LogWith(life.log, bodies[held], took), None);
      HeldDecided(bodies + [body], fates + [Declined], life.log, held, took);
      LogGrows(c, base, life.now, now, life.log, bodies[held], took);
    }
  }

  /** One more request in a life. */
  method Next(dir: RunDirectory, c: Codec, body: Body, ending: Ending, ghost bodies: seq<Body>, ghost fates: seq<Fate>,
              ghost base: seq<seq<byte>>, ghost life: Life)
    returns (fate: Fate, ghost next: Life)
    requires |fates| == |bodies| && Living(dir, c, bodies, fates, base, life)
    requires CanonicalCodec(c) && CompactCodec(c)
    modifies dir
    ensures Living(dir, c, bodies + [body], fates + [fate], base, next)
  {
    if dir.failedClosed {
      next := Refuse(dir, c, body, ending, bodies, fates, base, life);
      fate := Declined;
    } else {
      fate, next := Answer(dir, c, body, ending, bodies, fates, base, life);
    }
  }

  /** A request to a running process. */
  method Answer(dir: RunDirectory, c: Codec, body: Body, ending: Ending, ghost bodies: seq<Body>, ghost fates: seq<Fate>,
                ghost base: seq<seq<byte>>, ghost life: Life)
    returns (fate: Fate, ghost next: Life)
    requires |fates| == |bodies| && Living(dir, c, bodies, fates, base, life) && !dir.failedClosed
    requires CanonicalCodec(c) && CompactCodec(c)
    modifies dir
    ensures Living(dir, c, bodies + [body], fates + [fate], base, next)
  {
    ghost var held := if life.held.Some? then bodies[life.held.value] else body;
    ghost var v := FoundIn(dir, c, bodies, fates, base, life, body);
    ghost var t;
    fate, t := Attend(dir, c, body, ending, life.now, held, v);
    next := After(bodies, life, body, t);
    AfterOk(c, bodies, fates, base, life, body, fate, t);
  }

  /**
    Serves requests one after another, and each may end in a kill or a power loss. A journal that failed closed serves nothing
    until a new process takes over; whether the request that closed it took effect may show only later, at the next durable
    marker or the next power loss.
   */
  method Serve(dir: RunDirectory, c: Codec, bodies: seq<Body>, endings: seq<Ending>, ghost base: seq<seq<byte>>)
    returns (fates: seq<Fate>, ghost life: Life)
    requires dir.Valid() && Settled(dir.markers, dir.disk, base) && !dir.failedClosed
    requires CanonicalCodec(c) && CompactCodec(c) && IsJournal(c, base) && |endings| == |bodies|
    modifies dir
    ensures |fates| == |bodies| && Living(dir, c, bodies, fates, base, life)
    ensures forall took: bool :: Selected(bodies, fates, Resolved(bodies, life, took))
  {
    fates, life := [], Life(base, [], None);
    for i := 0 to |bodies|
      invariant |fates| == i && Living(dir, c, bodies[..i], fates, base, life)
    {
      OneMore(bodies, i);
      var fate;
      fate, life := Next(dir, c, bodies[i], endings[i], bodies[..i], fates, base, life);
      fates := fates + [fate];
    }
    assert bodies[..|bodies|] == bodies;
    forall took: bool ensures Selected(bodies, fates, Resolved(bodies, life, took)) {
      if life.held.Some? { HeldDecided(bodies, fates, life.log, life.held.value, took); }
    }
  }

  lemma OneMore(bodies: seq<Body>, i: nat)
    requires i < |bodies|
    ensures bodies[..i + 1] == bodies[..i] + [bodies[i]]
  {
  }

  /** Wherever a life has got to, a power loss leaves a journal for the log with the undecided request or without it. */
  lemma LifeThroughLoss(dir: RunDirectory, c: Codec, bodies: seq<Body>, fates: seq<Fate>, base: seq<seq<byte>>, life: Life, after: Disk)
    returns (took: bool, now: seq<seq<byte>>)
    requires |fates| == |bodies| && Living(dir, c, bodies, fates, base, life) && Crashed(dir.disk, after)
    ensures Settled(dir.markers, after, now) && StandsFor(c, base, now, Resolved(bodies, life, took))
    ensures Selected(bodies, fates, Resolved(bodies, life, took))
  {
    if life.held.Some? {
      took, now := CrashEffect(c, dir.markers, dir.disk, after, life.now, bodies[life.held.value]);
    } else {
      took, now := false, life.now;
      CrashSettled(dir.markers, dir.disk, after, now);
    }
    ResolvedOk(c, bodies, fates, base, life, took, now);
  }

  // ----- a segment left behind undecided -----

  /** A segment that follows a journal does not follow one with a record more. */
  lemma NotAfterBoth(c: Codec, base: seq<seq<byte>>, grown: seq<seq<byte>>, last: seq<byte>)
    requires CanonicalCodec(c) && IsJournal(c, base) && IsJournal(c, grown) && |grown| == |base| && IsJournal(c, base + [last])
    requires ContentsIn(c, grown).sequence == ContentsIn(c, base).sequence + 1
    ensures ScanSegments(c, grown + [last]) == None
  {
    EndsNonEmpty(c, base);
    EndsNonEmpty(c, grown);
    ScanLast(c, base, last);
    ScanLast(c, grown, last);
    assert (base + [last])[|base|] == last != [];
    var records := SegmentContents(c, last).value.1;
    var s, t := ScanSegments(c, base).value, ScanSegments(c, grown).value;
    SegmentHasRecords(c, last);
    FirstRecordFits(c, |base| + 1, records, s);
    FirstRecordRefused(c, |base| + 1, records, t);
  }

  lemma SegmentHasRecords(c: Codec, data: seq<byte>)
    requires data != [] && SegmentContents(c, data).Some?
    ensures SegmentContents(c, data).value.1 != []
  {
    ContentsReadable(c, data);
    assert RawLines(data) != [];
  }

  lemma FirstRecordFits(c: Codec, epoch: nat, records: seq<Record>, s: State)
    requires records != [] && FoldRecords(c, epoch, records, s).Some?
    ensures records[0].sequence == s.sequence + 1
  {
    if FoldRecords(c, epoch, records[..1], s) == None { FoldStops(c, epoch, records, s, 1); }
    assert records[..1][..0] == [];
  }

  lemma FirstRecordRefused(c: Codec, epoch: nat, records: seq<Record>, s: State)
    requires records != [] && records[0].sequence != s.sequence + 1
    ensures FoldRecords(c, epoch, records, s) == None
  {
    assert records[..1][..0] == [];
    FoldStops(c, epoch, records, s, 1);
  }

  /** The next record is durable in a new segment, and its marker gone; the segment before it may still come back with the line. */
  ghost predicate RotatedOver(c: Codec, d: Disk, base: seq<seq<byte>>, p: Pending, line: seq<byte>, last: seq<byte>) {
    && Proper(base, p) && p.epoch == |base| < MAX_JOURNAL_EPOCHS && |d.segments| == MAX_JOURNAL_EPOCHS
    && d.marker == Slot(None, {None}) && HalfIn(base, p, line, d.segments[p.epoch - 1])
    && forall i :: 0 <= i < |d.segments| && i != p.epoch - 1 ==> SlotReads(base + [last], i, d.segments[i])
  }

  /**
    A process that starts a new segment over an undecided one risks the journal: every power loss leaves a readable one if and
    only if the line cannot come back.
   */
  lemma LeftUndecided(c: Codec, m: MarkerCodec, d: Disk, nextInode: nat, base: seq<seq<byte>>, p: Pending, line: seq<byte>,
                      body: Body, last: seq<byte>)
    requires CanonicalCodec(c) && GrowsTo(c, base, p, line, body) && IsJournal(c, base + [last])
    requires RotatedOver(c, d, base, p, line, last) && WellFormed(d, nextInode)
    ensures (forall im {:trigger IsImage(d, im)} :: IsImage(d, im) ==> ReadBack(c, m, im).Some?)
            <==> forall v :: v in d.segments[p.epoch - 1].may ==> Data(v) == Some(Kept(base, p.epoch))
  {
    var k, kept := p.epoch - 1, Kept(base, p.epoch);
    if forall v :: v in d.segments[k].may ==> Data(v) == Some(kept) {
      forall im | IsImage(d, im) ensures ReadBack(c, m, im).Some? {
        RotatedMatches(c, d, base, p, line, last, im);
        MatchingReads(c, base + [last], im.segments);
      }
    } else {
      var w :| w in d.segments[k].may && Data(w) != Some(kept);
      var im := BrokenImage(c, m, d, nextInode, base, p, line, body, last, w);
    }
  }

  lemma RotatedMatches(c: Codec, d: Disk, base: seq<seq<byte>>, p: Pending, line: seq<byte>, last: seq<byte>, im: Image)
    requires RotatedOver(c, d, base, p, line, last) && IsImage(d, im)
    requires forall v :: v in d.segments[p.epoch - 1].may ==> Data(v) == Some(Kept(base, p.epoch))
    ensures Matches(im.segments, base + [last]) && im.marker == None && |im.segments| == MAX_JOURNAL_EPOCHS
  {
    var v := VersionOf(d.marker, im.marker);
    forall i | 0 <= i < |im.segments| ensures GoodAt(base + [last], i, im.segments[i]) {
      var w := VersionOf(d.segments[i], im.segments[i]);
      assert i != p.epoch - 1 ==> SlotReads(base + [last], i, d.segments[i]);
    }
  }

  lemma BrokenImage(c: Codec, m: MarkerCodec, d: Disk, nextInode: nat, base: seq<seq<byte>>, p: Pending, line: seq<byte>, body: Body,
                    last: seq<byte>, w: Option<Node>)
    returns (im: Image)
    requires CanonicalCodec(c) && GrowsTo(c, base, p, line, body) && IsJournal(c, base + [last])
    requires RotatedOver(c, d, base, p, line, last) && WellFormed(d, nextInode)
    requires w in d.segments[p.epoch - 1].may && Data(w) != Some(Kept(base, p.epoch))
    ensures IsImage(d, im) && ReadBack(c, m, im) == None
  {
    var grown := Grown(base, p.epoch, line);
    ImageOf(d, nextInode, p.epoch - 1, None, w);
    im := LiveImage(d, None).(segments := LiveImage(d, None).segments[p.epoch - 1 := Data(w)]);
    BrokenMatches(c, d, nextInode, base, p, line, last);
    NotAfterBoth(c, base, grown, last);
    ListsFiles(grown + [last], im.segments);
    RefusedWhole(c, grown, last, im.segments);
  }

  lemma BrokenMatches(c: Codec, d: Disk, nextInode: nat, base: seq<seq<byte>>, p: Pending, line: seq<byte>, last: seq<byte>)
    requires RotatedOver(c, d, base, p, line, last) && WellFormed(d, nextInode)
    ensures Matches(LiveImage(d, None).segments[p.epoch - 1 := Some(Kept(base, p.epoch) + line)], Grown(base, p.epoch, line) + [last])
  {
    var k, grown := p.epoch - 1, Grown(base, p.epoch, line);
    var all := LiveImage(d, None).segments[k := Some(Kept(base, p.epoch) + line)];
    forall i | 0 <= i < |all| ensures GoodAt(grown + [last], i, all[i]) {
      if i != k { assert SegmentSlot(d.segments[i], nextInode) && SlotReads(base + [last], i, d.segments[i]); }
    }
  }

  lemma RefusedWhole(c: Codec, grown: seq<seq<byte>>, last: seq<byte>, segments: seq<Option<seq<byte>>>)
    requires Matches(segments, grown + [last]) && |segments| == MAX_JOURNAL_EPOCHS
    requires Listing(DirectoryOf(segments)) == Some(FilesIn(grown + [last], segments))
    requires ScanSegments(c, grown + [last]) == None
    ensures Scan(c, DirectoryOf(segments)) == None
  {
    var files := FilesIn(grown + [last], segments);
    if files != grown + [last] { assert (grown + [last] + [[]])[..|grown| + 1] == grown + [last]; }
  }
}
