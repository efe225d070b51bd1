/**
  The activity store: one sequence for all runs, a log and an anchor a run, and a small cache that may be dropped at any
  time. A failing call may leave its disk operation undone, done in part, or done.
 */
module ActivityStore {
  import opened Results
  import opened ActivityLog

  const CACHED_RUNS: nat := 4

  /** What is on disk: the sequence, the runs ever initialized, their logs and their anchors. */
  datatype Disk = Disk(sequence: nat, known: map<string, Header>, files: map<string, LogFile>, anchors: map<string, Anchor>)

  /** A log in memory; `quiet` is the part of the provider proof that is never written, `failed` latches a failed write. */
  datatype Cached = Cached(log: Log, quiet: bool, failed: bool)

  datatype Failure = Unavailable | Integrity | Exhausted

  // ----- what a sound disk holds -----

  function AnchorFor(log: Log): Anchor {
    Anchor(log.header.generation, log.bytes, log.tail, log.last)
  }

  /** Run's log reads, up to the sequence, and its anchor is one of its boundaries. */
  predicate Sound(f: Format, d: Disk, run: string, next: nat) {
    && run in d.files && run in d.anchors
    && var file, a := d.files[run], d.anchors[run];
       && file.torn == 0 && file.header.run == run
       && a.generation == file.header.generation && a.bytes <= SizeOf(f, file.header, file.lines)
       && (f.headerSize(file.header) <= MAX_LINE ==> SizeOf(f, file.header, file.lines) <= MAX_BYTES)
       && Anchored(f, file.header, file.lines, a)
       && ReadLines(f, file.header, file.lines, next).Some?
  }

  function LogOf(f: Format, d: Disk, run: string, next: nat): Log
    requires Sound(f, d, run, next)
  {
    ReadLines(f, d.files[run].header, d.files[run].lines, next).value
  }

  /** A reader's buffer holds every line of the run's log. */
  predicate Reloads(f: Format, d: Disk, run: string) {
    run in d.files && LinesFit(f, d.files[run].header, d.files[run].lines)
  }

  /** What loading the run from disk gives. */
  function Cold(f: Format, d: Disk, run: string, registration: string, next: nat): Option<Log> {
    if run !in d.known || d.known[run].registration != registration || run !in d.files || run !in d.anchors then None
    else ColdLoad(f, run, registration, d.files[run], d.anchors[run], next)
  }

  /** The run's files are the initialized run's; its log is sound, or its line is torn, or its initialization was cut off. */
  predicate RunOk(f: Format, d: Disk, run: string, next: nat) {
    && run in d.known && d.known[run].run == run
    && (run in d.files ==> d.files[run].header == d.known[run])
    && (run in d.anchors ==> d.anchors[run].ordinal <= next)
    && (run in d.files && run in d.anchors && d.files[run].torn == 0 ==> Sound(f, d, run, next))
  }

  ghost predicate DiskOk(f: Format, d: Disk, next: nat) {
    forall run :: run in d.known || run in d.files || run in d.anchors ==> RunOk(f, d, run, next)
  }

  /** A usable cached log is the one on disk, and the anchor is at its end. */
  predicate CachedOk(f: Format, d: Disk, run: string, c: Cached, next: nat) {
    !c.failed ==> Sound(f, d, run, next) && c.log == LogOf(f, d, run, next) && d.anchors[run] == AnchorFor(c.log)
  }

  lemma {:induction false} ReadLater(f: Format, h: Header, lines: seq<Line>, next: nat, later: nat)
    requires next <= later && ReadLines(f, h, lines, next).Some?
    ensures ReadLines(f, h, lines, later) == ReadLines(f, h, lines, next)
  {
    if lines != [] { ReadLater(f, h, lines[..|lines| - 1], next, later); }
  }

  lemma DiskLater(f: Format, d: Disk, next: nat, later: nat)
    requires DiskOk(f, d, next) && next <= later
    ensures DiskOk(f, d, later)
  {
    forall run | run in d.known || run in d.files || run in d.anchors ensures RunOk(f, d, run, later) {
      assert RunOk(f, d, run, next);
      if run in d.files && ReadLines(f, d.files[run].header, d.files[run].lines, next).Some? {
        ReadLater(f, d.files[run].header, d.files[run].lines, next, later);
      }
    }
  }

  lemma CachedLater(f: Format, d: Disk, run: string, c: Cached, next: nat, later: nat)
    requires CachedOk(f, d, run, c, next) && next <= later
    ensures CachedOk(f, d, run, c, later)
  {
    if !c.failed { ReadLater(f, d.files[run].header, d.files[run].lines, next, later); }
  }

  // ----- one more record -----

  function Extended(file: LogFile, log: Log, r: Record): LogFile {
    file.(lines := file.lines + [Line(r, Link(log.tail, r))])
  }

  lemma OneMoreLine(f: Format, h: Header, lines: seq<Line>, log: Log, r: Record, next: nat)
    requires ReadLines(f, h, lines, next) == Some(log)
    ensures ReadLines(f, h, lines + [Line(r, Link(log.tail, r))], next)
            == if Takes(f, log, r, next) then Some(WithRecord(f, log, r)) else None
    ensures SizeOf(f, h, lines + [Line(r, Link(log.tail, r))]) == SizeOf(f, h, lines) + f.lineSize(r)
    ensures LastOrdinal(lines + [Line(r, Link(log.tail, r))]) == if r.EventRecord? then r.event.ordinal else LastOrdinal(lines)
  {
    assert (lines + [Line(r, Link(log.tail, r))])[..|lines|] == lines;
  }

  /** The anchor before the record, and the one after, are both boundaries of the longer log. */
  lemma AnchorsHold(f: Format, h: Header, lines: seq<Line>, log: Log, r: Record, a: Anchor, next: nat)
    requires ReadLines(f, h, lines, next) == Some(log) && f.lineSize(r) > 0 && Takes(f, log, r, next)
    requires Anchored(f, h, lines, a) && a.bytes <= SizeOf(f, h, lines)
    ensures var more := lines + [Line(r, Link(log.tail, r))];
            Anchored(f, h, more, a) && Anchored(f, h, more, AnchorFor(WithRecord(f, log, r)))
  {
    var more := lines + [Line(r, Link(log.tail, r))];
    assert more[..|more| - 1] == lines;
    OneMoreLine(f, h, lines, log, r, next);
    ReadFacts(f, h, lines, next);
    ReadFacts(f, h, more, next);
  }

  /** An anchor as long as the log is the log's own. */
  lemma WholeAnchor(f: Format, h: Header, lines: seq<Line>, a: Anchor, next: nat)
    requires ReadLines(f, h, lines, next).Some? && Anchored(f, h, lines, a) && a.generation == h.generation
    requires SizeOf(f, h, lines) <= a.bytes && Compact(f)
    ensures a == AnchorFor(ReadLines(f, h, lines, next).value)
  {
    ReadFacts(f, h, lines, next);
    if SizeOf(f, h, lines) < a.bytes { NotBeyond(f, h, lines, a); }
  }

  lemma {:induction false} NotBeyond(f: Format, h: Header, lines: seq<Line>, a: Anchor)
    requires SizeOf(f, h, lines) < a.bytes && Compact(f)
    ensures !Anchored(f, h, lines, a)
  {
    if lines != [] { NotBeyond(f, h, lines[..|lines| - 1], a); }
  }

  /** After a whole-record write the log is the old one and the record, whichever anchor is committed. */
  lemma WriteKeepsSound(f: Format, d: Disk, run: string, next: nat, r: Record, anchor: Anchor)
    requires Sound(f, d, run, next) && d.anchors[run] == AnchorFor(LogOf(f, d, run, next))
    requires f.lineSize(r) > 0 && Takes(f, LogOf(f, d, run, next), r, next)
    requires LogOf(f, d, run, next).bytes + f.lineSize(r) <= MAX_BYTES
    requires anchor == d.anchors[run] || anchor == AnchorFor(WithRecord(f, LogOf(f, d, run, next), r))
    ensures var log := LogOf(f, d, run, next);
            var e := d.(files := d.files[run := Extended(d.files[run], log, r)], anchors := d.anchors[run := anchor]);
            Sound(f, e, run, next) && LogOf(f, e, run, next) == WithRecord(f, log, r)
  {
    var log, file := LogOf(f, d, run, next), d.files[run];
    OneMoreLine(f, file.header, file.lines, log, r, next);
    ReadFacts(f, file.header, file.lines, next);
    AnchorsHold(f, file.header, file.lines, log, r, d.anchors[run], next);
  }

  /** A cold load accepts the longer log if and only if its new line fits the reader's buffer, which the writer never checks. */
  lemma ReloadsIffLineFits(f: Format, d: Disk, run: string, next: nat, r: Record)
    requires Sound(f, d, run, next) && d.anchors[run] == AnchorFor(LogOf(f, d, run, next)) && f.lineSize(r) > 0
    requires LogOf(f, d, run, next).bytes + f.lineSize(r) <= MAX_BYTES
    requires Reloads(f, d, run) && Takes(f, LogOf(f, d, run, next), r, next)
    ensures var log, h := LogOf(f, d, run, next), d.files[run].header;
            ColdLoad(f, run, h.registration, Extended(d.files[run], log, r), AnchorFor(WithRecord(f, log, r)), next).Some?
            <==> f.lineSize(r) <= MAX_LINE
  {
    var log, file := LogOf(f, d, run, next), d.files[run];
    OneMoreLine(f, file.header, file.lines, log, r, next);
    ReadFacts(f, file.header, file.lines, next);
    AnchorsHold(f, file.header, file.lines, log, r, d.anchors[run], next);
    var more := Extended(file, log, r).lines;
    assert more[|file.lines|].record == r;
    forall i | 0 <= i < |file.lines| ensures more[i] == file.lines[i] {
    }
  }

  /** What a character takes in JSON: six bytes for an angle bracket, an ampersand or a control character. */
  function Width(c: char): nat {
    if c < ' ' || c in "<>&" then 6 else if c in "\"\\" then 2 else 1
  }

  function Spelled(s: string): nat {
    if s == "" then 0 else Width(s[0]) + Spelled(s[1..])
  }

  lemma {:induction false} SpelledBounded(s: string)
    ensures Spelled(s) <= 6 * |s|
  {
    if s != "" { SpelledBounded(s[1..]); }
  }

  lemma {:induction false} SpelledBrackets(n: nat)
    ensures Spelled(seq(n, _ => '<')) == 6 * n
  {
    if n > 0 {
      SpelledBrackets(n - 1);
      assert seq(n, _ => '<')[1..] == seq(n - 1, _ => '<');
    }
  }

  /** The shortest lines JSON makes: names, punctuation and checksum, two times of twenty characters and an ordinal of one digit. */
  function JsonLine(r: Record): nat {
    match r
    case EventRecord(Event(b, _)) =>
      463 + Spelled(b.run) + Spelled(b.activity) + Spelled(b.kind) + Spelled(b.session) + Spelled(b.source)
      + Spelled(b.sourceDigest) + Spelled(b.rest)
    case ProofRecord(p) => 200 + Spelled(p.session) + Spelled(p.generation) + Spelled(p.file) + Spelled(p.prefix)
  }

  /** The validation of an event, as far as lengths go: both digests are of 64 characters. */
  function Json(): Format {
    Format((h: Header) => 100 + Spelled(h.run) + Spelled(h.generation) + Spelled(h.registration), JsonLine,
           (b: Body) => |b.activity| == DIGEST_LENGTH && |b.sourceDigest| == DIGEST_LENGTH)
  }

  lemma JsonIsCompact()
    ensures Compact(Json())
  {
    forall s: string ensures Spelled(s) <= 6 * |s| { SpelledBounded(s); }
  }

  /** A valid event with source ids of 512 angle brackets each, and a title of 256 and a detail of 4096 of them. */
  function Longest(run: string, activity: string, sourceDigest: string): Body {
    var id := seq(MAX_SOURCE_ID, _ => '<');
    Body(run, activity, "", id, id, sourceDigest, seq(256 + 4096, _ => '<'))
  }

  lemma LongestLine(run: string, activity: string, sourceDigest: string)
    requires |activity| == DIGEST_LENGTH && |sourceDigest| == DIGEST_LENGTH
    ensures JsonLine(EventRecord(Event(Longest(run, activity, sourceDigest), 1))) > MAX_LINE
  {
    SpelledBrackets(MAX_SOURCE_ID);
    SpelledBrackets(256 + 4096);
    SpelledLong(activity);
    SpelledLong(sourceDigest);
  }

  lemma {:induction false} SpelledLong(s: string)
    ensures Spelled(s) >= |s|
  {
    if s != "" { SpelledLong(s[1..]); }
  }

  /** A new run's log, and what writing that event to it leaves: the store accepts the event, and cannot load the log again. */
  lemma LongestCannotReload(h: Header, activity: string, sourceDigest: string)
    requires |h.run| <= MAX_RUN && |h.generation| == |h.registration| == |activity| == |sourceDigest| == DIGEST_LENGTH
    ensures Compact(Json()) && ValidBody(Json(), Longest(h.run, activity, sourceDigest))
    ensures var f, d, r := Json(), NewRun(h), EventRecord(Event(Longest(h.run, activity, sourceDigest), 1));
            && Sound(f, d, h.run, 1) && Reloads(f, d, h.run) && Takes(f, LogOf(f, d, h.run, 1), r, 1)
            && ColdLoad(f, h.run, h.registration, Extended(d.files[h.run], LogOf(f, d, h.run, 1), r),
                        AnchorFor(WithRecord(f, LogOf(f, d, h.run, 1), r)), 1) == None
  {
    var f, d, r := Json(), NewRun(h), EventRecord(Event(Longest(h.run, activity, sourceDigest), 1));
    JsonIsCompact();
    HeaderFits(f, h);
    LongestLine(h.run, activity, sourceDigest);
    ReloadsIffLineFits(f, d, h.run, 1, r);
  }

  function NewRun(h: Header): Disk {
    Created(Json(), Disk(1, map[], map[], map[]), h.run, h, 3)
  }

  /**
    A line was written but its sync failed, the log was dropped from memory or the process replaced, and loading the log
    committed an anchor that covers the line. Of the two logs a power loss may then leave, the one with the line loads and
    the one without it does not.
   */
  lemma AnchoredTooEarly(f: Format, d: Disk, run: string, next: nat, r: Record, back: LogFile)
    requires Sound(f, d, run, next) && d.anchors[run] == AnchorFor(LogOf(f, d, run, next)) && Compact(f)
    requires Takes(f, LogOf(f, d, run, next), r, next) && LogOf(f, d, run, next).bytes + f.lineSize(r) <= MAX_BYTES
    requires back == d.files[run] || back == Extended(d.files[run], LogOf(f, d, run, next), r)
    requires Reloads(f, d, run) && f.lineSize(r) <= MAX_LINE
    ensures var log, h := LogOf(f, d, run, next), d.files[run].header;
            ColdLoad(f, run, h.registration, back, AnchorFor(WithRecord(f, log, r)), next).Some?
            <==> back == Extended(d.files[run], log, r)
  {
    var log, file := LogOf(f, d, run, next), d.files[run];
    ReloadsIffLineFits(f, d, run, next, r);
    ReadFacts(f, file.header, file.lines, next);
    assert |Extended(file, log, r).lines| == |file.lines| + 1;
  }

  lemma CachedHeader(f: Format, d: Disk, run: string, c: Cached, next: nat)
    requires DiskOk(f, d, next) && CachedOk(f, d, run, c, next) && !c.failed
    ensures run in d.known && c.log.header == d.known[run]
  {
    assert RunOk(f, d, run, next);
    ReadFacts(f, d.files[run].header, d.files[run].lines, next);
  }

  lemma CachedIndexed(f: Format, d: Disk, run: string, c: Cached, next: nat)
    requires DiskOk(f, d, next) && CachedOk(f, d, run, c, next) && !c.failed
    ensures Indexed(c.log) && c.log.last <= next && c.log.header.run == run
  {
    CachedHeader(f, d, run, c, next);
    assert RunOk(f, d, run, next);
    ReadIndexed(f, d.files[run].header, d.files[run].lines, next);
    ReadFacts(f, d.files[run].header, d.files[run].lines, next);
  }

  lemma SoundLoads(f: Format, d: Disk, run: string, registration: string, next: nat)
    requires DiskOk(f, d, next) && Sound(f, d, run, next) && d.files[run].header.registration == registration
    ensures Cold(f, d, run, registration, next) == if Reloads(f, d, run) then Some(LogOf(f, d, run, next)) else None
  {
    assert RunOk(f, d, run, next);
  }

  // ----- ordinals -----

  ghost predicate Increasing(used: seq<nat>) {
    forall i, j :: 0 <= i < j < |used| ==> used[i] < used[j]
  }

  ghost predicate AllUpTo(used: seq<nat>, next: nat) {
    forall i :: 0 <= i < |used| ==> used[i] <= next
  }

  lemma UsedOneMore(used: seq<nat>, next: nat)
    requires Increasing(used) && AllUpTo(used, next)
    ensures Increasing(used + [next + 1]) && AllUpTo(used + [next + 1], next + 1)
  {
  }

  /** The runs other than `run` are as they were. */
  ghost predicate OnlyRun(before: Disk, after: Disk, run: string) {
    Elsewhere(before.known, after.known, run) && Elsewhere(before.files, after.files, run)
    && Elsewhere(before.anchors, after.anchors, run)
  }

  ghost predicate Elsewhere<T(!new)>(before: map<string, T>, after: map<string, T>, run: string) {
    forall k: string :: k != run ==> (k in after <==> k in before) && (k in before ==> after[k] == before[k])
  }

  lemma OnlyRunKeeps(f: Format, before: Disk, after: Disk, run: string, next: nat)
    requires DiskOk(f, before, next) && OnlyRun(before, after, run)
    requires run in after.known || run in after.files || run in after.anchors ==> RunOk(f, after, run, next)
    ensures DiskOk(f, after, next)
  {
    forall r | r in after.known || r in after.files || r in after.anchors ensures RunOk(f, after, r, next) {
      if r != run { assert RunOk(f, before, r, next); }
    }
  }

  /** A new run's files after so many steps of its initialization: the registry, then the log, then its anchor. */
  function Created(f: Format, d: Disk, run: string, h: Header, steps: int): Disk {
    d.(known := if steps > 0 then d.known[run := h] else d.known,
       files := if steps > 1 then d.files[run := LogFile(h, [], 0)] else d.files,
       anchors := if steps > 2 then d.anchors[run := Anchor(h.generation, f.headerSize(h), OfHeader(h), 0)] else d.anchors)
  }

  lemma CreatedOk(f: Format, d: Disk, run: string, h: Header, steps: int, next: nat)
    requires run !in d.known && run !in d.files && run !in d.anchors && h.run == run
    ensures var made := Created(f, d, run, h, steps);
            OnlyRun(d, made, run) && (steps > 0 ==> RunOk(f, made, run, next))
  {
  }

  /**
    A run's files after a write that got so far: nothing; part of the line; the whole line; the line and its anchor, and an
    error all the same; or everything.
   */
  function Written(d: Disk, run: string, log: Log, longer: Log, r: Record, done: int, torn: nat): Disk
    requires run in d.files
  {
    if done <= 0 then d
    else if done == 1 then d.(files := d.files[run := d.files[run].(torn := torn + 1)])
    else d.(files := d.files[run := Extended(d.files[run], log, r)],
            anchors := if done > 2 then d.anchors[run := AnchorFor(longer)] else d.anchors)
  }

  lemma WrittenOk(f: Format, d: Disk, run: string, next: nat, c: Cached, r: Record, done: int, torn: nat)
    requires DiskOk(f, d, next) && CachedOk(f, d, run, c, next) && !c.failed && Compact(f)
    requires Takes(f, c.log, r, next) && c.log.bytes + f.lineSize(r) <= MAX_BYTES
    ensures var longer := WithRecord(f, c.log, r);
            var made := Written(d, run, c.log, longer, r, done, torn);
            && OnlyRun(d, made, run) && RunOk(f, made, run, next) && run in made.files
            && (done > 3 ==> CachedOk(f, made, run, c.(log := longer), next) && made.files[run] == Extended(d.files[run], c.log, r))
  {
    assert RunOk(f, d, run, next);
    var longer := WithRecord(f, c.log, r);
    WriteKeepsSound(f, d, run, next, r, if done > 2 then AnchorFor(longer) else d.anchors[run]);
    assert d.anchors[run := d.anchors[run]] == d.anchors;
  }

  lemma WrittenKeeps(f: Format, d: Disk, run: string, next: nat, cache: map<string, Cached>, r: Record, done: int, torn: nat)
    requires DiskOk(f, d, next) && Compact(f) && run in d.files && run in cache && !cache[run].failed
    requires forall k :: k in cache ==> CachedOk(f, d, k, cache[k], next)
    requires Takes(f, cache[run].log, r, next) && cache[run].log.bytes + f.lineSize(r) <= MAX_BYTES
    ensures var c := cache[run];
            var longer := WithRecord(f, c.log, r);
            var made := Written(d, run, c.log, longer, r, done, torn);
            && OnlyRun(d, made, run) && DiskOk(f, made, next) && run in made.files
            && (forall k :: k in cache && k != run ==> CachedOk(f, made, k, cache[k], next))
            && (done > 3 ==> CachedOk(f, made, run, c.(log := longer), next) && made.files[run] == Extended(d.files[run], c.log, r))
  {
    var c := cache[run];
    WrittenOk(f, d, run, next, c, r, done, torn);
    var made := Written(d, run, c.log, WithRecord(f, c.log, r), r, done, torn);
    OnlyRunKeeps(f, d, made, run, next);
    CachedStays(f, d, made, run, cache, next);
  }

  /** Changing one run's files leaves every other cached log usable. */
  lemma CachedStays(f: Format, before: Disk, after: Disk, run: string, cache: map<string, Cached>, next: nat)
    requires OnlyRun(before, after, run) && forall r :: r in cache ==> CachedOk(f, before, r, cache[r], next)
    ensures forall r :: r in cache && r != run ==> CachedOk(f, after, r, cache[r], next)
  {
    forall r | r in cache && r != run ensures CachedOk(f, after, r, cache[r], next) {
      assert CachedOk(f, before, r, cache[r], next);
    }
  }

  /** The activity store of one service. `issued` is every ordinal ever given to an event, in any run, oldest first. */
  class Store {
    const format: Format
    var disk: Disk
    var next: nat
    var cache: map<string, Cached>
    ghost var issued: seq<nat>

    ghost predicate Valid()
      reads this
    {
      && Compact(format)
      && (disk.sequence == next || disk.sequence == next + 1)
      && DiskOk(format, disk, next)
      && (forall run :: run in cache ==> CachedOk(format, disk, run, cache[run], next))
      && Increasing(issued) && AllUpTo(issued, next)
    }

    /** A store in a new directory. */
    constructor (format: Format)
      requires Compact(format)
      ensures Valid() && this.format == format && cache == map[] && issued == [] && disk.known == map[]
    {
      this.format := format;
      disk, next, cache, issued := Disk(0, map[], map[], map[]), 0, map[], [];
    }

    /** Opens the store anew, after a crash or a close: what was in memory is gone. No anchor is ever ahead of the sequence. */
    method Reopen() returns (ok: bool)
      requires Valid()
      modifies this`next, this`cache
      ensures Valid() && cache == map[] && next == disk.sequence && ok
    {
      DiskLater(format, disk, next, disk.sequence);
      next, cache := disk.sequence, map[];
      assert forall run :: run in disk.anchors ==> RunOk(format, disk, run, next);
      ok := forall run :: run in disk.anchors ==> disk.anchors[run].ordinal <= next;
    }

    /** Drops a run's log from memory. */
    method Evict(run: string)
      requires Valid()
      modifies this`cache
      ensures Valid() && cache == old(cache) - {run}
    {
      cache := cache - {run};
    }

    /** Allocates the next ordinal, durably before it is used. Once the file and the memory disagree it always fails. */
    method SaveSequence() returns (ok: bool)
      requires Valid()
      modifies this`disk, this`next, this`issued
      ensures Valid() && next == (if ok then old(next) + 1 else old(next))
      ensures issued == (if ok then old(issued) + [next] else old(issued))
      ensures disk == old(disk).(sequence := disk.sequence) && disk.sequence >= old(disk).sequence
    {
      ok := *;
      var renamed: bool := *;
      ok := ok && disk.sequence == next;
      if ok {
        DiskLater(format, disk, next, next + 1);
        forall run | run in cache ensures CachedOk(format, disk, run, cache[run], next + 1) {
          CachedLater(format, disk, run, cache[run], next, next + 1);
        }
        UsedOneMore(issued, next);
        disk, next := disk.(sequence := next + 1), next + 1;
        issued := issued + [next];
      } else if renamed {
        disk := disk.(sequence := next + 1);
      }
    }

    /** Makes the log of a run never seen before; a failure on the way leaves the run initialized and unusable. */
    method Create(run: string, h: Header) returns (ok: bool)
      requires Valid() && run !in disk.known && run !in disk.files && run !in disk.anchors && run !in cache
      requires h.run == run
      modifies this`disk
      ensures Valid() && OnlyRun(old(disk), disk, run) && disk.sequence == old(disk).sequence
      ensures ok ==> run in disk.files && run in disk.anchors && run in disk.known && disk.known[run] == h
    {
      var steps: int := *;
      var made := Created(format, disk, run, h, steps);
      CreatedOk(format, disk, run, h, steps, next);
      OnlyRunKeeps(format, disk, made, run, next);
      CachedStays(format, disk, made, run, cache, next);
      disk := made;
      ok := steps > 3;
    }

    /** Brings the anchor up to the end of the log. */
    method SaveAnchor(run: string, log: Log) returns (ok: bool)
      requires Valid() && run !in cache && Sound(format, disk, run, next) && log == LogOf(format, disk, run, next)
      modifies this`disk
      ensures Valid() && OnlyRun(old(disk), disk, run) && disk.sequence == old(disk).sequence && disk.files == old(disk).files
      ensures disk.known == old(disk).known && Sound(format, disk, run, next) && LogOf(format, disk, run, next) == log
      ensures ok ==> disk.anchors[run] == AnchorFor(log)
    {
      ok := *;
      var renamed: bool := *;
      if ok || renamed {
        var made := disk.(anchors := disk.anchors[run := AnchorFor(log)]);
        ReadFacts(format, disk.files[run].header, disk.files[run].lines, next);
        assert RunOk(format, disk, run, next);
        OnlyRunKeeps(format, disk, made, run, next);
        CachedStays(format, disk, made, run, cache, next);
        disk := made;
      }
    }

    /** Reads the run's log from disk. */
    method ReadCold(run: string, registration: string) returns (r: Option<Log>)
      requires Valid() && run in disk.known && disk.known[run].registration == registration
      ensures r == Cold(format, disk, run, registration, next)
      ensures r.Some? ==> Sound(format, disk, run, next) && r.value == LogOf(format, disk, run, next)
      ensures r.Some? ==> r.value.header == disk.known[run] && r.value.bytes == SizeOf(format, r.value.header, disk.files[run].lines)
    {
      assert RunOk(format, disk, run, next);
      if run !in disk.files || run !in disk.anchors { return None; }
      r := ReadLog(format, run, registration, disk.files[run], disk.anchors[run], next);
      if r.Some? { ReadFacts(format, disk.files[run].header, disk.files[run].lines, next); }
    }

    /** Keeps a log in memory, dropping another one when too many are kept. */
    method Remember(run: string, log: Log)
      requires Valid() && run !in cache && CachedOk(format, disk, run, Cached(log, false, false), next)
      modifies this`cache
      ensures Valid() && run in cache && cache[run] == Cached(log, false, false)
      ensures forall k :: k in cache && k != run ==> k in old(cache) && cache[k] == old(cache)[k]
    {
      if |cache| >= CACHED_RUNS {
        var key :| key in cache;
        cache := cache - {key};
      }
      cache := cache[run := Cached(log, false, false)];
    }

    /** Reads the run's log from disk into memory, and brings its anchor up to its end. */
    method LoadCold(run: string, registration: string) returns (r: Result<Log, Failure>)
      requires Valid() && run !in cache && run in disk.known && disk.known[run].registration == registration
      modifies this`disk, this`cache
      ensures Valid() && OnlyRun(old(disk), disk, run) && disk.files == old(disk).files && disk.sequence == old(disk).sequence
      ensures r.Ok? ==> Cold(format, old(disk), run, registration, next) == Some(r.value) && r.value.header == old(disk).known[run]
      ensures r.Ok? ==> run in cache && cache[run] == Cached(r.value, false, false)
      ensures r.Err? ==> cache == old(cache)
      ensures forall k :: k in cache && k != run ==> k in old(cache) && cache[k] == old(cache)[k]
    {
      var loaded := ReadCold(run, registration);
      if loaded == None { return Err(Integrity); }
      var log := loaded.value;
      if log.bytes > disk.anchors[run].bytes {
        var ok := SaveAnchor(run, log);
        if !ok { return Err(Integrity); }
      } else {
        WholeAnchor(format, disk.files[run].header, disk.files[run].lines, disk.anchors[run], next);
      }
      Remember(run, log);
      r := Ok(log);
    }

    /** The log is the one that a cold load finds; where it cannot be loaded again it is the one in memory. */
    predicate Found(d: Disk, had: map<string, Cached>, run: string, registration: string, at: nat, log: Log) {
      if Reloads(format, d, run) then Cold(format, d, run, registration, at) == Some(log)
      else Cold(format, d, run, registration, at) == None && run in had && !had[run].failed && had[run].log == log
    }

    /** The run's log, from memory or from disk, made new for a run never seen before. */
    method Load(run: string, registration: string, generation: string) returns (r: Result<Log, Failure>)
      requires Valid()
      modifies this`disk, this`cache
      ensures Valid() && OnlyRun(old(disk), disk, run) && disk.sequence == old(disk).sequence
      ensures run in old(disk).files ==> disk.files == old(disk).files
      ensures run in old(cache) ==> disk == old(disk) && cache == old(cache)
      ensures r.Ok? ==> run in cache && !cache[run].failed && cache[run].log == r.value && r.value.header.registration == registration
      ensures r.Ok? && run in old(disk).known ==> Found(old(disk), old(cache), run, registration, next, r.value)
      ensures forall k :: k in cache && k != run ==> k in old(cache) && cache[k] == old(cache)[k]
    {
      if |run| > MAX_RUN { return Err(Unavailable); }
      if run in disk.known && disk.known[run].registration != registration { return Err(Integrity); }
      if run in cache {
        if cache[run].failed { return Err(Integrity); }
        CachedHeader(format, disk, run, cache[run], next);
        SoundLoads(format, disk, run, registration, next);
        return Ok(cache[run].log);
      }
      if run !in disk.known {
        assert run in disk.files || run in disk.anchors ==> RunOk(format, disk, run, next);
        var ok := Create(run, Header(run, generation, registration));
        if !ok { return Err(Integrity); }
      }
      r := LoadCold(run, registration);
    }

    /** Appends one record to the run's log, then its anchor. After a failure the log in memory is not used again. */
    method Write(run: string, r: Record) returns (result: Result<(), Failure>)
      requires Valid() && run in cache && !cache[run].failed && Takes(format, cache[run].log, r, next)
      modifies this`disk, this`cache
      ensures Valid() && OnlyRun(old(disk), disk, run) && disk.sequence == old(disk).sequence
      ensures result.Ok? ==> run in disk.files && disk.files[run] == Extended(old(disk).files[run], old(cache)[run].log, r)
      ensures result.Ok? ==> cache == old(cache)[run := old(cache)[run].(log := WithRecord(format, old(cache)[run].log, r))]
      ensures result.Err? ==> cache == old(cache)[run := old(cache)[run].(failed := true)]
    {
      var c := cache[run];
      var log := WithRecord(format, c.log, r);
      assert CachedOk(format, disk, run, c, next);
      var done: int := *;
      var torn: nat := *;
      if c.log.bytes + format.lineSize(r) > MAX_BYTES {
        result := Err(Exhausted);
      } else {
        WrittenKeeps(format, disk, run, next, cache, r, done, torn);
        disk := Written(disk, run, c.log, log, r, done, torn);
        result := if done > 3 then Ok(()) else Err(Integrity);
      }
      cache := cache[run := if result.Ok? then c.(log := log) else c.(failed := true)];
    }

    /** Latches a failure: the log in memory is not used again. */
    method Latch(run: string)
      requires Valid() && run in cache
      modifies this`cache
      ensures Valid()
    {
      cache := cache[run := cache[run].(failed := true)];
    }

    /** Appends an event no record carries yet, with a fresh ordinal. */
    method AppendNew(run: string, body: Body) returns (r: Result<Event, Failure>)
      requires Valid() && run in cache && !cache[run].failed
      requires body.run == run && ValidBody(format, body) && SourceAgrees(cache[run].log, body) && body.activity !in cache[run].log.identities
      modifies this
      ensures Valid() && OnlyRun(old(disk), disk, run)
      ensures r.Ok? ==> r.value == Event(body, next) && issued == old(issued) + [next]
      ensures r.Ok? ==> run in cache && !cache[run].failed && cache[run].log == WithEvent(format, old(cache)[run].log, r.value)
    {
      CachedIndexed(format, disk, run, cache[run], next);
      if |cache[run].log.events| >= MAX_EVENTS || next >= MAX_ORDINAL {
        Latch(run);
        return Err(Exhausted);
      }
      var ok := SaveSequence();
      if !ok {
        Latch(run);
        return Err(Integrity);
      }
      var e := Event(body, next);
      assert Takes(format, cache[run].log, EventRecord(e), next);
      var written := Write(run, EventRecord(e));
      r := if written.Ok? then Ok(e) else Err(written.error);
    }

    /** Appends an event with a fresh ordinal, or answers with the event already there under its identity. */
    method Append(run: string, registration: string, generation: string, body: Body) returns (r: Result<Event, Failure>, ghost log: Option<Log>)
      requires Valid()
      modifies this
      ensures Valid() && OnlyRun(old(disk), disk, run)
      ensures log.Some? && run in old(disk).known ==> Found(old(disk), old(cache), run, registration, old(next), log.value)
      ensures r.Ok? ==> log.Some? && run in cache && !cache[run].failed
      ensures r.Ok? && body.activity in log.value.identities ==>
                cache[run].log == log.value && issued == old(issued) && r.value in log.value.events && r.value.body.activity == body.activity
      ensures r.Ok? && body.activity !in log.value.identities ==>
                r.value == Event(body, next) && cache[run].log == WithEvent(format, log.value, r.value) && issued == old(issued) + [next]
    {
      log := None;
      var loaded := Load(run, registration, generation);
      if loaded.Err? { return Err(loaded.error), log; }
      var found := loaded.value;
      log := Some(found);
      if body.run != run || !ValidBody(format, body) || !SourceAgrees(found, body) { return Err(Integrity), log; }
      if body.activity in found.identities {
        CachedIndexed(format, disk, run, cache[run], next);
        r := Ok(found.events[found.identities[body.activity]]);
      } else {
        r := AppendNew(run, body);
      }
    }

    /** Records how far the provider's file was read. */
    method WriteProof(run: string, p: Proof, quiet: bool) returns (r: Result<(), Failure>)
      requires Valid() && run in cache && !cache[run].failed
      modifies this
      ensures Valid() && OnlyRun(old(disk), disk, run) && issued == old(issued)
      ensures r.Ok? ==> run in cache && cache[run] == Cached(WithProof(format, old(cache)[run].log, p), quiet, false)
    {
      r := Write(run, ProofRecord(p));
      if r.Ok? {
        assert CachedOk(format, disk, run, cache[run], next);
        cache := cache[run := cache[run].(quiet := quiet)];
      }
    }

    /** Records how far the provider's file was read, unless that is known already; the file may only have grown. */
    method SaveProof(run: string, registration: string, generation: string, p: Proof, quiet: bool) returns (r: Result<(), Failure>)
      requires Valid()
      modifies this
      ensures Valid() && OnlyRun(old(disk), disk, run) && issued == old(issued)
      ensures r.Ok? ==> run in cache && !cache[run].failed && cache[run].log.provider == Some(p) && cache[run].quiet == quiet
    {
      var loaded := Load(run, registration, generation);
      if loaded.Err? { return Err(loaded.error); }
      var had := loaded.value.provider;
      if had == Some(p) && cache[run].quiet == quiet { return Ok(()); }
      if had.Some? && (had.value.session != p.session || had.value.generation != p.generation || had.value.file != p.file
                       || had.value.size > p.size) { return Err(Integrity); }
      r := WriteProof(run, p, quiet);
    }

    /** What a caller is answered from: the log in memory, or the log read afresh. */
    ghost function Answer(run: string, registration: string): Option<Log>
      reads this
    {
      if run in cache then
        if cache[run].failed || cache[run].log.header.registration != registration then None else Some(cache[run].log)
      else Cold(format, disk, run, registration, next)
    }

    /** Dropping a log from memory changes no answer, except that a failed write is forgotten, and a line too long is met. */
    lemma EvictionChangesNothing(run: string, registration: string)
      requires Valid() && run in cache
      ensures Answer(run, registration) == Cold(format, disk, run, registration, next)
              <==> if cache[run].failed then Cold(format, disk, run, registration, next) == None
                   else cache[run].log.header.registration == registration ==> Reloads(format, disk, run)
    {
      if !cache[run].failed {
        CachedHeader(format, disk, run, cache[run], next);
        if cache[run].log.header.registration == registration {
          SoundLoads(format, disk, run, registration, next);
        }
      }
    }
  }
}
