/**
  One run's activity log: a header and checksum-chained records, a separately committed anchor, and the reader that
  rebuilds the log from the file.
 */
module ActivityLog {
  import opened Results

  const MAX_EVENTS: nat := 100000
  const MAX_BYTES: nat := 67108864
  const MAX_LINE: nat := 32768
  const MAX_ORDINAL: nat := 9007199254740991
  const MAX_RUN: nat := 256
  const MAX_SOURCE_ID: nat := 512
  const DIGEST_LENGTH: nat := 64

  /** A digest under the name of its kind. */
  const HASHED_ID: nat := 71

  /** A title of 256 bytes, a detail of 4096, and timestamps and words of fixed vocabularies. */
  const MAX_TEXTS: nat := 4608

  /** `rest` stands for the fields of an event that no rule of the store reads. */
  datatype Body = Body(run: string, activity: string, kind: string, session: string, source: string, sourceDigest: string,
                       rest: string)
  datatype Event = Event(body: Body, ordinal: nat)

  /** What is kept of the provider's progress file. */
  datatype Proof = Proof(session: string, generation: string, file: string, size: nat, prefix: string)

  datatype Header = Header(run: string, generation: string, registration: string)
  datatype Record = EventRecord(event: Event) | ProofRecord(proof: Proof)

  /** A digest chain: the header's digest, then each link binding the record to everything before it. */
  datatype Tail = OfHeader(header: Header) | Link(prior: Tail, record: Record)

  /** A record's line, with the checksum stored in it. */
  datatype Line = Line(record: Record, checksum: Tail)

  /** The file: whole lines, and the bytes of an unterminated one at the end. */
  datatype LogFile = LogFile(header: Header, lines: seq<Line>, torn: nat)

  datatype Anchor = Anchor(generation: string, bytes: nat, tail: Tail, ordinal: nat)

  /** How long lines come out, newline included, and what else than its lengths makes an event valid. */
  datatype Format = Format(headerSize: Header -> nat, lineSize: Record -> nat, valid: Body -> bool)

  /** The lengths the validation of an event allows. */
  predicate WithinBounds(b: Body) {
    && |b.run| <= MAX_RUN && |b.activity| <= DIGEST_LENGTH && |b.kind| <= DIGEST_LENGTH && |b.sourceDigest| <= DIGEST_LENGTH
    && |b.session| <= MAX_SOURCE_ID && |b.source| <= MAX_SOURCE_ID && |b.rest| <= MAX_TEXTS
  }

  predicate ValidBody(f: Format, b: Body) {
    WithinBounds(b) && f.valid(b)
  }

  /** The service never stores a provider's ids, only their digests. */
  predicate Hashed(b: Body) {
    |b.session| <= HASHED_ID && |b.source| <= HASHED_ID
  }

  /** A proof as the provider's reader makes it: digests and a file size. */
  predicate Measurable(p: Proof) {
    && |p.session| <= HASHED_ID && |p.generation| <= DIGEST_LENGTH && |p.file| <= DIGEST_LENGTH && |p.prefix| <= DIGEST_LENGTH
    && p.size < 0x8000_0000_0000_0000
  }

  function Characters(b: Body): nat {
    |b.run| + |b.activity| + |b.kind| + |b.session| + |b.source| + |b.sourceDigest| + |b.rest|
  }

  /** As in JSON, no character takes more than six bytes; names, numbers and the checksum are of bounded length; no line is empty. */
  ghost predicate Compact(f: Format) {
    && (forall r {:trigger f.lineSize(r)} :: f.lineSize(r) > 0)
    && (forall e: Event {:trigger f.lineSize(EventRecord(e))} ::
          e.ordinal <= MAX_ORDINAL ==> f.lineSize(EventRecord(e)) <= 1024 + 6 * Characters(e.body))
    && (forall p: Proof {:trigger f.lineSize(ProofRecord(p))} ::
          Measurable(p) ==> f.lineSize(ProofRecord(p)) <= 1024 + 6 * (|p.session| + |p.generation| + |p.file| + |p.prefix|))
    && (forall h: Header {:trigger f.headerSize(h)} :: f.headerSize(h) <= 256 + 6 * (|h.run| + |h.generation| + |h.registration|))
  }

  /** Whatever ordinal the event is given, its line fits the reader's buffer. */
  ghost predicate LineFits(f: Format, b: Body) {
    forall n: nat {:trigger Event(b, n)} :: n <= MAX_ORDINAL ==> f.lineSize(EventRecord(Event(b, n))) <= MAX_LINE
  }

  /** Every valid event that carries its source's ids as digests fits. */
  lemma ServiceEventFits(f: Format, b: Body)
    requires Compact(f) && ValidBody(f, b) && Hashed(b)
    ensures LineFits(f, b)
  {
  }

  lemma ProofFits(f: Format, p: Proof)
    requires Compact(f) && Measurable(p)
    ensures f.lineSize(ProofRecord(p)) <= MAX_LINE
  {
  }

  lemma HeaderFits(f: Format, h: Header)
    requires Compact(f) && |h.run| <= MAX_RUN && |h.generation| <= DIGEST_LENGTH && |h.registration| <= DIGEST_LENGTH
    ensures f.headerSize(h) <= MAX_LINE
  {
  }

  /** The log in memory. */
  datatype Log = Log(header: Header, events: seq<Event>, identities: map<string, nat>, sources: map<(string, string), string>,
                     provider: Option<Proof>, tail: Tail, bytes: nat, last: nat)

  function SourceKey(b: Body): Option<(string, string)> {
    if b.kind != "RALPHEX_PROGRESS" || b.session == "" || b.source == "" then None else Some((b.session, b.source))
  }

  /** A provider event must carry the digest first seen for its source. */
  predicate SourceAgrees(log: Log, b: Body) {
    SourceKey(b).Some? && SourceKey(b).value in log.sources ==> log.sources[SourceKey(b).value] == b.sourceDigest
  }

  function Opened(f: Format, h: Header): Log {
    Log(h, [], map[], map[], None, OfHeader(h), f.headerSize(h), 0)
  }

  function WithEvent(f: Format, log: Log, e: Event): Log {
    var sources := match SourceKey(e.body) case None => log.sources case Some(key) => log.sources[key := e.body.sourceDigest];
    log.(events := log.events + [e], identities := log.identities[e.body.activity := |log.events|], sources := sources,
         tail := Link(log.tail, EventRecord(e)), bytes := log.bytes + f.lineSize(EventRecord(e)), last := e.ordinal)
  }

  function WithProof(f: Format, log: Log, p: Proof): Log {
    log.(provider := Some(p), tail := Link(log.tail, ProofRecord(p)), bytes := log.bytes + f.lineSize(ProofRecord(p)))
  }

  function WithRecord(f: Format, log: Log, r: Record): Log {
    match r case EventRecord(e) => WithEvent(f, log, e) case ProofRecord(p) => WithProof(f, log, p)
  }

  /** The reader takes this record next, given the store's sequence `next`. */
  predicate Takes(f: Format, log: Log, r: Record, next: nat) {
    match r
    case ProofRecord(_) => true
    case EventRecord(e) =>
      && ValidBody(f, e.body) && e.body.run == log.header.run && log.last < e.ordinal <= next && |log.events| < MAX_EVENTS
      && e.body.activity !in log.identities && SourceAgrees(log, e.body)
  }

  function ReadLines(f: Format, h: Header, lines: seq<Line>, next: nat): Option<Log> {
    if lines == [] then Some(Opened(f, h)) else
      var line := lines[|lines| - 1];
      match ReadLines(f, h, lines[..|lines| - 1], next)
      case None => None
      case Some(log) =>
        if line.checksum != Link(log.tail, line.record) || !Takes(f, log, line.record, next) then None
        else Some(WithRecord(f, log, line.record))
  }

  function SizeOf(f: Format, h: Header, lines: seq<Line>): nat {
    if lines == [] then f.headerSize(h) else SizeOf(f, h, lines[..|lines| - 1]) + f.lineSize(lines[|lines| - 1].record)
  }

  function LastOrdinal(lines: seq<Line>): nat {
    if lines == [] then 0 else
      match lines[|lines| - 1].record
      case EventRecord(e) => e.ordinal
      case ProofRecord(_) => LastOrdinal(lines[..|lines| - 1])
  }

  /** The anchor is the state of the chain at one of the file's record boundaries. */
  predicate Anchored(f: Format, h: Header, lines: seq<Line>, a: Anchor) {
    if SizeOf(f, h, lines) == a.bytes then
      a.ordinal == LastOrdinal(lines) && a.tail == if lines == [] then OfHeader(h) else lines[|lines| - 1].checksum
    else lines != [] && Anchored(f, h, lines[..|lines| - 1], a)
  }

  /** Every line fits the reader's buffer, which no writer checks. */
  predicate LinesFit(f: Format, h: Header, lines: seq<Line>) {
    f.headerSize(h) <= MAX_LINE && forall i :: 0 <= i < |lines| ==> f.lineSize(lines[i].record) <= MAX_LINE
  }

  /** The log read afresh from the file. */
  function ColdLoad(f: Format, run: string, registration: string, file: LogFile, a: Anchor, next: nat): Option<Log> {
    var h := file.header;
    if SizeOf(f, h, file.lines) + file.torn > MAX_BYTES || a.bytes > SizeOf(f, h, file.lines) + file.torn then None
    else if !LinesFit(f, h, file.lines) || h.run != run || h.registration != registration || h.generation != a.generation then None
    else if file.torn != 0 || !Anchored(f, h, file.lines, a) then None
    else ReadLines(f, h, file.lines, next)
  }

  lemma ReadOneMore(f: Format, h: Header, lines: seq<Line>, k: nat, log: Log, next: nat)
    requires k < |lines| && ReadLines(f, h, lines[..k], next) == Some(log)
    ensures ReadLines(f, h, lines[..k + 1], next)
            == if lines[k].checksum != Link(log.tail, lines[k].record) || !Takes(f, log, lines[k].record, next) then None
               else Some(WithRecord(f, log, lines[k].record))
  {
    assert lines[..k + 1][..k] == lines[..k];
  }

  lemma AnchoredOneMore(f: Format, h: Header, lines: seq<Line>, k: nat, log: Log, a: Anchor, next: nat)
    requires k < |lines| && ReadLines(f, h, lines[..k + 1], next) == Some(log)
    ensures Anchored(f, h, lines[..k + 1], a)
            == if log.bytes == a.bytes then log.tail == a.tail && log.last == a.ordinal else Anchored(f, h, lines[..k], a)
  {
    ReadFacts(f, h, lines[..k + 1], next);
    assert lines[..k + 1][..k] == lines[..k];
  }

  /** The reader's loop: a running log and whether the anchor has been met. */
  method ReadRecords(f: Format, h: Header, lines: seq<Line>, a: Anchor, next: nat) returns (r: Option<Log>, anchored: bool)
    requires f.headerSize(h) <= MAX_LINE
    ensures r == (if LinesFit(f, h, lines) then ReadLines(f, h, lines, next) else None)
    ensures r.Some? ==> anchored == Anchored(f, h, lines, a)
  {
    var log := Opened(f, h);
    anchored := log.bytes == a.bytes && log.tail == a.tail && a.ordinal == 0;
    for read := 0 to |lines|
      invariant ReadLines(f, h, lines[..read], next) == Some(log) && anchored == Anchored(f, h, lines[..read], a)
      invariant forall i :: 0 <= i < read ==> f.lineSize(lines[i].record) <= MAX_LINE
    {
      var line := lines[read];
      if f.lineSize(line.record) > MAX_LINE { return None, false; }
      ReadOneMore(f, h, lines, read, log, next);
      if line.checksum != Link(log.tail, line.record) || !Takes(f, log, line.record, next) {
        ReadStops(f, h, lines, next, read + 1);
        return None, false;
      }
      log := WithRecord(f, log, line.record);
      AnchoredOneMore(f, h, lines, read, log, a, next);
      if log.bytes == a.bytes { anchored := log.tail == a.tail && log.last == a.ordinal; }
    }
    assert lines[..|lines|] == lines;
    r := Some(log);
  }

  /** Reads the log afresh from its file. */
  method ReadLog(f: Format, run: string, registration: string, file: LogFile, a: Anchor, next: nat) returns (r: Option<Log>)
    ensures r == ColdLoad(f, run, registration, file, a, next)
  {
    var h := file.header;
    var size := FileSize(f, file);
    if size > MAX_BYTES || a.bytes > size { return None; }
    if f.headerSize(h) > MAX_LINE || h.run != run || h.registration != registration || h.generation != a.generation { return None; }
    var anchored;
    r, anchored := ReadRecords(f, h, file.lines, a, next);
    if r == None { return; }
    ReadFacts(f, h, file.lines, next);
    if r.value.bytes != size || !anchored { r := None; }
  }

  method FileSize(f: Format, file: LogFile) returns (size: nat)
    ensures size == SizeOf(f, file.header, file.lines) + file.torn
  {
    size := f.headerSize(file.header);
    for i := 0 to |file.lines|
      invariant size == SizeOf(f, file.header, file.lines[..i])
    {
      assert file.lines[..i + 1][..i] == file.lines[..i];
      size := size + f.lineSize(file.lines[i].record);
    }
    assert file.lines[..|file.lines|] == file.lines;
    size := size + file.torn;
  }

  lemma {:induction false} ReadStops(f: Format, h: Header, lines: seq<Line>, next: nat, k: nat)
    requires k <= |lines| && ReadLines(f, h, lines[..k], next) == None
    ensures ReadLines(f, h, lines, next) == None
  {
    if k == |lines| {
      assert lines[..k] == lines;
    } else {
      var init := lines[..|lines| - 1];
      assert init[..k] == lines[..k];
      ReadStops(f, h, init, next, k);
    }
  }

  /** What the service writes: events that carry digests for their source's ids, and proofs as the provider's reader makes them. */
  predicate ServiceMade(r: Record) {
    match r case EventRecord(e) => Hashed(e.body) case ProofRecord(p) => Measurable(p)
  }

  /** A log of such records always fits the reader's buffer. */
  lemma {:induction false} ServiceLogFits(f: Format, h: Header, lines: seq<Line>, next: nat)
    requires Compact(f) && ReadLines(f, h, lines, next).Some? && next <= MAX_ORDINAL
    requires |h.run| <= MAX_RUN && |h.generation| <= DIGEST_LENGTH && |h.registration| <= DIGEST_LENGTH
    requires forall i :: 0 <= i < |lines| ==> ServiceMade(lines[i].record)
    ensures LinesFit(f, h, lines)
  {
    HeaderFits(f, h);
    if lines != [] {
      var init, line := lines[..|lines| - 1], lines[|lines| - 1];
      ServiceLogFits(f, h, init, next);
      match line.record
      case EventRecord(e) => ServiceEventFits(f, e.body); assert e == Event(e.body, e.ordinal);
      case ProofRecord(p) => ProofFits(f, p);
      forall i | 0 <= i < |lines| - 1 ensures f.lineSize(lines[i].record) <= MAX_LINE { assert lines[i] == init[i]; }
    }
  }

  // ----- the anchored prefix -----

  function Records(lines: seq<Line>): seq<Record> {
    if lines == [] then [] else Records(lines[..|lines| - 1]) + [lines[|lines| - 1].record]
  }

  function TailOf(h: Header, records: seq<Record>): Tail {
    if records == [] then OfHeader(h) else Link(TailOf(h, records[..|records| - 1]), records[|records| - 1])
  }

  lemma TailMore(h: Header, records: seq<Record>, r: Record)
    ensures TailOf(h, records + [r]) == Link(TailOf(h, records), r)
  {
    assert (records + [r])[..|records|] == records;
  }

  lemma {:induction false} ReadFacts(f: Format, h: Header, lines: seq<Line>, next: nat)
    requires ReadLines(f, h, lines, next).Some?
    ensures var log := ReadLines(f, h, lines, next).value;
            && log.header == h && log.bytes == SizeOf(f, h, lines) && log.last == LastOrdinal(lines)
            && log.tail == TailOf(h, Records(lines)) && log.last <= next
            && (lines != [] ==> log.tail == lines[|lines| - 1].checksum)
  {
    if lines != [] {
      var init, line := lines[..|lines| - 1], lines[|lines| - 1];
      ReadFacts(f, h, init, next);
      TailMore(h, Records(init), line.record);
    }
  }

  predicate IdentitiesIndexed(log: Log) {
    && (forall a :: a in log.identities ==> log.identities[a] < |log.events| && log.events[log.identities[a]].body.activity == a)
    && (forall i :: 0 <= i < |log.events| ==> log.events[i].body.activity in log.identities)
  }

  predicate OrdinalsRise(log: Log) {
    && (forall i :: 0 <= i < |log.events| ==> log.events[i].ordinal <= log.last)
    && (forall i, j :: 0 <= i < j < |log.events| ==> log.events[i].ordinal < log.events[j].ordinal)
  }

  predicate SourceIndexed(log: Log, b: Body) {
    SourceKey(b).Some? ==> SourceKey(b).value in log.sources && log.sources[SourceKey(b).value] == b.sourceDigest
  }

  /** The indexes are exactly the events', and ordinals rise. */
  predicate Indexed(log: Log) {
    && IdentitiesIndexed(log) && OrdinalsRise(log)
    && forall i :: 0 <= i < |log.events| ==> SourceIndexed(log, log.events[i].body)
  }

  lemma EventIdentities(f: Format, log: Log, e: Event)
    requires IdentitiesIndexed(log) && e.body.activity !in log.identities
    ensures IdentitiesIndexed(WithEvent(f, log, e))
  {
    var more := WithEvent(f, log, e);
    forall a | a in more.identities
      ensures more.identities[a] < |more.events| && more.events[more.identities[a]].body.activity == a
    {
      if a != e.body.activity { assert a in log.identities; }
    }
  }

  lemma EventSources(f: Format, log: Log, e: Event)
    requires SourceAgrees(log, e.body) && forall i :: 0 <= i < |log.events| ==> SourceIndexed(log, log.events[i].body)
    ensures forall i :: 0 <= i <= |log.events| ==> SourceIndexed(WithEvent(f, log, e), WithEvent(f, log, e).events[i].body)
  {
    forall i | 0 <= i <= |log.events| ensures SourceIndexed(WithEvent(f, log, e), WithEvent(f, log, e).events[i].body) {
      if i < |log.events| { assert SourceIndexed(log, log.events[i].body); }
    }
  }

  lemma EventIndexed(f: Format, log: Log, e: Event, next: nat)
    requires Indexed(log) && Takes(f, log, EventRecord(e), next)
    ensures Indexed(WithEvent(f, log, e))
  {
    EventIdentities(f, log, e);
    EventSources(f, log, e);
  }

  lemma {:induction false} ReadIndexed(f: Format, h: Header, lines: seq<Line>, next: nat)
    requires ReadLines(f, h, lines, next).Some?
    ensures Indexed(ReadLines(f, h, lines, next).value)
  {
    if lines != [] {
      ReadIndexed(f, h, lines[..|lines| - 1], next);
      var r := lines[|lines| - 1].record;
      if r.EventRecord? { EventIndexed(f, ReadLines(f, h, lines[..|lines| - 1], next).value, r.event, next); }
    }
  }

  /** The tail determines the header and every record. */
  lemma {:induction false} TailFixes(h: Header, a: seq<Record>, k: Header, b: seq<Record>)
    requires TailOf(h, a) == TailOf(k, b)
    ensures h == k && a == b
  {
    if a != [] && b != [] {
      TailFixes(h, a[..|a| - 1], k, b[..|b| - 1]);
      assert a == a[..|a| - 1] + [a[|a| - 1]] && b == b[..|b| - 1] + [b[|b| - 1]];
    }
  }

  lemma {:induction false} AnchoredAt(f: Format, h: Header, lines: seq<Line>, a: Anchor, next: nat) returns (k: nat)
    requires ReadLines(f, h, lines, next).Some? && Anchored(f, h, lines, a)
    ensures k <= |lines| && a.tail == TailOf(h, Records(lines[..k])) && a.bytes == SizeOf(f, h, lines[..k])
    ensures Records(lines[..k]) <= Records(lines)
  {
    if SizeOf(f, h, lines) == a.bytes {
      ReadFacts(f, h, lines, next);
      k := |lines|;
      assert lines[..k] == lines;
    } else {
      var init := lines[..|lines| - 1];
      k := AnchoredAt(f, h, init, a, next);
      assert lines[..k] == init[..k];
    }
  }

  /**
    Whatever file is found, if it loads under an anchor committed for these records, it is that log: same header, and these
    records first, none changed, dropped or reordered.
   */
  lemma AnchoredPrefix(f: Format, run: string, registration: string, file: LogFile, a: Anchor, next: nat,
                       h: Header, committed: seq<Record>)
    requires a.tail == TailOf(h, committed) && ColdLoad(f, run, registration, file, a, next).Some?
    ensures file.header == h && committed <= Records(file.lines)
  {
    var k := AnchoredAt(f, file.header, file.lines, a, next);
    TailFixes(file.header, Records(file.lines[..k]), h, committed);
  }
}
