/**
  The per-run action journal: its records, the reader that rebuilds a run's operations from the segment files,
  and the writer's choice of segment, envelope and line. JSON, digests and the field syntax are a parameter, so every
  theorem holds for each codec that is canonical and writes one line.
 */
module Journal {
  import opened Results
  import opened ByteLines

  const MAX_SEGMENT_BYTES: nat := 8388608
  const MAX_SEGMENT_RECORDS: nat := 32768
  const MAX_JOURNAL_EPOCHS: nat := 8
  const MAX_JOURNAL_RECORDS: nat := 262144
  const SCANNER_BUFFER: nat := 262144

  datatype Status = Received | Rejected | Claimed | Applied | ReconciliationRequired
                  | ReconciledApplied | ReconciledNotApplied

  datatype Action = Cancel | Decision(request: string)

  /** `rest` stands for the receipt fields no journal rule inspects. */
  datatype Receipt = Receipt(operation: string, lookup: string, principal: string, request: string, run: string,
                             action: Action, transition: string, ownerLease: string, rest: string)
  datatype Claim = Claim(operation: string, transition: string, ownerLease: string, event: string, claimedAt: string)
  datatype Outcome = Outcome(operation: string, status: Status, events: seq<string>, reason: string, recordedAt: string)

  datatype Body = ReceiptBody(receipt: Receipt) | ClaimBody(claim: Claim) | OutcomeBody(outcome: Outcome)

  /** A record: the envelope the writer sets, and the body its caller supplies. The empty string is "no prior". */
  datatype Record = Record(epoch: nat, sequence: nat, prior: string, body: Body)

  datatype Codec = Codec(encode: Record -> seq<byte>, decode: seq<byte> -> Option<Record>, digest: seq<byte> -> string,
                         lookupKey: (string, string) -> string, wellFormed: Body -> bool)

  predicate OutcomeStatus(s: Status) {
    s != Received && s != Claimed
  }

  const WORD: nat := 0x1_0000_0000_0000_0000
  const MAX_IDENTIFIER: nat := 256
  const MAX_SHORT_TEXT: nat := 128
  const DIGEST_LENGTH: nat := 64

  /** The receipt's other fields: a payload of 16 KiB, a reason of 1 KiB, and identifiers, digests and short texts. */
  const MAX_RECEIPT_REST: nat := 18432

  /** The lengths the validation of the three record kinds allows. */
  predicate Bounded(body: Body) {
    match body
    case ReceiptBody(x) =>
      && |x.operation| <= MAX_IDENTIFIER && |x.lookup| <= DIGEST_LENGTH && |x.principal| <= MAX_SHORT_TEXT
      && |x.request| <= MAX_SHORT_TEXT && |x.run| <= MAX_IDENTIFIER && |x.transition| <= MAX_IDENTIFIER
      && (x.action.Decision? ==> |x.action.request| <= MAX_IDENTIFIER)
      && |x.ownerLease| <= DIGEST_LENGTH && |x.rest| <= MAX_RECEIPT_REST
    case ClaimBody(x) =>
      && |x.operation| <= MAX_IDENTIFIER && |x.transition| <= MAX_IDENTIFIER && |x.ownerLease| <= DIGEST_LENGTH
      && |x.event| <= DIGEST_LENGTH && |x.claimedAt| <= MAX_SHORT_TEXT
    case OutcomeBody(x) =>
      && |x.operation| <= MAX_IDENTIFIER && |x.events| <= 2 && (forall i :: 0 <= i < |x.events| ==> |x.events[i]| <= MAX_IDENTIFIER)
      && |x.reason| <= MAX_SHORT_TEXT && |x.recordedAt| <= MAX_SHORT_TEXT
  }

  /** The field validation of the three record kinds; `wellFormed` stands for the syntax of their strings. */
  predicate ValidRecord(c: Codec, r: Record) {
    && 0 < r.epoch < WORD
    && 0 < r.sequence < WORD
    && |r.prior| <= DIGEST_LENGTH
    && c.wellFormed(r.body) && Bounded(r.body)
    && match r.body
       case ReceiptBody(receipt) => (receipt.action.Cancel? <==> receipt.ownerLease != "")
       case ClaimBody(_) => true
       case OutcomeBody(outcome) => OutcomeStatus(outcome.status)
  }

  /** Decoding accepts exactly the canonical encodings of valid records, each of them one line. */
  ghost predicate CanonicalCodec(c: Codec) {
    && (forall r: Record :: ValidRecord(c, r) ==> c.decode(c.encode(r)) == Some(r))
    && (forall line: seq<byte> :: c.decode(line).Some? ==> ValidRecord(c, c.decode(line).value) && c.encode(c.decode(line).value) == line)
    && (forall r: Record :: var line := c.encode(r);
          NEWLINE !in line && line != [] && line[|line| - 1] != CARRIAGE_RETURN)
    && (forall line: seq<byte> :: c.digest(line) != "")
  }

  /** The characters of a record's strings. */
  function Characters(r: Record): nat {
    |r.prior| + match r.body
    case ReceiptBody(x) =>
      |x.operation| + |x.lookup| + |x.principal| + |x.request| + |x.run| + |x.transition|
      + (if x.action.Decision? then |x.action.request| else 0) + |x.ownerLease| + |x.rest|
    case ClaimBody(x) => |x.operation| + |x.transition| + |x.ownerLease| + |x.event| + |x.claimedAt|
    case OutcomeBody(x) => |x.operation| + Sum(x.events) + |x.reason| + |x.recordedAt|
  }

  function Sum(texts: seq<string>): nat {
    if texts == [] then 0 else |texts[0]| + Sum(texts[1..])
  }

  /** As in JSON, no character takes more than six bytes, and names, numbers and punctuation are of bounded length. */
  ghost predicate CompactCodec(c: Codec) {
    forall r: Record {:trigger c.encode(r)} :: ValidRecord(c, r) ==> |c.encode(r)| <= 2048 + 6 * Characters(r)
  }

  lemma {:induction false} SumBounded(texts: seq<string>, most: nat)
    requires forall i :: 0 <= i < |texts| ==> |texts[i]| <= most
    ensures Sum(texts) <= |texts| * most
  {
    if texts != [] {
      forall i | 0 <= i < |texts[1..]| ensures |texts[1..][i]| <= most { assert texts[1..][i] == texts[i + 1]; }
      SumBounded(texts[1..], most);
    }
  }

  /** The validation keeps every line within the reader's buffer: no record it lets through is too long to be read. */
  lemma ValidLineFits(c: Codec, r: Record)
    requires CompactCodec(c) && ValidRecord(c, r)
    ensures |c.encode(r)| < SCANNER_BUFFER
  {
    if r.body.OutcomeBody? { SumBounded(r.body.outcome.events, MAX_IDENTIFIER); }
  }

  // ----- operations -----

  datatype Operation = Operation(receipt: Receipt, claim: Option<Claim>, outcomes: seq<Outcome>) {
    function Status(): Status {
      if outcomes != [] then outcomes[|outcomes| - 1].status else if claim.Some? then Claimed else Received
    }
  }

  function Step(from: Status, to: Status): bool {
    || (from == Received && to == Rejected)
    || (from == Claimed && (to == Applied || to == ReconciliationRequired))
    || (from == ReconciliationRequired && (to == ReconciledApplied || to == ReconciledNotApplied))
  }

  function Progress(start: Status, outcomes: seq<Outcome>): Option<Status> {
    if outcomes == [] then Some(start) else
      match Progress(start, outcomes[..|outcomes| - 1])
      case None => None
      case Some(s) =>
        var to := outcomes[|outcomes| - 1].status;
        if Step(s, to) then Some(to) else None
  }

  predicate ValidProgress(op: Operation) {
    Progress(if op.claim.Some? then Claimed else Received, op.outcomes).Some?
  }

  method ValidateProgress(op: Operation) returns (ok: bool)
    ensures ok == ValidProgress(op)
  {
    var start := if op.claim.Some? then Claimed else Received;
    var status := start;
    for i := 0 to |op.outcomes|
      invariant Progress(start, op.outcomes[..i]) == Some(status)
    {
      assert op.outcomes[..i + 1][..i] == op.outcomes[..i];
      if !Step(status, op.outcomes[i].status) {
        ProgressStops(start, op.outcomes, i + 1);
        return false;
      }
      status := op.outcomes[i].status;
    }
    assert op.outcomes[..|op.outcomes|] == op.outcomes;
    return true;
  }

  lemma {:induction false} ProgressStops(start: Status, outcomes: seq<Outcome>, k: nat)
    requires k <= |outcomes| && Progress(start, outcomes[..k]) == None
    ensures Progress(start, outcomes) == None
  {
    if k == |outcomes| {
      assert outcomes[..k] == outcomes;
    } else {
      var init := outcomes[..|outcomes| - 1];
      assert init[..k] == outcomes[..k];
      ProgressStops(start, init, k);
    }
  }

  predicate Terminal(s: Status) {
    s == Rejected || s == Applied || s == ReconciledApplied || s == ReconciledNotApplied
  }

  // ----- the reader's state -----

  datatype Segment = Segment(bytes: nat, records: nat, lastDigest: string)

  /** `segments[i]` is epoch i + 1. */
  datatype State = State(sequence: nat, total: nat, segments: seq<Segment>, operations: map<string, Operation>,
                         lookups: map<string, string>, decisions: map<string, string>)

  const EMPTY_STATE := State(0, 0, [], map[], map[], map[])

  /** Folds one record's body into the operations read so far. */
  function ApplyDecoded(c: Codec, s: State, body: Body): Option<State> {
    match body
    case ReceiptBody(receipt) =>
      if receipt.operation in s.operations || receipt.lookup in s.lookups ||
         receipt.lookup != c.lookupKey(receipt.principal, receipt.request) then None
      else
        var t := s.(operations := s.operations[receipt.operation := Operation(receipt, None, [])],
                    lookups := s.lookups[receipt.lookup := receipt.operation]);
        if receipt.action.Cancel? then Some(t)
        else if receipt.action.request in s.decisions then None
        else Some(t.(decisions := s.decisions[receipt.action.request := receipt.operation]))
    case ClaimBody(claim) =>
      if claim.operation !in s.operations then None
      else
        var op := s.operations[claim.operation];
        if op.claim.Some? || op.Status() != Received || claim.transition != op.receipt.transition ||
           claim.ownerLease != op.receipt.ownerLease then None
        else Some(s.(operations := s.operations[claim.operation := op.(claim := Some(claim))]))
    case OutcomeBody(outcome) =>
      if outcome.operation !in s.operations then None
      else
        var op := s.operations[outcome.operation];
        Some(s.(operations := s.operations[outcome.operation := op.(outcomes := op.outcomes + [outcome])]))
  }

  /** Checks one record's envelope against its position, then folds it in. */
  function ReadRecord(c: Codec, epoch: nat, index: nat, r: Record, s: State): Option<State> {
    if r.epoch != epoch || r.sequence != s.sequence + 1 then None
    else if index == 0 && epoch > 1 &&
            (r.prior == "" || s.segments == [] || r.prior != s.segments[|s.segments| - 1].lastDigest) then None
    else if !(index == 0 && epoch > 1) && r.prior != "" then None
    else if s.total + 1 > MAX_JOURNAL_RECORDS then None
    else ApplyDecoded(c, s.(sequence := r.sequence, total := s.total + 1), r.body)
  }

  function FoldRecords(c: Codec, epoch: nat, records: seq<Record>, s: State): Option<State> {
    if records == [] then Some(s) else
      var n := |records| - 1;
      match FoldRecords(c, epoch, records[..n], s)
      case None => None
      case Some(t) => ReadRecord(c, epoch, n, records[n], t)
  }

  function DecodeAll(c: Codec, lines: seq<seq<byte>>): Option<seq<Record>> {
    if lines == [] then Some([]) else
      match DecodeAll(c, lines[..|lines| - 1])
      case None => None
      case Some(records) =>
        match c.decode(DropCarriageReturn(lines[|lines| - 1]))
        case None => None
        case Some(r) => Some(records + [r])
  }

  function LastDigest(c: Codec, lines: seq<seq<byte>>): string {
    if lines == [] then "" else c.digest(DropCarriageReturn(lines[|lines| - 1]))
  }

  /** What reading one segment file yields, or None for an integrity failure. */
  function SegmentContents(c: Codec, data: seq<byte>): Option<(Segment, seq<Record>)> {
    if |data| > MAX_SEGMENT_BYTES || !Terminated(data) then None else
      var lines := RawLines(data);
      if !Fit(lines, SCANNER_BUFFER) || |lines| > MAX_SEGMENT_RECORDS then None else
        match DecodeAll(c, lines)
        case None => None
        case Some(records) => Some((Segment(|data|, |records|, LastDigest(c, lines)), records))
  }

  /** Reads segments 1..|files| in order; only the last may be empty. */
  function ScanSegments(c: Codec, files: seq<seq<byte>>): Option<State> {
    if files == [] then Some(EMPTY_STATE) else
      var n := |files| - 1;
      match ScanSegments(c, files[..n])
      case None => None
      case Some(s) =>
        if s.segments != [] && s.segments[|s.segments| - 1].records == 0 then None else
          match SegmentContents(c, files[n])
          case None => None
          case Some((segment, records)) =>
            match FoldRecords(c, n + 1, records, s)
            case None => None
            case Some(t) => Some(t.(segments := t.segments + [segment]))
  }

  function ScanFiles(c: Codec, files: seq<seq<byte>>): Option<State> {
    if |files| > MAX_JOURNAL_EPOCHS then None else
      match ScanSegments(c, files)
      case None => None
      case Some(s) =>
        if forall id :: id in s.operations ==> ValidProgress(s.operations[id]) then Some(s) else None
  }

  // ----- the writer -----

  datatype AppendError = Exhausted | Integrity

  /** The segment to write, its size before the append, the record with its envelope set, and the line with its newline. */
  datatype Prepared = Prepared(epoch: nat, offset: nat, record: Record, line: seq<byte>)

  function PrepareAppend(c: Codec, s: State, body: Body): Result<Prepared, AppendError> {
    if s.total >= MAX_JOURNAL_RECORDS then Err(Exhausted) else
      var k := |s.segments|;
      var epoch := if k > 0 then k else 1;
      var initialPrior := if k > 1 && s.segments[k - 1].records == 0 then s.segments[k - 2].lastDigest else "";
      var record := Record(epoch, s.sequence + 1, initialPrior, body);
      if !ValidRecord(c, record) then Err(Integrity) else
        var line := c.encode(record) + [NEWLINE];
        var bytes, records := if k > 0 then s.segments[k - 1].bytes else 0, if k > 0 then s.segments[k - 1].records else 0;
        if records >= MAX_SEGMENT_RECORDS || bytes + |line| > MAX_SEGMENT_BYTES then
          if epoch >= MAX_JOURNAL_EPOCHS then Err(Exhausted)
          else if k == 0 || s.segments[k - 1].lastDigest == "" then Err(Integrity)
          else
            var rotated := Record(epoch + 1, s.sequence + 1, s.segments[k - 1].lastDigest, body);
            var rotatedLine := c.encode(rotated) + [NEWLINE];
            if !ValidRecord(c, rotated) then Err(Integrity)
            else if |rotatedLine| > MAX_SEGMENT_BYTES then Err(Exhausted)
            else Ok(Prepared(epoch + 1, 0, rotated, rotatedLine))
        else if |line| > MAX_SEGMENT_BYTES then Err(Exhausted)
        else Ok(Prepared(epoch, bytes, record, line))
  }

  /** The segment files once the prepared line is on disk. */
  function Extend(files: seq<seq<byte>>, p: Prepared): seq<seq<byte>>
    requires 0 < p.epoch <= |files| + 1
  {
    if p.epoch <= |files| then files[p.epoch - 1 := files[p.epoch - 1] + p.line] else files + [p.line]
  }

  // ----- the imperative reader refines the specification -----

  /** The scanner's search for the end of the line starting at `offset`. */
  method LineEnd(data: seq<byte>, offset: nat) returns (end: nat)
    requires offset < |data| && Terminated(data)
    ensures offset <= end < |data| && data[end] == NEWLINE && forall i :: offset <= i < end ==> data[i] != NEWLINE
  {
    end := offset;
    while data[end] != NEWLINE
      invariant offset <= end < |data| && forall i :: offset <= i < end ==> data[i] != NEWLINE
      decreases |data| - end
    {
      end := end + 1;
    }
  }

  method NextLine(data: seq<byte>, offset: nat) returns (line: seq<byte>, next: nat)
    requires offset < |data| && Terminated(data) && (offset == 0 || data[offset - 1] == NEWLINE)
    ensures offset < next <= |data| && data[next - 1] == NEWLINE
    ensures Terminated(data[..offset]) && Terminated(data[..next])
    ensures RawLines(data[..next]) == RawLines(data[..offset]) + [line] && RawLines(data[..next]) <= RawLines(data)
  {
    var end := LineEnd(data, offset);
    CutLine(data, offset, end);
    line, next := data[offset..end], end + 1;
  }

  method ReadSegment(c: Codec, data: seq<byte>) returns (r: Option<(Segment, seq<Record>)>)
    ensures r == SegmentContents(c, data)
  {
    if |data| > MAX_SEGMENT_BYTES || !Terminated(data) { return None; }
    var records, lines, offset := [], [], 0;
    while offset < |data|
      invariant 0 <= offset <= |data| && (offset == 0 || data[offset - 1] == NEWLINE)
      invariant Terminated(data[..offset]) && lines == RawLines(data[..offset]) && lines <= RawLines(data)
      invariant |lines| == |records| && Readable(c, lines, records)
    {
      var line, next := NextLine(data, offset);
      var record := c.decode(DropCarriageReturn(line));
      if |line| >= SCANNER_BUFFER || |records| == MAX_SEGMENT_RECORDS || record == None {
        RefuseLine(c, data, lines, line);
        return None;
      }
      OneMoreReadable(c, lines, line, records, record.value);
      lines, records, offset := lines + [line], records + [record.value], next;
    }
    assert data[..|data|] == data;
    r := Some((Segment(|data|, |records|, LastDigest(c, lines)), records));
  }

  /** The lines read so far decode to the records read so far, within every bound. */
  predicate Readable(c: Codec, lines: seq<seq<byte>>, records: seq<Record>) {
    Fit(lines, SCANNER_BUFFER) && |lines| <= MAX_SEGMENT_RECORDS && DecodeAll(c, lines) == Some(records)
  }

  lemma OneMoreReadable(c: Codec, lines: seq<seq<byte>>, line: seq<byte>, records: seq<Record>, r: Record)
    requires Readable(c, lines, records)
    requires |line| < SCANNER_BUFFER && |lines| < MAX_SEGMENT_RECORDS && c.decode(DropCarriageReturn(line)) == Some(r)
    ensures Readable(c, lines + [line], records + [r])
  {
    assert (lines + [line])[..|lines|] == lines;
  }

  lemma Taken(data: seq<byte>, offset: nat, end: nat)
    requires offset <= end < |data|
    ensures var d := data[..end + 1];
            && |d| == end + 1 && d[..offset] == data[..offset] && d[offset..|d| - 1] == data[offset..end]
            && d[|d| - 1] == data[end] && (offset > 0 ==> d[offset - 1] == data[offset - 1])
            && forall i :: offset <= i < end ==> d[i] == data[i]
  {
  }

  lemma CutLine(data: seq<byte>, offset: nat, end: nat)
    requires offset <= end < |data| && Terminated(data) && (offset == 0 || data[offset - 1] == NEWLINE)
    requires data[end] == NEWLINE && forall i :: offset <= i < end ==> data[i] != NEWLINE
    ensures Terminated(data[..offset]) && Terminated(data[..end + 1])
    ensures RawLines(data[..end + 1]) == RawLines(data[..offset]) + [data[offset..end]]
    ensures RawLines(data[..end + 1]) <= RawLines(data)
  {
    Taken(data, offset, end);
    LastLine(data[..end + 1], offset);
    RawLinesPrefix(data, end + 1);
  }

  /** One bad line refuses the whole segment. */
  lemma RefuseLine(c: Codec, data: seq<byte>, lines: seq<seq<byte>>, line: seq<byte>)
    requires |data| <= MAX_SEGMENT_BYTES && Terminated(data) && lines + [line] <= RawLines(data)
    requires |line| >= SCANNER_BUFFER || |lines| >= MAX_SEGMENT_RECORDS || c.decode(DropCarriageReturn(line)) == None
    ensures SegmentContents(c, data) == None
  {
    var raw, k := RawLines(data), |lines|;
    assert raw[k] == line;
    if Fit(raw, SCANNER_BUFFER) && |raw| <= MAX_SEGMENT_RECORDS {
      DecodeRefuses(c, raw, k);
    }
  }

  lemma {:induction false} DecodeRefuses(c: Codec, lines: seq<seq<byte>>, k: nat)
    requires k < |lines| && c.decode(DropCarriageReturn(lines[k])) == None
    ensures DecodeAll(c, lines) == None
  {
    if k < |lines| - 1 { DecodeRefuses(c, lines[..|lines| - 1], k); }
  }

  // ----- the run directory -----

  /** The directory's segment files in epoch order, or None unless the epochs are exactly 1, 2, ... within the bound. */
  function Listing(dir: map<nat, seq<byte>>): Option<seq<seq<byte>>> {
    if (forall e :: e in dir.Keys ==> 1 <= e <= MAX_JOURNAL_EPOCHS) && (forall e :: 1 <= e <= |dir| ==> e in dir)
    then Some(seq(|dir|, i requires 0 <= i < |dir| => dir[i + 1]))
    else None
  }

  function Scan(c: Codec, dir: map<nat, seq<byte>>): Option<State> {
    match Listing(dir)
    case None => None
    case Some(files) => ScanFiles(c, files)
  }

  method ScanRun(c: Codec, dir: map<nat, seq<byte>>) returns (r: Option<State>)
    ensures r == Scan(c, dir)
  {
    var listing := ListEntries(dir);
    if listing == None || |listing.value| > MAX_JOURNAL_EPOCHS { return None; }
    r := ScanAll(c, listing.value);
    if r == None { return None; }
    var ids := r.value.operations.Keys;
    while ids != {}
      invariant ids <= r.value.operations.Keys
      invariant forall id :: id in r.value.operations && id !in ids ==> ValidProgress(r.value.operations[id])
      decreases ids
    {
      var id :| id in ids;
      var ok := ValidateProgress(r.value.operations[id]);
      if !ok { return None; }
      ids := ids - {id};
    }
  }

  method CheckEntries(dir: map<nat, seq<byte>>) returns (ok: bool)
    ensures ok <==> forall e :: e in dir.Keys ==> 1 <= e <= MAX_JOURNAL_EPOCHS
  {
    var entries := dir.Keys;
    while entries != {}
      invariant entries <= dir.Keys
      invariant forall e :: e in dir.Keys && e !in entries ==> 1 <= e <= MAX_JOURNAL_EPOCHS
      decreases entries
    {
      var e :| e in entries;
      if e < 1 || e > MAX_JOURNAL_EPOCHS { return false; }
      entries := entries - {e};
    }
    ok := true;
  }

  method ListEntries(dir: map<nat, seq<byte>>) returns (r: Option<seq<seq<byte>>>)
    ensures r == Listing(dir)
  {
    var ok := CheckEntries(dir);
    if !ok { return None; }
    var files := [];
    for epoch := 1 to |dir| + 1
      invariant |files| == epoch - 1 && forall e :: 1 <= e < epoch ==> e in dir
      invariant forall i {:trigger files[i]} :: 0 <= i < |files| ==> files[i] == dir[i + 1]
    {
      if epoch !in dir { return None; }
      files := files + [dir[epoch]];
    }
    ListingIs(dir, files);
    r := Some(files);
  }

  lemma ListingIs(dir: map<nat, seq<byte>>, files: seq<seq<byte>>)
    requires forall e :: e in dir.Keys ==> 1 <= e <= MAX_JOURNAL_EPOCHS
    requires |files| == |dir| && forall e :: 1 <= e <= |dir| ==> e in dir
    requires forall i {:trigger files[i]} :: 0 <= i < |files| ==> files[i] == dir[i + 1]
    ensures Listing(dir) == Some(files)
  {
    assert Listing(dir).value == files;
  }

  method ScanAll(c: Codec, files: seq<seq<byte>>) returns (r: Option<State>)
    ensures r == ScanSegments(c, files)
  {
    var state := EMPTY_STATE;
    for index := 0 to |files|
      invariant ScanSegments(c, files[..index]) == Some(state)
    {
      assert files[..index + 1][..index] == files[..index];
      var segment := ReadSegment(c, files[index]);
      if (state.segments != [] && state.segments[|state.segments| - 1].records == 0) || segment == None {
        ScanStops(c, files, index + 1);
        return None;
      }
      var folded := FoldSegment(c, index + 1, segment.value.1, state);
      if folded == None {
        ScanStops(c, files, index + 1);
        return None;
      }
      state := folded.value.(segments := folded.value.segments + [segment.value.0]);
    }
    assert files[..|files|] == files;
    r := Some(state);
  }

  method FoldSegment(c: Codec, epoch: nat, records: seq<Record>, s: State) returns (r: Option<State>)
    ensures r == FoldRecords(c, epoch, records, s)
  {
    var state := s;
    for index := 0 to |records|
      invariant FoldRecords(c, epoch, records[..index], s) == Some(state)
    {
      assert records[..index + 1][..index] == records[..index];
      var next := ReadRecord(c, epoch, index, records[index], state);
      if next == None {
        FoldStops(c, epoch, records, s, index + 1);
        return None;
      }
      state := next.value;
    }
    assert records[..|records|] == records;
    r := Some(state);
  }

  lemma {:induction false} FoldStops(c: Codec, epoch: nat, records: seq<Record>, s: State, k: nat)
    requires k <= |records| && FoldRecords(c, epoch, records[..k], s) == None
    ensures FoldRecords(c, epoch, records, s) == None
  {
    if k == |records| {
      assert records[..k] == records;
    } else {
      var init := records[..|records| - 1];
      assert init[..k] == records[..k];
      FoldStops(c, epoch, init, s, k);
    }
  }

  lemma {:induction false} ScanStops(c: Codec, files: seq<seq<byte>>, k: nat)
    requires k <= |files| && ScanSegments(c, files[..k]) == None
    ensures ScanSegments(c, files) == None
  {
    if k == |files| {
      assert files[..k] == files;
    } else {
      var init := files[..|files| - 1];
      assert init[..k] == files[..k];
      ScanStops(c, init, k);
    }
  }
}
