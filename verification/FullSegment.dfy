/**
  A run whose first segment is nearly full, and the power loss that leaves it unreadable: a rollback cut a line back and was
  killed before its sync, and the next record started a new segment.
 */
module FullSegment {
  import opened Results
  import opened ByteLines
  import opened Tokens
  import opened Journal
  import opened JournalTheorems
  import opened AppendDisk
  import opened AppendTheorems
  import opened RunJournal
  import W = Witnesses

  // ----- receipts of a chosen length -----

  const MANY: nat := 256
  const MEDIUM: nat := 9000

  /** What a segment keeps free for a short line, and the room a longest line does not find. */
  const SHORT_ROOM: nat := 5000
  const LONG_ROOM: nat := 110000

  function Name(n: nat): string
    requires n < MANY
  {
    [n as char]
  }

  function Nth(n: nat, size: nat): Body
    requires n < MANY
  {
    ReceiptBody(Receipt(Name(n), Name(n), "", Name(n), "", Cancel, "", ".", seq(size, _ => 'a')))
  }

  /** Each character of the payload takes six bytes of the line. */
  lemma LineSize(r: Record, n: nat, size: nat)
    requires n < MANY && size <= MAX_RECEIPT_REST && r.body == Nth(n, size)
    requires 0 < r.epoch < WORD && 0 < r.sequence < WORD && |r.prior| <= 1
    ensures ValidRecord(W.PlainJournal(), r)
    ensures 6 * size <= |W.EncodeRecord(r)| <= 2078 + 6 * size
  {
    W.RecordIsCompact(r);
    var strings := [r.prior] + W.BodyStrings(r.body);
    SpelledSize(W.RecordTokens(r));
    SizeMore(W.RecordNumbers(r), Texts(strings));
    W.TextsSize(strings);
    W.SumMore([r.prior], W.BodyStrings(r.body));
    W.StringsSum(r.body);
  }

  // ----- the segment -----

  function NthRecord(n: nat): Record
    requires n < MANY
  {
    Record(1, n + 1, "", Nth(n, MEDIUM))
  }

  function Records(n: nat): (records: seq<Record>)
    requires n <= MANY
    ensures |records| == n
  {
    if n == 0 then [] else Records(n - 1) + [NthRecord(n - 1)]
  }

  function Filled(n: nat): seq<byte>
    requires n <= MANY
  {
    if n == 0 then [] else Filled(n - 1) + (W.EncodeRecord(NthRecord(n - 1)) + [NEWLINE])
  }

  /** The state after the first n receipts: later names are free, and no operation has gone on. */
  ghost predicate HoldsFirst(s: State, n: nat) {
    && s.sequence == s.total == n
    && (forall i :: n <= i < MANY ==> Name(i) !in s.operations && Name(i) !in s.lookups)
    && forall id :: id in s.operations ==> s.operations[id].claim == None && s.operations[id].outcomes == []
  }

  lemma NextTaken(s: State, n: nat, size: nat)
    requires n < MANY && HoldsFirst(s, n)
    ensures var t := ApplyDecoded(W.PlainJournal(), s.(sequence := n + 1, total := n + 1), Nth(n, size));
            t.Some? && HoldsFirst(t.value, n + 1)
    ensures Admits(W.PlainJournal(), s, Nth(n, size))
  {
    forall i | n < i < MANY ensures Name(i) != Name(n) { assert Name(i)[0] != Name(n)[0]; }
  }

  lemma OneMore(n: nat)
    requires n < MANY
    ensures |Filled(n)| + 54000 <= |Filled(n + 1)| <= |Filled(n)| + 57000
  {
    LineSize(NthRecord(n), n, MEDIUM);
  }

  lemma {:induction false} FilledSize(n: nat)
    requires n <= MANY
    ensures 54000 * n <= |Filled(n)|
  {
    if n > 0 {
      FilledSize(n - 1);
      OneMore(n - 1);
    }
  }

  /** What the reader makes of a first segment with n receipts. */
  ghost predicate ReadsFirst(data: seq<byte>, records: seq<Record>, n: nat) {
    var c := W.PlainJournal();
    && |records| == n
    && SegmentContents(c, data) == Some((Segment(|data|, n, if n == 0 then "" else "."), records))
    && FoldRecords(c, 1, records, EMPTY_STATE).Some?
    && HoldsFirst(FoldRecords(c, 1, records, EMPTY_STATE).value, n)
  }

  lemma ReadsNext(data: seq<byte>, records: seq<Record>, n: nat)
    requires n < MANY && ReadsFirst(data, records, n)
    requires |data| + |W.EncodeRecord(NthRecord(n))| + 1 <= MAX_SEGMENT_BYTES
    ensures ReadsFirst(data + (W.EncodeRecord(NthRecord(n)) + [NEWLINE]), records + [NthRecord(n)], n + 1)
  {
    var c, r := W.PlainJournal(), NthRecord(n);
    assert ReadsBack(c, r) && |c.encode(r)| < SCANNER_BUFFER by {
      LineSize(r, n, MEDIUM);
      W.PlainJournalIsCanonical();
      ValidReadsBack(c, r);
    }
    SegmentAppend(c, data, r);
    FoldOneMore(c, 1, records, EMPTY_STATE, r);
    NextTaken(FoldRecords(c, 1, records, EMPTY_STATE).value, n, MEDIUM);
  }

  lemma {:induction false} FilledReads(n: nat)
    requires n <= MANY && |Filled(n)| <= MAX_SEGMENT_BYTES
    ensures ReadsFirst(Filled(n), Records(n), n)
  {
    if n == 0 {
      EmptySegment(W.PlainJournal());
    } else {
      FilledReads(n - 1);
      ReadsNext(Filled(n - 1), Records(n - 1), n - 1);
    }
  }

  /** There is a number of receipts that leaves room for a short line and none for a longest one. */
  lemma NearlyFull(n: nat) returns (k: nat)
    requires n <= MANY && |Filled(n)| + SHORT_ROOM <= MAX_SEGMENT_BYTES
    ensures k < MANY && |Filled(k)| + SHORT_ROOM <= MAX_SEGMENT_BYTES < |Filled(k)| + LONG_ROOM
    decreases MAX_SEGMENT_BYTES - |Filled(n)|
  {
    FilledSize(n);
    if |Filled(n)| + LONG_ROOM > MAX_SEGMENT_BYTES {
      k := n;
    } else {
      OneMore(n);
      k := NearlyFull(n + 1);
    }
  }

  lemma SoleSegment(c: Codec, data: seq<byte>, segment: Segment, records: seq<Record>, n: nat)
    requires data != [] && SegmentContents(c, data) == Some((segment, records))
    requires FoldRecords(c, 1, records, EMPTY_STATE).Some? && HoldsFirst(FoldRecords(c, 1, records, EMPTY_STATE).value, n)
    ensures IsJournal(c, [data])
    ensures ScanFiles(c, [data]) == Some(FoldRecords(c, 1, records, EMPTY_STATE).value.(segments := [segment]))
  {
    FoldKeepsSegments(c, 1, records, EMPTY_STATE);
    ScanLast(c, [], data);
    assert [] + [data] == [data];
    assert ScanSegments(c, []) == Some(EMPTY_STATE) && EMPTY_STATE.segments + [segment] == [segment];
    assert AllProgress(ScanSegments(c, [data]).value);
  }

  lemma Scanned(k: nat)
    requires 0 < k <= MANY && |Filled(k)| <= MAX_SEGMENT_BYTES
    ensures IsJournal(W.PlainJournal(), [Filled(k)])
    ensures var s := ScanFiles(W.PlainJournal(), [Filled(k)]).value;
            HoldsFirst(s, k) && s.segments == [Segment(|Filled(k)|, k, ".")]
  {
    FilledSize(k);
    FilledReads(k);
    SoleSegment(W.PlainJournal(), Filled(k), Segment(|Filled(k)|, k, "."), Records(k), k);
  }

  // ----- the run -----

  /**
    A line was cut back to `kept` and its cutting not synced; the next process took the journal as it saw it and appended
    another to a new segment.
   */
  function CutBack(kept: seq<byte>, line: seq<byte>, last: seq<byte>): Disk {
    var next := Some(Node(2, last));
    Disk(Slot(None, {None}),
         seq(MAX_JOURNAL_EPOCHS, i =>
           if i == 0 then Slot(Some(Node(1, kept)), {Some(Node(1, kept)), Some(Node(1, kept + line))})
           else if i == 1 then Slot(next, {next}) else Slot(None, {None})))
  }

  lemma CutBackIsRotated(c: Codec, kept: seq<byte>, line: seq<byte>, last: seq<byte>)
    requires line != []
    ensures WellFormed(CutBack(kept, line, last), 3)
    ensures RotatedOver(c, CutBack(kept, line, last), [kept], Pending(1, |kept|), line, last)
  {
  }

  /** What the writer's two lines make of the journal. */
  lemma BothAppended(c: Codec, kept: seq<byte>, s: State, first: Body, second: Body, line: seq<byte>, last: seq<byte>)
    requires CanonicalCodec(c) && CompactCodec(c) && IsJournal(c, [kept]) && ScanFiles(c, [kept]) == Some(s)
    requires Admits(c, s, first) && Admits(c, s, second)
    requires exists r :: PrepareAppend(c, s, first) == Ok(Prepared(1, |kept|, r, line))
    requires exists r :: PrepareAppend(c, s, second) == Ok(Prepared(2, 0, r, last))
    ensures GrowsTo(c, [kept], Pending(1, |kept|), line, first) && IsJournal(c, [kept] + [last])
  {
    GrowsBy(c, [kept], [kept], s, first, PrepareAppend(c, s, first).value);
    GrowsBy(c, [kept], [kept], s, second, PrepareAppend(c, s, second).value);
    assert Grown([kept], 2, last) == [kept] + [last];
  }

  /** The cutting is not synced, so the line may come back. */
  lemma LineMayReturn(kept: seq<byte>, line: seq<byte>, last: seq<byte>)
    requires line != []
    ensures !forall v :: v in CutBack(kept, line, last).segments[0].may ==> Data(v) == Some(kept)
  {
    var v := Some(Node(1, kept + line));
    assert v in CutBack(kept, line, last).segments[0].may && |kept + line| > |kept|;
  }

  /**
    Where one record goes into the first segment and another into the next, the first can be cut back, the second appended, and
    a power loss leave files that no scan reads.
   */
  lemma CutBackBreaks(c: Codec, m: MarkerCodec, kept: seq<byte>, s: State, first: Body, second: Body, line: seq<byte>, last: seq<byte>)
    requires CanonicalCodec(c) && CompactCodec(c) && IsJournal(c, [kept]) && ScanFiles(c, [kept]) == Some(s)
    requires Admits(c, s, first) && Admits(c, s, second)
    requires exists r :: PrepareAppend(c, s, first) == Ok(Prepared(1, |kept|, r, line))
    requires exists r :: PrepareAppend(c, s, second) == Ok(Prepared(2, 0, r, last))
    ensures RotatedOver(c, CutBack(kept, line, last), [kept], Pending(1, |kept|), line, last)
    ensures exists im :: IsImage(CutBack(kept, line, last), im) && ReadBack(c, m, im) == None
  {
    BothAppended(c, kept, s, first, second, line, last);
    CutBackIsRotated(c, kept, line, last);
    LineMayReturn(kept, line, last);
    LeftUndecided(c, m, CutBack(kept, line, last), 3, [kept], Pending(1, |kept|), line, first, last);
  }

  function ShortRecord(k: nat): Record
    requires k < MANY
  {
    Record(1, k + 1, "", Nth(k, 0))
  }

  function LongRecord(k: nat): Record
    requires k < MANY
  {
    Record(2, k + 1, ".", Nth(k, MAX_RECEIPT_REST))
  }

  function LineOf(r: Record): seq<byte> {
    W.EncodeRecord(r) + [NEWLINE]
  }

  lemma GoesFirst(c: Codec, s: State, segment: Segment, r: Record)
    requires s.segments == [segment] && segment.records < MAX_SEGMENT_RECORDS && s.total < MAX_JOURNAL_RECORDS
    requires r == Record(1, s.sequence + 1, "", r.body) && ValidRecord(c, r)
    requires segment.bytes + |c.encode(r)| + 1 <= MAX_SEGMENT_BYTES
    ensures PrepareAppend(c, s, r.body) == Ok(Prepared(1, segment.bytes, r, c.encode(r) + [NEWLINE]))
  {
  }

  lemma GoesNext(c: Codec, s: State, segment: Segment, r: Record)
    requires s.segments == [segment] && segment.lastDigest != "" && s.total < MAX_JOURNAL_RECORDS
    requires r == Record(2, s.sequence + 1, segment.lastDigest, r.body) && ValidRecord(c, r) && |c.encode(r)| < MAX_SEGMENT_BYTES
    requires ValidRecord(c, r.(epoch := 1, prior := ""))
    requires segment.bytes + |c.encode(r.(epoch := 1, prior := ""))| + 1 > MAX_SEGMENT_BYTES
    ensures PrepareAppend(c, s, r.body) == Ok(Prepared(2, 0, r, c.encode(r) + [NEWLINE]))
  {
  }

  /** A short line still goes into the first segment, and a longest one into the next. */
  lemma ShortAndLong(s: State, k: nat)
    requires 0 < k < MANY && |Filled(k)| + SHORT_ROOM <= MAX_SEGMENT_BYTES < |Filled(k)| + LONG_ROOM
    requires HoldsFirst(s, k) && s.segments == [Segment(|Filled(k)|, k, ".")]
    ensures PrepareAppend(W.PlainJournal(), s, Nth(k, 0)) == Ok(Prepared(1, |Filled(k)|, ShortRecord(k), LineOf(ShortRecord(k))))
    ensures PrepareAppend(W.PlainJournal(), s, Nth(k, MAX_RECEIPT_REST)) == Ok(Prepared(2, 0, LongRecord(k), LineOf(LongRecord(k))))
  {
    var segment := Segment(|Filled(k)|, k, ".");
    LineSize(ShortRecord(k), k, 0);
    GoesFirst(W.PlainJournal(), s, segment, ShortRecord(k));
    LineSize(LongRecord(k).(epoch := 1, prior := ""), k, MAX_RECEIPT_REST);
    LineSize(LongRecord(k), k, MAX_RECEIPT_REST);
    GoesNext(W.PlainJournal(), s, segment, LongRecord(k));
  }

  /** There is such a run: a power loss brings the short line back under a segment that begins without it. */
  lemma LineComesBack() returns (k: nat)
    ensures k < MANY && IsJournal(W.PlainJournal(), [Filled(k)])
    ensures var c, kept, line, last := W.PlainJournal(), Filled(k), LineOf(ShortRecord(k)), LineOf(LongRecord(k));
            var s := ScanFiles(c, [kept]).value;
            && Admits(c, s, Nth(k, 0)) && Admits(c, s, Nth(k, MAX_RECEIPT_REST))
            && PrepareAppend(c, s, Nth(k, 0)) == Ok(Prepared(1, |kept|, ShortRecord(k), line))
            && PrepareAppend(c, s, Nth(k, MAX_RECEIPT_REST)) == Ok(Prepared(2, 0, LongRecord(k), last))
            && RotatedOver(c, CutBack(kept, line, last), [kept], Pending(1, |kept|), line, last)
            && exists im :: IsImage(CutBack(kept, line, last), im) && ReadBack(c, W.PlainMarkers(), im) == None
  {
    k := NearlyFull(0);
    var c, kept := W.PlainJournal(), Filled(k);
    assert k > 0 by { assert Filled(0) == []; }
    Scanned(k);
    var s := ScanFiles(c, [kept]).value;
    NextTaken(s, k, 0);
    NextTaken(s, k, MAX_RECEIPT_REST);
    ShortAndLong(s, k);
    W.PlainJournalIsCanonical();
    CutBackBreaks(c, W.PlainMarkers(), kept, s, Nth(k, 0), Nth(k, MAX_RECEIPT_REST), LineOf(ShortRecord(k)), LineOf(LongRecord(k)));
  }
}
