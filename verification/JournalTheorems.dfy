/**
  What the action journal promises: the reader accepts exactly what the writer makes, and every accepted journal gives
  each operation one of a handful of histories.
 */
module JournalTheorems {
  import opened Results
  import opened ByteLines
  import opened Journal

  /** The part of a reader's state a caller can observe; segment bookkeeping is not. */
  datatype Contents = Contents(sequence: nat, total: nat, operations: map<string, Operation>,
                               lookups: map<string, string>, decisions: map<string, string>)

  function ContentsOf(s: State): Contents {
    Contents(s.sequence, s.total, s.operations, s.lookups, s.decisions)
  }

  predicate AllProgress(s: State) {
    forall id :: id in s.operations ==> ValidProgress(s.operations[id])
  }

  /** The reader would fold this body into this state and still find every progression valid. */
  predicate Admits(c: Codec, s: State, body: Body) {
    ApplyDecoded(c, s, body).Some? && AllProgress(ApplyDecoded(c, s, body).value)
  }

  // ----- what reading a segment keeps -----

  lemma {:induction false} FoldKeepsSegments(c: Codec, epoch: nat, records: seq<Record>, s: State)
    requires FoldRecords(c, epoch, records, s).Some?
    ensures FoldRecords(c, epoch, records, s).value.segments == s.segments
  {
    if records != [] { FoldKeepsSegments(c, epoch, records[..|records| - 1], s); }
  }

  lemma {:induction false} DecodedCount(c: Codec, lines: seq<seq<byte>>)
    requires DecodeAll(c, lines).Some?
    ensures |DecodeAll(c, lines).value| == |lines|
  {
    if lines != [] { DecodedCount(c, lines[..|lines| - 1]); }
  }

  lemma SegmentFacts(c: Codec, data: seq<byte>)
    requires CanonicalCodec(c) && SegmentContents(c, data).Some?
    ensures var (segment, records) := SegmentContents(c, data).value;
            && segment.bytes == |data|
            && segment.records == |records| == |RawLines(data)|
            && (segment.records == 0 <==> segment.lastDigest == "")
            && (segment.records == 0 <==> data == [])
  {
    DecodedCount(c, RawLines(data));
  }

  /** A state segment describes the file of its epoch. */
  predicate Describes(segment: Segment, data: seq<byte>) {
    && segment.bytes == |data|
    && (segment.records == 0 <==> segment.lastDigest == "")
    && (segment.records == 0 <==> data == [])
  }

  predicate MatchFiles(s: State, files: seq<seq<byte>>) {
    |s.segments| == |files| && forall i :: 0 <= i < |files| ==> Describes(s.segments[i], files[i])
  }

  lemma MatchOneMore(s: State, t: State, segment: Segment, files: seq<seq<byte>>)
    requires files != [] && MatchFiles(s, files[..|files| - 1]) && Describes(segment, files[|files| - 1])
    requires t.segments == s.segments + [segment]
    ensures MatchFiles(t, files)
  {
  }

  lemma {:induction false} SegmentsMatchFiles(c: Codec, files: seq<seq<byte>>)
    requires CanonicalCodec(c) && ScanSegments(c, files).Some?
    ensures MatchFiles(ScanSegments(c, files).value, files)
  {
    if files != [] {
      var n := |files| - 1;
      SegmentsMatchFiles(c, files[..n]);
      var s := ScanSegments(c, files[..n]).value;
      var (segment, records) := SegmentContents(c, files[n]).value;
      SegmentFacts(c, files[n]);
      FoldKeepsSegments(c, n + 1, records, s);
      MatchOneMore(s, ScanSegments(c, files).value, segment, files);
    }
  }

  // ----- writer refines reader -----

  /** The writer's line for this record reads back as this record. */
  predicate ReadsBack(c: Codec, r: Record) {
    var line := c.encode(r);
    && c.decode(line) == Some(r)
    && NEWLINE !in line && line != [] && line[|line| - 1] != CARRIAGE_RETURN
    && c.digest(line) != ""
  }

  lemma ValidReadsBack(c: Codec, r: Record)
    requires CanonicalCodec(c) && ValidRecord(c, r)
    ensures ReadsBack(c, r)
  {
  }

  lemma ReadableContents(c: Codec, data: seq<byte>, records: seq<Record>)
    requires |data| <= MAX_SEGMENT_BYTES && Terminated(data) && Readable(c, RawLines(data), records)
    ensures SegmentContents(c, data) == Some((Segment(|data|, |records|, LastDigest(c, RawLines(data))), records))
  {
  }

  lemma LastDigestOf(c: Codec, lines: seq<seq<byte>>, line: seq<byte>)
    requires line == [] || line[|line| - 1] != CARRIAGE_RETURN
    ensures LastDigest(c, lines + [line]) == c.digest(line)
  {
  }

  lemma SegmentAppend(c: Codec, data: seq<byte>, r: Record)
    requires ReadsBack(c, r)
    requires SegmentContents(c, data).Some?
    requires |SegmentContents(c, data).value.1| < MAX_SEGMENT_RECORDS
    requires |data| + |c.encode(r)| + 1 <= MAX_SEGMENT_BYTES && |c.encode(r)| < SCANNER_BUFFER
    ensures var records := SegmentContents(c, data).value.1;
            SegmentContents(c, data + (c.encode(r) + [NEWLINE]))
            == Some((Segment(|data| + |c.encode(r)| + 1, |records| + 1, c.digest(c.encode(r))), records + [r]))
  {
    var records := SegmentContents(c, data).value.1;
    ContentsReadable(c, data);
    LineRead(c, data, records, r, data + (c.encode(r) + [NEWLINE]));
  }

  lemma LineRead(c: Codec, data: seq<byte>, records: seq<Record>, r: Record, more: seq<byte>)
    requires Terminated(data) && Readable(c, RawLines(data), records) && |RawLines(data)| < MAX_SEGMENT_RECORDS
    requires ReadsBack(c, r) && |c.encode(r)| < SCANNER_BUFFER
    requires more == data + (c.encode(r) + [NEWLINE]) && |more| <= MAX_SEGMENT_BYTES
    ensures SegmentContents(c, more) == Some((Segment(|more|, |records| + 1, c.digest(c.encode(r))), records + [r]))
  {
    LineReadable(c, data, records, r);
    LastDigestOf(c, RawLines(data), c.encode(r));
    ReadableContents(c, more, records + [r]);
  }

  lemma ContentsReadable(c: Codec, data: seq<byte>)
    requires SegmentContents(c, data).Some?
    ensures Terminated(data) && Readable(c, RawLines(data), SegmentContents(c, data).value.1)
    ensures |RawLines(data)| == |SegmentContents(c, data).value.1|
  {
    DecodedCount(c, RawLines(data));
  }

  lemma LineReadable(c: Codec, data: seq<byte>, records: seq<Record>, r: Record)
    requires Terminated(data) && Readable(c, RawLines(data), records) && |RawLines(data)| < MAX_SEGMENT_RECORDS
    requires ReadsBack(c, r) && |c.encode(r)| < SCANNER_BUFFER
    ensures var more := data + (c.encode(r) + [NEWLINE]);
            Terminated(more) && RawLines(more) == RawLines(data) + [c.encode(r)] && Readable(c, RawLines(more), records + [r])
  {
    RawLinesAppend(data, c.encode(r));
    OneMoreReadable(c, RawLines(data), c.encode(r), records, r);
  }

  lemma EmptySegment(c: Codec)
    ensures SegmentContents(c, []) == Some((Segment(0, 0, ""), []))
  {
  }

  // ----- one more record, as the fold sees it -----

  /** The record's body folds into any state with the same operations, lookups and decisions. */
  lemma ApplyIgnoresSegments(c: Codec, s: State, t: State, body: Body)
    requires s.operations == t.operations && s.lookups == t.lookups && s.decisions == t.decisions
    ensures ApplyDecoded(c, s, body).Some? == ApplyDecoded(c, t, body).Some?
    ensures ApplyDecoded(c, s, body).Some? ==>
              ApplyDecoded(c, t, body).value
              == ApplyDecoded(c, s, body).value.(sequence := t.sequence, total := t.total, segments := t.segments)
  {
  }

  /** What the reader must find once the writer's line is on disk. */
  function After(c: Codec, s: State, p: Prepared): Contents
    requires ApplyDecoded(c, s, p.record.body).Some?
  {
    ContentsOf(ApplyDecoded(c, s, p.record.body).value).(sequence := s.sequence + 1, total := s.total + 1)
  }

  lemma FoldOneMore(c: Codec, epoch: nat, records: seq<Record>, s: State, r: Record)
    requires FoldRecords(c, epoch, records, s).Some?
    ensures FoldRecords(c, epoch, records + [r], s)
            == ReadRecord(c, epoch, |records|, r, FoldRecords(c, epoch, records, s).value)
  {
    assert (records + [r])[..|records|] == records;
  }

  lemma ScanLast(c: Codec, files: seq<seq<byte>>, last: seq<byte>)
    requires ScanSegments(c, files).Some?
    ensures var s := ScanSegments(c, files).value;
            ScanSegments(c, files + [last])
            == if s.segments != [] && s.segments[|s.segments| - 1].records == 0 then None else
                 match SegmentContents(c, last)
                 case None => None
                 case Some((segment, records)) =>
                   match FoldRecords(c, |files| + 1, records, s)
                   case None => None
                   case Some(t) => Some(t.(segments := t.segments + [segment]))
  {
    assert (files + [last])[..|files|] == files;
  }

  /** The line fits after `data`, and reads back. */
  predicate LineFits(c: Codec, data: seq<byte>, r: Record) {
    && ReadsBack(c, r)
    && |data| + |c.encode(r)| + 1 <= MAX_SEGMENT_BYTES
    && |c.encode(r)| < SCANNER_BUFFER
  }

  /** The state after one more record at the end of a segment that holds `records` after the files `init`. */
  lemma PlaceRecord(c: Codec, init: seq<seq<byte>>, data: seq<byte>, r: Record)
    requires ScanSegments(c, init + [data]).Some? && LineFits(c, data, r)
    requires |SegmentContents(c, data).value.1| < MAX_SEGMENT_RECORDS
    requires ScanSegments(c, init).Some?
    requires var records, before := SegmentContents(c, data).value.1, ScanSegments(c, init).value;
             FoldRecords(c, |init| + 1, records, before).Some? &&
             ReadRecord(c, |init| + 1, |records|, r, FoldRecords(c, |init| + 1, records, before).value).Some?
    ensures var records, before := SegmentContents(c, data).value.1, ScanSegments(c, init).value;
            var read := ReadRecord(c, |init| + 1, |records|, r, FoldRecords(c, |init| + 1, records, before).value).value;
            var after := ScanSegments(c, init + [data + (c.encode(r) + [NEWLINE])]);
            after.Some? && ContentsOf(after.value) == ContentsOf(read)
  {
    var records, before := SegmentContents(c, data).value.1, ScanSegments(c, init).value;
    SegmentAppend(c, data, r);
    FoldOneMore(c, |init| + 1, records, before, r);
    ScanLast(c, init, data);
    ScanLast(c, init, data + (c.encode(r) + [NEWLINE]));
  }

  /** The last segment is not empty, so another may follow. */
  predicate LastNonEmpty(s: State) {
    s.segments != [] ==> s.segments[|s.segments| - 1].records != 0
  }

  /** A trailing empty segment, as a rolled-back rotation leaves, changes nothing a caller observes. */
  lemma TrailingEmpty(c: Codec, files: seq<seq<byte>>)
    requires ScanSegments(c, files).Some? && LastNonEmpty(ScanSegments(c, files).value)
    ensures ScanSegments(c, files + [[]]).Some?
    ensures ContentsOf(ScanSegments(c, files + [[]]).value) == ContentsOf(ScanSegments(c, files).value)
  {
    EmptySegment(c);
    ScanLast(c, files, []);
  }

  /** A reader at state `t` takes record `r` as the `index`-th of its segment. */
  lemma EnvelopeAccepted(c: Codec, epoch: nat, index: nat, r: Record, s: State, t: State)
    requires ContentsOf(s) == ContentsOf(t) && t.total < MAX_JOURNAL_RECORDS
    requires r.epoch == epoch && r.sequence == t.sequence + 1
    requires if index == 0 && epoch > 1 then r.prior != "" && t.segments != [] && r.prior == t.segments[|t.segments| - 1].lastDigest
             else r.prior == ""
    requires ApplyDecoded(c, s, r.body).Some?
    ensures ReadRecord(c, epoch, index, r, t).Some?
    ensures ContentsOf(ReadRecord(c, epoch, index, r, t).value)
            == ContentsOf(ApplyDecoded(c, s, r.body).value).(sequence := s.sequence + 1, total := s.total + 1)
  {
    ApplyIgnoresSegments(c, s, t.(sequence := r.sequence, total := t.total + 1), r.body);
  }

  /** The prepared line starts a new segment: the first of all, or the one after a full segment. */
  lemma NewSegmentAccepted(c: Codec, files: seq<seq<byte>>, s: State, p: Prepared)
    requires ScanSegments(c, files) == Some(s) && MatchFiles(s, files) && LastNonEmpty(s)
    requires LineFits(c, [], p.record) && p.record.epoch == |files| + 1 && p.record.sequence == s.sequence + 1
    requires s.total < MAX_JOURNAL_RECORDS && p.line == c.encode(p.record) + [NEWLINE]
    requires p.record.prior == if files == [] then "" else s.segments[|files| - 1].lastDigest
    requires ApplyDecoded(c, s, p.record.body).Some?
    ensures ScanSegments(c, files + [p.line]).Some?
    ensures ContentsOf(ScanSegments(c, files + [p.line]).value) == After(c, s, p)
  {
    TrailingEmpty(c, files);
    EmptySegment(c);
    if files != [] { assert Describes(s.segments[|files| - 1], files[|files| - 1]); }
    EnvelopeAccepted(c, |files| + 1, 0, p.record, s, s);
    PlaceRecord(c, files, [], p.record);
    assert [] + p.line == p.line;
  }

  /** The prepared line goes into the last segment. */
  lemma SameSegmentAccepted(c: Codec, init: seq<seq<byte>>, data: seq<byte>, s: State, p: Prepared)
    requires ScanSegments(c, init + [data]) == Some(s) && ScanSegments(c, init).Some?
    requires MatchFiles(s, init + [data]) && MatchFiles(ScanSegments(c, init).value, init)
    requires LineFits(c, data, p.record) && s.segments[|init|].records < MAX_SEGMENT_RECORDS
    requires p.record.epoch == |init| + 1 && p.record.sequence == s.sequence + 1
    requires s.total < MAX_JOURNAL_RECORDS && p.line == c.encode(p.record) + [NEWLINE]
    requires p.record.prior == if init != [] && s.segments[|init|].records == 0 then s.segments[|init| - 1].lastDigest else ""
    requires ApplyDecoded(c, s, p.record.body).Some?
    ensures ScanSegments(c, init + [data + p.line]).Some?
    ensures ContentsOf(ScanSegments(c, init + [data + p.line]).value) == After(c, s, p)
  {
    SameSegmentRead(c, init, data, s, p);
    PlaceRecord(c, init, data, p.record);
  }

  /** The last segment's records fold into the state, and the reader takes the prepared record after them. */
  lemma SameSegmentRead(c: Codec, init: seq<seq<byte>>, data: seq<byte>, s: State, p: Prepared)
    requires ScanSegments(c, init + [data]) == Some(s) && ScanSegments(c, init).Some?
    requires MatchFiles(s, init + [data]) && MatchFiles(ScanSegments(c, init).value, init)
    requires s.segments[|init|].records < MAX_SEGMENT_RECORDS
    requires p.record.epoch == |init| + 1 && p.record.sequence == s.sequence + 1 && s.total < MAX_JOURNAL_RECORDS
    requires p.record.prior == if init != [] && s.segments[|init|].records == 0 then s.segments[|init| - 1].lastDigest else ""
    requires ApplyDecoded(c, s, p.record.body).Some?
    ensures SegmentContents(c, data).Some? && |SegmentContents(c, data).value.1| < MAX_SEGMENT_RECORDS
    ensures var records, before := SegmentContents(c, data).value.1, ScanSegments(c, init).value;
            && FoldRecords(c, |init| + 1, records, before).Some?
            && var read := ReadRecord(c, |init| + 1, |records|, p.record, FoldRecords(c, |init| + 1, records, before).value);
               read.Some? && ContentsOf(read.value) == After(c, s, p)
  {
    var before := ScanSegments(c, init).value;
    ScanLast(c, init, data);
    var (segment, records) := SegmentContents(c, data).value;
    var folded := FoldRecords(c, |init| + 1, records, before).value;
    FoldKeepsSegments(c, |init| + 1, records, before);
    DecodedCount(c, RawLines(data));
    if init != [] { assert Describes(before.segments[|init| - 1], init[|init| - 1]); }
    EnvelopeAccepted(c, |init| + 1, |records|, p.record, s, folded);
  }

  predicate AppendsToLast(s: State, p: Prepared) {
    var k := |s.segments|;
    && k > 0
    && p.epoch == k
    && p.offset == s.segments[k - 1].bytes
    && s.segments[k - 1].records < MAX_SEGMENT_RECORDS
    && p.offset + |p.line| <= MAX_SEGMENT_BYTES
    && p.record.prior == if k > 1 && s.segments[k - 1].records == 0 then s.segments[k - 2].lastDigest else ""
  }

  predicate StartsSegment(s: State, p: Prepared) {
    var k := |s.segments|;
    && p.epoch == k + 1 <= MAX_JOURNAL_EPOCHS
    && p.offset == 0
    && |p.line| <= MAX_SEGMENT_BYTES
    && (k > 0 ==> s.segments[k - 1].lastDigest != "")
    && p.record.prior == if k > 0 then s.segments[k - 1].lastDigest else ""
  }

  /** A prepared append carries the body with the next sequence number, to the last segment if it has room or to the next. */
  lemma PreparedShape(c: Codec, s: State, body: Body)
    requires PrepareAppend(c, s, body).Ok?
    ensures var p := PrepareAppend(c, s, body).value;
            && p.line == c.encode(p.record) + [NEWLINE]
            && ValidRecord(c, p.record)
            && p.record == Record(p.epoch, s.sequence + 1, p.record.prior, body)
            && s.total < MAX_JOURNAL_RECORDS
            && (AppendsToLast(s, p) || StartsSegment(s, p))
  {
  }

  /** The scan of the extended files, before the progressions are checked. */
  predicate Reads(c: Codec, s: State, files: seq<seq<byte>>, p: Prepared)
    requires ApplyDecoded(c, s, p.record.body).Some?
  {
    ScanSegments(c, files).Some? && ContentsOf(ScanSegments(c, files).value) == After(c, s, p)
  }

  /** An append to the last segment, as the files before it and that segment's bytes. */
  lemma AppendsAfter(files: seq<seq<byte>>, s: State, p: Prepared)
    requires MatchFiles(s, files) && AppendsToLast(s, p)
    ensures files != [] && p.epoch == |files| && p.offset == |files[p.epoch - 1]|
    ensures var init, data := files[..|files| - 1], files[|files| - 1];
            && files == init + [data] && Extend(files, p) == init + [data + p.line]
            && s.segments[|init|].records < MAX_SEGMENT_RECORDS && |data| + |p.line| <= MAX_SEGMENT_BYTES
            && p.record.prior == if init != [] && s.segments[|init|].records == 0 then s.segments[|init| - 1].lastDigest else ""
  {
    assert Describes(s.segments[|files| - 1], files[|files| - 1]);
  }

  lemma LastSegmentCase(c: Codec, files: seq<seq<byte>>, s: State, p: Prepared)
    requires ScanSegments(c, files) == Some(s) && MatchFiles(s, files) && AppendsToLast(s, p)
    requires files != [] ==> ScanSegments(c, files[..|files| - 1]).Some?
                             && MatchFiles(ScanSegments(c, files[..|files| - 1]).value, files[..|files| - 1])
    requires ReadsBack(c, p.record) && p.line == c.encode(p.record) + [NEWLINE] && |p.line| <= SCANNER_BUFFER
    requires p.record.epoch == p.epoch && p.record.sequence == s.sequence + 1 && s.total < MAX_JOURNAL_RECORDS
    requires ApplyDecoded(c, s, p.record.body).Some?
    ensures 0 < p.epoch <= |files| && p.offset == |files[p.epoch - 1]| && Reads(c, s, Extend(files, p), p)
  {
    AppendsAfter(files, s, p);
    SameSegmentAccepted(c, files[..|files| - 1], files[|files| - 1], s, p);
  }

  lemma NextSegmentCase(c: Codec, files: seq<seq<byte>>, s: State, p: Prepared)
    requires ScanSegments(c, files) == Some(s) && MatchFiles(s, files) && StartsSegment(s, p)
    requires ReadsBack(c, p.record) && p.line == c.encode(p.record) + [NEWLINE] && |p.line| <= SCANNER_BUFFER
    requires p.record.epoch == p.epoch && p.record.sequence == s.sequence + 1 && s.total < MAX_JOURNAL_RECORDS
    requires ApplyDecoded(c, s, p.record.body).Some?
    ensures p.epoch == |files| + 1 && p.offset == 0 && Reads(c, s, Extend(files, p), p)
  {
    if files != [] { assert Describes(s.segments[|files| - 1], files[|files| - 1]); }
    NewSegmentAccepted(c, files, s, p);
  }

  /** A journal that reads to `s` reads, once the prepared line is on disk, to `s` and exactly the new record. */
  lemma WriterRefinesReader(c: Codec, files: seq<seq<byte>>, s: State, body: Body, p: Prepared)
    requires CanonicalCodec(c) && CompactCodec(c) && ScanFiles(c, files) == Some(s)
    requires PrepareAppend(c, s, body) == Ok(p) && Admits(c, s, body)
    ensures p.record.body == body
    ensures 0 < p.epoch <= |files| + 1 && p.offset == if p.epoch <= |files| then |files[p.epoch - 1]| else 0
    ensures ScanFiles(c, Extend(files, p)).Some?
    ensures ContentsOf(ScanFiles(c, Extend(files, p)).value) == After(c, s, p)
  {
    PreparedShape(c, s, body);
    ValidLineFits(c, p.record);
    ShortLineRead(c, files, s, body, p);
  }

  /** The same for any codec, of a line that fits the reader's buffer. */
  lemma ShortLineRead(c: Codec, files: seq<seq<byte>>, s: State, body: Body, p: Prepared)
    requires CanonicalCodec(c) && ScanFiles(c, files) == Some(s)
    requires PrepareAppend(c, s, body) == Ok(p) && Admits(c, s, body) && |p.line| <= SCANNER_BUFFER
    ensures p.record.body == body
    ensures 0 < p.epoch <= |files| + 1 && p.offset == if p.epoch <= |files| then |files[p.epoch - 1]| else 0
    ensures ScanFiles(c, Extend(files, p)).Some?
    ensures ContentsOf(ScanFiles(c, Extend(files, p)).value) == After(c, s, p)
  {
    SegmentsMatchFiles(c, files);
    PreparedShape(c, s, body);
    ValidReadsBack(c, p.record);
    LinePlaced(c, files, s, p);
    ScannedOn(c, s, Extend(files, p), p);
  }

  lemma LinePlaced(c: Codec, files: seq<seq<byte>>, s: State, p: Prepared)
    requires CanonicalCodec(c) && ScanSegments(c, files) == Some(s) && MatchFiles(s, files)
    requires AppendsToLast(s, p) || StartsSegment(s, p)
    requires ReadsBack(c, p.record) && p.line == c.encode(p.record) + [NEWLINE] && |p.line| <= SCANNER_BUFFER
    requires p.record.epoch == p.epoch && p.record.sequence == s.sequence + 1 && s.total < MAX_JOURNAL_RECORDS
    requires ApplyDecoded(c, s, p.record.body).Some? && |files| <= MAX_JOURNAL_EPOCHS
    ensures 0 < p.epoch <= |files| + 1 && p.offset == if p.epoch <= |files| then |files[p.epoch - 1]| else 0
    ensures |Extend(files, p)| <= MAX_JOURNAL_EPOCHS && Reads(c, s, Extend(files, p), p)
  {
    if AppendsToLast(s, p) {
      SegmentsMatchFiles(c, files[..|files| - 1]);
      LastSegmentCase(c, files, s, p);
    } else {
      NextSegmentCase(c, files, s, p);
    }
  }

  /** The progressions of the state read are those of the state the record was admitted to. */
  lemma ScannedOn(c: Codec, s: State, files: seq<seq<byte>>, p: Prepared)
    requires Admits(c, s, p.record.body) && |files| <= MAX_JOURNAL_EPOCHS && Reads(c, s, files, p)
    ensures ScanFiles(c, files).Some? && ContentsOf(ScanFiles(c, files).value) == After(c, s, p)
  {
  }

  lemma LongLineRefused(c: Codec, files: seq<seq<byte>>, data: seq<byte>, line: seq<byte>)
    requires files != [] && files[|files| - 1] == data + (line + [NEWLINE])
    requires Terminated(data) && NEWLINE !in line && |line| >= SCANNER_BUFFER
    ensures ScanSegments(c, files) == None
  {
    RawLinesAppend(data, line);
    var lines := RawLines(data + (line + [NEWLINE]));
    assert lines[|lines| - 1] == line;
  }

  lemma LongLineCase(c: Codec, files: seq<seq<byte>>, s: State, p: Prepared)
    requires ScanSegments(c, files) == Some(s) && MatchFiles(s, files) && (AppendsToLast(s, p) || StartsSegment(s, p))
    requires ReadsBack(c, p.record) && p.line == c.encode(p.record) + [NEWLINE] && |p.line| > SCANNER_BUFFER
    ensures 0 < p.epoch <= |files| + 1 && ScanFiles(c, Extend(files, p)) == None
  {
    if AppendsToLast(s, p) {
      AppendsAfter(files, s, p);
      LastReads(c, files);
      LongLineRefused(c, Extend(files, p), files[|files| - 1], c.encode(p.record));
    } else {
      assert [] + p.line == p.line;
      LongLineRefused(c, Extend(files, p), [], c.encode(p.record));
    }
  }

  lemma LastReads(c: Codec, files: seq<seq<byte>>)
    requires files != [] && ScanSegments(c, files).Some?
    ensures SegmentContents(c, files[|files| - 1]).Some?
  {
  }

  /**
    The extended journal reads if and only if the new line fits the reader's buffer. The writer never checks that: it is the
    validation's bounds that see to it.
   */
  lemma ReadableIffLineFits(c: Codec, files: seq<seq<byte>>, s: State, body: Body, p: Prepared)
    requires CanonicalCodec(c) && ScanFiles(c, files) == Some(s)
    requires PrepareAppend(c, s, body) == Ok(p) && Admits(c, s, body)
    ensures 0 < p.epoch <= |files| + 1
    ensures ScanFiles(c, Extend(files, p)).Some? <==> |p.line| <= SCANNER_BUFFER
  {
    if |p.line| <= SCANNER_BUFFER {
      ShortLineRead(c, files, s, body, p);
    } else {
      SegmentsMatchFiles(c, files);
      PreparedShape(c, s, body);
      ValidReadsBack(c, p.record);
      LongLineCase(c, files, s, p);
    }
  }

  // ----- the reader accepts a little more than the writer makes -----

  /** The bytes a writer makes of these records. */
  function Written(c: Codec, records: seq<Record>): seq<byte> {
    if records == [] then [] else
      Written(c, records[..|records| - 1]) + (c.encode(records[|records| - 1]) + [NEWLINE])
  }

  predicate NoCarriageReturn(lines: seq<seq<byte>>) {
    forall i :: 0 <= i < |lines| ==> DropCarriageReturn(lines[i]) == lines[i]
  }

  /** Dropping a carriage return is the only way an accepted line is longer than what a writer makes of its record. */
  predicate Canonical(c: Codec, lines: seq<seq<byte>>, data: seq<byte>)
    requires DecodeAll(c, lines).Some?
  {
    var written := Written(c, DecodeAll(c, lines).value);
    if NoCarriageReturn(lines) then written == data else |written| < |data|
  }

  lemma WrittenMore(c: Codec, records: seq<Record>, r: Record)
    ensures Written(c, records + [r]) == Written(c, records) + (c.encode(r) + [NEWLINE])
  {
    assert (records + [r])[..|records|] == records;
  }

  lemma NoReturnMore(lines: seq<seq<byte>>, line: seq<byte>)
    ensures NoCarriageReturn(lines + [line]) <==> NoCarriageReturn(lines) && DropCarriageReturn(line) == line
  {
    var more := lines + [line];
    assert more[|lines|] == line;
    if NoCarriageReturn(more) {
      forall i | 0 <= i < |lines| ensures DropCarriageReturn(lines[i]) == lines[i] { assert more[i] == lines[i]; }
    }
  }

  lemma DecodeMore(c: Codec, lines: seq<seq<byte>>, line: seq<byte>, r: Record)
    requires DecodeAll(c, lines).Some? && c.decode(DropCarriageReturn(line)) == Some(r)
    ensures DecodeAll(c, lines + [line]) == Some(DecodeAll(c, lines).value + [r])
  {
    assert (lines + [line])[..|lines|] == lines;
  }

  lemma CanonicalOneMore(c: Codec, lines: seq<seq<byte>>, init: seq<byte>, line: seq<byte>, r: Record)
    requires DecodeAll(c, lines).Some? && Canonical(c, lines, init)
    requires c.decode(DropCarriageReturn(line)) == Some(r) && c.encode(r) == DropCarriageReturn(line)
    ensures DecodeAll(c, lines + [line]).Some? && Canonical(c, lines + [line], init + (line + [NEWLINE]))
  {
    DecodeMore(c, lines, line, r);
    WrittenMore(c, DecodeAll(c, lines).value, r);
    NoReturnMore(lines, line);
  }

  ghost predicate DecodesCanonically(c: Codec) {
    forall line: seq<byte> {:trigger c.decode(line)} :: c.decode(line).Some? ==> c.encode(c.decode(line).value) == line
  }

  lemma DecodesLast(c: Codec, lines: seq<seq<byte>>, line: seq<byte>)
    requires DecodesCanonically(c) && DecodeAll(c, lines + [line]).Some?
    ensures DecodeAll(c, lines).Some?
    ensures var r := c.decode(DropCarriageReturn(line)); r.Some? && c.encode(r.value) == DropCarriageReturn(line)
  {
    assert (lines + [line])[..|lines|] == lines;
  }

  lemma SplitLast(data: seq<byte>) returns (init: seq<byte>, line: seq<byte>)
    requires data != [] && Terminated(data)
    ensures |init| < |data| && Terminated(init) && RawLines(data) == RawLines(init) + [line] && data == init + (line + [NEWLINE])
  {
    var start := LastLineStart(data);
    LastLine(data, start);
    init, line := data[..start], data[start..|data| - 1];
  }

  lemma {:induction false} AcceptedLengths(c: Codec, data: seq<byte>)
    requires DecodesCanonically(c) && Terminated(data) && DecodeAll(c, RawLines(data)).Some?
    ensures Canonical(c, RawLines(data), data)
    decreases |data|
  {
    if data != [] {
      var init, line := SplitLast(data);
      DecodesLast(c, RawLines(init), line);
      AcceptedLengths(c, init);
      CanonicalOneMore(c, RawLines(init), init, line, c.decode(DropCarriageReturn(line)).value);
    }
  }

  /** A record's line with a carriage return before its newline is accepted, and read as that record. */
  lemma ReturnAccepted(c: Codec, r: Record)
    requires CanonicalCodec(c) && ValidRecord(c, r) && |c.encode(r)| + 1 < SCANNER_BUFFER
    ensures var data := c.encode(r) + [CARRIAGE_RETURN] + [NEWLINE];
            && SegmentContents(c, data).Some? && SegmentContents(c, data).value.1 == [r] && data != Written(c, [r])
  {
    var line := c.encode(r) + [CARRIAGE_RETURN];
    var data := line + [NEWLINE];
    assert NEWLINE !in line && DropCarriageReturn(line) == c.encode(r);
    RawLinesAppend([], line);
    assert [] + data == data && [] + [line] == [line] && [] + [r] == [r];
    OneMoreReadable(c, [], line, [], r);
    ReadableContents(c, data, [r]);
    WrittenMore(c, [], r);
  }

  /** An accepted segment is byte for byte what a writer makes of its records, unless a line ends in a carriage return. */
  lemma AcceptedBytes(c: Codec, data: seq<byte>)
    requires CanonicalCodec(c) && SegmentContents(c, data).Some?
    ensures data == Written(c, SegmentContents(c, data).value.1) <==> NoCarriageReturn(RawLines(data))
  {
    AcceptedLengths(c, data);
  }
}
