/**
  Codecs that meet every hypothesis the theorems make, written in plain tokens. The real ones are JSON and SHA-256.
 */
module Witnesses {
  import opened Results
  import opened ByteLines
  import opened Tokens
  import opened LinkedHistory
  import opened AttemptStore
  import J = Journal
  import JournalTheorems
  import JournalOperations
  import D = AppendDisk
  import AppendTheorems
  import ShardDisk
  import RunDisk
  import Durability

  // ----- a digest no two lines share -----

  function Bits(b: byte): (s: string)
    ensures |s| == 8
  {
    [if b & 1 == 0 then '0' else '1', if b & 2 == 0 then '0' else '1', if b & 4 == 0 then '0' else '1',
     if b & 8 == 0 then '0' else '1', if b & 16 == 0 then '0' else '1', if b & 32 == 0 then '0' else '1',
     if b & 64 == 0 then '0' else '1', if b & 128 == 0 then '0' else '1']
  }

  lemma BitsFix(a: byte, b: byte)
    requires Bits(a) == Bits(b)
    ensures a == b
  {
    var s, t := Bits(a), Bits(b);
    assert s[0] == t[0] && s[1] == t[1] && s[2] == t[2] && s[3] == t[3];
    assert s[4] == t[4] && s[5] == t[5] && s[6] == t[6] && s[7] == t[7];
  }

  function Whole(line: seq<byte>): (s: string)
    ensures |s| == 8 * |line| + 1
  {
    if line == [] then "." else Whole(line[..|line| - 1]) + Bits(line[|line| - 1])
  }

  lemma {:induction false} WholeFixes(a: seq<byte>, b: seq<byte>)
    requires Whole(a) == Whole(b)
    ensures a == b
  {
    assert |a| == |b|;
    if a != [] {
      var x, y := Whole(a[..|a| - 1]), Whole(b[..|b| - 1]);
      assert x == Whole(a)[..|x|] && y == Whole(b)[..|y|];
      assert Bits(a[|a| - 1]) == Whole(a)[|x|..] && Bits(b[|b| - 1]) == Whole(b)[|y|..];
      BitsFix(a[|a| - 1], b[|b| - 1]);
      WholeFixes(a[..|a| - 1], b[..|b| - 1]);
      assert a == a[..|a| - 1] + [a[|a| - 1]] && b == b[..|b| - 1] + [b[|b| - 1]];
    }
  }

  // ----- linked histories -----

  function EntryTokens(r: Entry): (tokens: seq<seq<byte>>)
    ensures AllClean(tokens) && |tokens| == 5
  {
    [Number(r.sequence), Text(r.prior), Text(r.key), Text(r.value), Number(r.inode)]
  }

  function EncodeEntry(r: Entry): (line: seq<byte>)
    ensures line != [] && NEWLINE !in line
  {
    Spelled(EntryTokens(r))
  }

  lemma EntryFixes(a: Entry, b: Entry)
    requires EncodeEntry(a) == EncodeEntry(b)
    ensures a == b
  {
    var s, t := EntryTokens(a), EntryTokens(b);
    assert Spelled(s) + [] == Spelled(t) + [];
    SpelledFixes(s, [], t, []);
    assert s[0] == t[0] && s[1] == t[1] && s[2] == t[2] && s[3] == t[3] && s[4] == t[4];
    NumberFixes(a.sequence, b.sequence);
    TextFixes(a.prior, b.prior);
    TextFixes(a.key, b.key);
    TextFixes(a.value, b.value);
    NumberFixes(a.inode, b.inode);
  }

  ghost function DecodeEntry(line: seq<byte>): Option<Entry> {
    if exists r :: ValidEntry(r) && EncodeEntry(r) == line
    then var r :| ValidEntry(r) && EncodeEntry(r) == line; Some(r)
    else None
  }

  ghost function PlainHistory(maxLine: nat): HistoryCodec {
    HistoryCodec(EncodeEntry, DecodeEntry, Whole, maxLine)
  }

  /** A history codec with an injective digest, for every bound on a line. */
  lemma PlainHistoryIsCanonical(maxLine: nat)
    ensures CanonicalHistory(PlainHistory(maxLine)) && PlainHistory(maxLine).maxLine == maxLine
    ensures forall x, y: seq<byte> {:trigger PlainHistory(maxLine).digest(x), PlainHistory(maxLine).digest(y)} ::
              PlainHistory(maxLine).digest(x) == PlainHistory(maxLine).digest(y) ==> x == y
  {
    forall r: Entry | ValidEntry(r) ensures DecodeEntry(EncodeEntry(r)) == Some(r) {
      var got := DecodeEntry(EncodeEntry(r)).value;
      EntryFixes(got, r);
    }
    forall x: seq<byte>, y: seq<byte> | Whole(x) == Whole(y) ensures x == y {
      WholeFixes(x, y);
    }
  }

  // ----- reservations -----

  function ReservationTokens(run: string, rest: string): (tokens: seq<seq<byte>>)
    ensures AllClean(tokens) && |tokens| == 2
  {
    [Text(run), Text(rest)]
  }

  function EncodeReservation(r: Reservation): (data: seq<byte>)
    ensures data != [] && data[0] != MARK
  {
    Spelled(ReservationTokens(r.run, r.rest))
  }

  function PlainKey(run: string, rest: string): string {
    Whole(Spelled(ReservationTokens(run, rest)))
  }

  ghost function DecodeReservation(data: seq<byte>): Option<Reservation> {
    if exists r: Reservation :: r.key == PlainKey(r.run, r.rest) && EncodeReservation(r) == data
    then var r: Reservation :| r.key == PlainKey(r.run, r.rest) && EncodeReservation(r) == data; Some(r)
    else None
  }

  ghost function PlainReservations(): ReservationCodec {
    ReservationCodec(EncodeReservation, DecodeReservation, PlainKey)
  }

  /** What follows a reservation's bytes does not matter. */
  lemma ReservationFixes(a: Reservation, x: seq<byte>, b: Reservation, y: seq<byte>)
    requires EncodeReservation(a) + x == EncodeReservation(b) + y
    ensures a.run == b.run && a.rest == b.rest && x == y
  {
    var s, t := ReservationTokens(a.run, a.rest), ReservationTokens(b.run, b.rest);
    SpelledFixes(s, x, t, y);
    assert s[0] == t[0] && s[1] == t[1];
    TextFixes(a.run, b.run);
    TextFixes(a.rest, b.rest);
  }

  lemma KeysFix(a: string, b: string, x: string, y: string)
    requires PlainKey(a, b) == PlainKey(x, y)
    ensures a == x && b == y
  {
    WholeFixes(Spelled(ReservationTokens(a, b)), Spelled(ReservationTokens(x, y)));
    var r, s := Reservation("", a, b), Reservation("", x, y);
    assert EncodeReservation(r) + [] == EncodeReservation(s) + [];
    ReservationFixes(r, [], s, []);
  }

  lemma DecodesReservation(r: Reservation)
    requires r.key == PlainKey(r.run, r.rest)
    ensures DecodeReservation(EncodeReservation(r)) == Some(r)
  {
    var got := DecodeReservation(EncodeReservation(r)).value;
    assert EncodeReservation(got) + [] == EncodeReservation(r) + [];
    ReservationFixes(got, [], r, []);
  }

  lemma TornNever(r: Reservation, got: Reservation)
    ensures !(EncodeReservation(got) < EncodeReservation(r))
  {
    if EncodeReservation(got) < EncodeReservation(r) {
      var x := EncodeReservation(r)[|EncodeReservation(got)|..];
      assert EncodeReservation(got) + x == EncodeReservation(r) + [];
      ReservationFixes(got, x, r, []);
    }
  }

  lemma PlainReservationsAreCanonical()
    ensures CanonicalReservations(PlainReservations())
  {
    PlainReservationsDecode();
    PlainReservationsAreTorn();
    PlainReservationsAreWhole();
    PlainKeysFix();
  }

  lemma PlainKeysFix()
    ensures var c := PlainReservations();
            forall a, b, x, y: string {:trigger c.keyOf(a, b), c.keyOf(x, y)} :: c.keyOf(a, b) == c.keyOf(x, y) ==> a == x && b == y
  {
    var c := PlainReservations();
    forall a, b, x, y: string {:trigger c.keyOf(a, b), c.keyOf(x, y)} | c.keyOf(a, b) == c.keyOf(x, y) ensures a == x && b == y {
      KeysFix(a, b, x, y);
    }
  }

  lemma PlainReservationsAreWhole()
    ensures forall r: Reservation :: PlainReservations().encode(r) != [] && PlainReservations().encode(r)[0] != MARK
    ensures var c := PlainReservations();
            forall data: seq<byte> :: c.decode(data).Some? ==> c.encode(c.decode(data).value) == data && Genuine(c, c.decode(data).value)
  {
  }

  lemma PlainReservationsDecode()
    ensures forall r: Reservation :: Genuine(PlainReservations(), r) ==> PlainReservations().decode(PlainReservations().encode(r)) == Some(r)
  {
    var c := PlainReservations();
    forall r: Reservation | Genuine(c, r) ensures c.decode(c.encode(r)) == Some(r) {
      DecodesReservation(r);
    }
  }

  lemma PlainReservationsAreTorn()
    ensures var c := PlainReservations();
            forall r: Reservation, torn: seq<byte> {:trigger c.encode(r), c.decode(torn)} :: torn < c.encode(r) ==> c.decode(torn) == None
  {
    var c := PlainReservations();
    forall r: Reservation, torn: seq<byte> {:trigger c.encode(r), c.decode(torn)} | torn < c.encode(r) ensures c.decode(torn) == None {
      if c.decode(torn).Some? { TornNever(r, c.decode(torn).value); }
    }
  }

  /** With that codec there are reservations short enough to be made. */
  lemma ShortReservation(run: string)
    ensures var r := Reservation(PlainKey(run, ""), run, "");
            Genuine(PlainReservations(), r) && |PlainReservations().encode(r)| == 6 * |run| + 2
  {
    var tokens := ReservationTokens(run, "");
    SpelledSize(tokens);
    SizeOfTwo(tokens[0], tokens[1]);
    assert tokens == [tokens[0], tokens[1]];
  }

  lemma SizeOfTwo(a: seq<byte>, b: seq<byte>)
    ensures Size([a, b]) == |a| + |b| + 2
  {
    assert [a, b][1..] == [b] && [b][1..] == [];
    assert Size([b]) == |b| + 1 + Size([]);
  }

  // ----- journal records -----

  function StatusNumber(s: J.Status): nat {
    match s
    case Received => 0
    case Rejected => 1
    case Claimed => 2
    case Applied => 3
    case ReconciliationRequired => 4
    case ReconciledApplied => 5
    case ReconciledNotApplied => 6
  }

  /** The body's numbers and strings: always as many numbers, and strings that the numbers tell apart. */
  function BodyNumbers(body: J.Body): (nat, nat) {
    match body
    case ReceiptBody(x) => (1, if x.action.Decision? then 1 else 0)
    case ClaimBody(_) => (2, 0)
    case OutcomeBody(x) => (3, StatusNumber(x.status))
  }

  function BodyStrings(body: J.Body): seq<string> {
    match body
    case ReceiptBody(x) =>
      [x.operation, x.lookup, x.principal, x.request, x.run, if x.action.Decision? then x.action.request else "",
       x.transition, x.ownerLease, x.rest]
    case ClaimBody(x) => [x.operation, x.transition, x.ownerLease, x.event, x.claimedAt]
    case OutcomeBody(x) => [x.operation, x.reason, x.recordedAt] + x.events
  }

  lemma BodyFixed(a: J.Body, b: J.Body)
    requires BodyNumbers(a) == BodyNumbers(b) && BodyStrings(a) == BodyStrings(b)
    ensures a == b
  {
    var s, t := BodyStrings(a), BodyStrings(b);
    assert s[0] == t[0] && s[1] == t[1] && s[2] == t[2];
    match a
    case ReceiptBody(_) => assert s[3] == t[3] && s[4] == t[4] && s[5] == t[5] && s[6] == t[6] && s[7] == t[7] && s[8] == t[8];
    case ClaimBody(_) => assert s[3] == t[3] && s[4] == t[4];
    case OutcomeBody(x) => assert x.events == s[3..] && b.outcome.events == t[3..];
  }

  function RecordNumbers(r: J.Record): (tokens: seq<seq<byte>>)
    ensures AllClean(tokens) && |tokens| == 4
  {
    [Number(r.epoch), Number(r.sequence), Number(BodyNumbers(r.body).0), Number(BodyNumbers(r.body).1)]
  }

  function RecordTokens(r: J.Record): (tokens: seq<seq<byte>>)
    ensures AllClean(tokens)
  {
    RecordNumbers(r) + Texts([r.prior] + BodyStrings(r.body))
  }

  function EncodeRecord(r: J.Record): (line: seq<byte>)
    ensures line != [] && NEWLINE !in line && CARRIAGE_RETURN !in line
  {
    Spelled(RecordTokens(r))
  }

  lemma RecordFixes(a: J.Record, b: J.Record)
    requires EncodeRecord(a) == EncodeRecord(b)
    ensures a == b
  {
    SpelledWhole(RecordTokens(a), RecordTokens(b));
    var s, t := RecordNumbers(a), RecordNumbers(b);
    assert s == RecordTokens(a)[..4] && t == RecordTokens(b)[..4];
    assert s[0] == t[0] && s[1] == t[1] && s[2] == t[2] && s[3] == t[3];
    NumberFixes(a.epoch, b.epoch);
    NumberFixes(a.sequence, b.sequence);
    NumberFixes(BodyNumbers(a.body).0, BodyNumbers(b.body).0);
    NumberFixes(BodyNumbers(a.body).1, BodyNumbers(b.body).1);
    var x, y := [a.prior] + BodyStrings(a.body), [b.prior] + BodyStrings(b.body);
    assert Texts(x) == RecordTokens(a)[4..] && Texts(y) == RecordTokens(b)[4..];
    TextsFix(x, y);
    assert x[0] == a.prior && y[0] == b.prior && x[1..] == BodyStrings(a.body) && y[1..] == BodyStrings(b.body);
    BodyFixed(a.body, b.body);
  }

  ghost function PlainJournal(): J.Codec {
    J.Codec(EncodeRecord, DecodeRecord, _ => ".", (_, request) => request, _ => true)
  }

  predicate PlainlyValid(r: J.Record) {
    && 0 < r.epoch < J.WORD && 0 < r.sequence < J.WORD && |r.prior| <= J.DIGEST_LENGTH && J.Bounded(r.body)
    && match r.body
       case ReceiptBody(receipt) => (receipt.action.Cancel? <==> receipt.ownerLease != "")
       case ClaimBody(_) => true
       case OutcomeBody(outcome) => J.OutcomeStatus(outcome.status)
  }

  ghost function DecodeRecord(line: seq<byte>): Option<J.Record> {
    if exists r :: PlainlyValid(r) && EncodeRecord(r) == line
    then var r :| PlainlyValid(r) && EncodeRecord(r) == line; Some(r)
    else None
  }

  lemma {:induction false} TextsSize(strings: seq<string>)
    ensures Size(Texts(strings)) == 6 * J.Sum(strings) + |strings|
  {
    if strings != [] {
      TextsSize(strings[1..]);
      assert Texts(strings)[1..] == Texts(strings[1..]);
    }
  }

  lemma {:induction false} SumMore(a: seq<string>, b: seq<string>)
    ensures J.Sum(a + b) == J.Sum(a) + J.Sum(b)
  {
    if a == [] {
      assert a + b == b;
    } else {
      assert (a + b)[1..] == a[1..] + b;
      SumMore(a[1..], b);
    }
  }

  lemma SumOne(a: string)
    ensures J.Sum([a]) == |a|
  {
    assert [a][1..] == [];
  }

  lemma SumThree(a: string, b: string, c: string)
    ensures J.Sum([a, b, c]) == |a| + |b| + |c|
  {
    SumOne(a);
    SumOne(b);
    SumOne(c);
    SumMore([a], [b]);
    SumMore([a] + [b], [c]);
    assert [a, b, c] == [a] + [b] + [c];
  }

  lemma StringsSum(body: J.Body)
    ensures J.Sum(BodyStrings(body)) == J.Characters(J.Record(1, 1, "", body))
  {
    match body {
      case ReceiptBody(x) =>
        var action := if x.action.Decision? then x.action.request else "";
        SumThree(x.operation, x.lookup, x.principal);
        SumThree(x.request, x.run, action);
        SumThree(x.transition, x.ownerLease, x.rest);
        var s, t, u := [x.operation, x.lookup, x.principal], [x.request, x.run, action], [x.transition, x.ownerLease, x.rest];
        SumMore(s, t);
        SumMore(s + t, u);
        assert BodyStrings(body) == s + t + u;
      case ClaimBody(x) =>
        SumThree(x.operation, x.transition, x.ownerLease);
        SumThree(x.event, x.claimedAt, "");
        SumOne("");
        var s, t := [x.operation, x.transition, x.ownerLease], [x.event, x.claimedAt];
        SumMore(t, [""]);
        SumMore(s, t);
        assert t + [""] == [x.event, x.claimedAt, ""];
        assert BodyStrings(body) == s + t;
      case OutcomeBody(x) =>
        SumThree(x.operation, x.reason, x.recordedAt);
        SumMore([x.operation, x.reason, x.recordedAt], x.events);
    }
  }

  lemma SixteenDigits(n: nat)
    requires n < J.WORD
    ensures |Number(n)| <= 16
  {
    assert Power(4) == 0x1_0000 by { assert Power(2) == 256; }
    PowerSum(4, 4);
    PowerSum(8, 8);
    NumberLength(n, 16);
  }

  lemma OneDigit(n: nat)
    requires n < 16
    ensures |Number(n)| <= 1
  {
    assert Power(1) == 16;
    NumberLength(n, 1);
  }

  lemma SizeOfFour(a: seq<byte>, b: seq<byte>, c: seq<byte>, d: seq<byte>)
    ensures Size([a, b, c, d]) == |a| + |b| + |c| + |d| + 4
  {
    SizeOfTwo(a, b);
    SizeOfTwo(c, d);
    SizeMore([a, b], [c, d]);
    assert [a, b, c, d] == [a, b] + [c, d];
  }

  lemma NumbersSize(r: J.Record)
    requires r.epoch < J.WORD && r.sequence < J.WORD
    ensures Size(RecordNumbers(r)) <= 38
  {
    SixteenDigits(r.epoch);
    SixteenDigits(r.sequence);
    OneDigit(BodyNumbers(r.body).0);
    OneDigit(BodyNumbers(r.body).1);
    SizeOfFour(Number(r.epoch), Number(r.sequence), Number(BodyNumbers(r.body).0), Number(BodyNumbers(r.body).1));
  }

  lemma RecordIsCompact(r: J.Record)
    requires PlainlyValid(r)
    ensures |EncodeRecord(r)| <= 2048 + 6 * J.Characters(r)
  {
    var strings := [r.prior] + BodyStrings(r.body);
    SpelledSize(RecordTokens(r));
    SizeMore(RecordNumbers(r), Texts(strings));
    NumbersSize(r);
    TextsSize(strings);
    SumMore([r.prior], BodyStrings(r.body));
    SumOne(r.prior);
    StringsSum(r.body);
  }

  /** A journal codec whose lines are as compact as JSON's. */
  lemma PlainJournalIsCanonical()
    ensures J.CanonicalCodec(PlainJournal()) && J.CompactCodec(PlainJournal())
  {
    var c := PlainJournal();
    forall r: J.Record | J.ValidRecord(c, r) ensures c.decode(c.encode(r)) == Some(r) {
      assert PlainlyValid(r);
      var got := DecodeRecord(EncodeRecord(r)).value;
      RecordFixes(got, r);
    }
    forall r: J.Record {:trigger c.encode(r)} | J.ValidRecord(c, r) ensures |c.encode(r)| <= 2048 + 6 * J.Characters(r) {
      assert PlainlyValid(r);
      RecordIsCompact(r);
    }
  }

  // ----- rollback markers -----

  function PendingTokens(p: D.Pending): (tokens: seq<seq<byte>>)
    ensures AllClean(tokens) && |tokens| == 2
  {
    [Number(p.epoch), Number(p.size)]
  }

  function EncodePending(p: D.Pending): (data: seq<byte>)
    ensures data != []
  {
    Spelled(PendingTokens(p))
  }

  ghost function DecodePending(data: seq<byte>): Option<D.Pending> {
    if exists p :: EncodePending(p) == data then var p :| EncodePending(p) == data; Some(p) else None
  }

  ghost function PlainMarkers(): D.MarkerCodec {
    D.MarkerCodec(EncodePending, DecodePending)
  }

  lemma PendingFixes(a: D.Pending, x: seq<byte>, b: D.Pending, y: seq<byte>)
    requires EncodePending(a) + x == EncodePending(b) + y
    ensures a == b && x == y
  {
    var s, t := PendingTokens(a), PendingTokens(b);
    SpelledFixes(s, x, t, y);
    assert s[0] == t[0] && s[1] == t[1];
    NumberFixes(a.epoch, b.epoch);
    NumberFixes(a.size, b.size);
  }

  lemma DecodesPending(p: D.Pending)
    ensures DecodePending(EncodePending(p)) == Some(p)
  {
    var got := DecodePending(EncodePending(p)).value;
    assert EncodePending(got) + [] == EncodePending(p) + [];
    PendingFixes(got, [], p, []);
  }

  lemma TornPending(p: D.Pending, got: D.Pending)
    ensures !(EncodePending(got) < EncodePending(p))
  {
    if EncodePending(got) < EncodePending(p) {
      var x := EncodePending(p)[|EncodePending(got)|..];
      assert EncodePending(got) + x == EncodePending(p) + [];
      PendingFixes(got, x, p, []);
    }
  }

  lemma PlainMarkersAreFramed()
    ensures D.Framed(PlainMarkers())
  {
    var m := PlainMarkers();
    forall p: D.Pending ensures m.decode(m.encode(p)) == Some(p) {
      DecodesPending(p);
    }
    forall p: D.Pending, torn: seq<byte> {:trigger m.decode(torn), m.encode(p)} | torn < m.encode(p) ensures m.decode(torn) == None {
      if m.decode(torn).Some? { TornPending(p, m.decode(torn).value); }
    }
  }

  // ----- the first steps of each component -----

  function EmptyDirectory(): D.Disk {
    D.Disk(D.Slot(None, {None}), seq(J.MAX_JOURNAL_EPOCHS, _ => D.Slot(None, {None})))
  }

  /** An empty run directory is a journal at rest. */
  lemma FirstJournal()
    ensures D.WellFormed(EmptyDirectory(), 1) && D.Settled(PlainMarkers(), EmptyDirectory(), [])
    ensures AppendTheorems.IsJournal(PlainJournal(), [])
  {
    assert D.Harmless(PlainMarkers(), EmptyDirectory(), []);
  }

  function FirstBody(operation: string, run: string): J.Body {
    J.ReceiptBody(J.Receipt(operation, "", "", "", run, J.Cancel, "", ".", ""))
  }

  lemma FirstLine(operation: string, run: string)
    requires |operation| <= J.MAX_IDENTIFIER && |run| <= J.MAX_IDENTIFIER
    ensures var r := J.Record(1, 1, "", FirstBody(operation, run));
            J.ValidRecord(PlainJournal(), r) && |EncodeRecord(r)| < J.SCANNER_BUFFER
  {
    PlainJournalIsCanonical();
    J.ValidLineFits(PlainJournal(), J.Record(1, 1, "", FirstBody(operation, run)));
  }

  /** It admits a first record, and there is a line to append for it. */
  lemma FirstRecord(operation: string, run: string)
    requires |operation| <= J.MAX_IDENTIFIER && |run| <= J.MAX_IDENTIFIER
    ensures JournalTheorems.Admits(PlainJournal(), J.EMPTY_STATE, FirstBody(operation, run))
    ensures J.PrepareAppend(PlainJournal(), J.EMPTY_STATE, FirstBody(operation, run)).Ok?
  {
    FirstLine(operation, run);
  }

  /** Its line with a carriage return before the newline is a segment the reader accepts and no writer makes. */
  lemma FirstLineWithReturn(operation: string, run: string)
    requires |operation| <= J.MAX_IDENTIFIER && |run| <= J.MAX_IDENTIFIER
    ensures var c, r := PlainJournal(), J.Record(1, 1, "", FirstBody(operation, run));
            var data := c.encode(r) + [CARRIAGE_RETURN] + [NEWLINE];
            && J.SegmentContents(c, data).Some? && J.SegmentContents(c, data).value.1 == [r]
            && data != JournalTheorems.Written(c, [r])
  {
    var r := J.Record(1, 1, "", FirstBody(operation, run));
    FirstLine(operation, run);
    RecordIsCompact(r);
    PlainJournalIsCanonical();
    JournalTheorems.ReturnAccepted(PlainJournal(), r);
  }

  /** What a scan reads once the first record is on disk. */
  lemma FirstScan(operation: string, run: string)
    requires |operation| <= J.MAX_IDENTIFIER && |run| <= J.MAX_IDENTIFIER
    ensures var c, body := PlainJournal(), FirstBody(operation, run);
            var read := J.ScanFiles(c, [[] + (c.encode(J.Record(1, 1, "", body)) + [NEWLINE])]);
            read.Some? && read.value.operations == map[operation := J.Operation(body.receipt, None, [])]
  {
    var c, r := PlainJournal(), J.Record(1, 1, "", FirstBody(operation, run));
    FirstFolded(operation, run);
    var s := J.ScanSegments(c, [[] + (c.encode(r) + [NEWLINE])]).value;
    assert JournalTheorems.AllProgress(s);
  }

  lemma FirstFolded(operation: string, run: string)
    requires |operation| <= J.MAX_IDENTIFIER && |run| <= J.MAX_IDENTIFIER
    ensures var c, body := PlainJournal(), FirstBody(operation, run);
            var read := J.ScanSegments(c, [[] + (c.encode(J.Record(1, 1, "", body)) + [NEWLINE])]);
            read.Some? && read.value.operations == map[operation := J.Operation(body.receipt, None, [])]
  {
    var c, r := PlainJournal(), J.Record(1, 1, "", FirstBody(operation, run));
    FirstSegment(operation, run);
    FirstFold(operation, run);
    JournalTheorems.ScanLast(c, [], [] + (c.encode(r) + [NEWLINE]));
    assert [] + [[] + (c.encode(r) + [NEWLINE])] == [[] + (c.encode(r) + [NEWLINE])];
  }

  lemma FirstSegment(operation: string, run: string)
    requires |operation| <= J.MAX_IDENTIFIER && |run| <= J.MAX_IDENTIFIER
    ensures var c, r := PlainJournal(), J.Record(1, 1, "", FirstBody(operation, run));
            var contents := J.SegmentContents(c, [] + (c.encode(r) + [NEWLINE]));
            contents.Some? && contents.value.1 == [r]
  {
    var c, r := PlainJournal(), J.Record(1, 1, "", FirstBody(operation, run));
    FirstLine(operation, run);
    RecordIsCompact(r);
    PlainJournalIsCanonical();
    JournalTheorems.ValidReadsBack(c, r);
    JournalTheorems.EmptySegment(c);
    JournalTheorems.SegmentAppend(c, [], r);
    assert [] + [r] == [r];
  }

  lemma FirstFold(operation: string, run: string)
    ensures var c, r := PlainJournal(), J.Record(1, 1, "", FirstBody(operation, run));
            var read := J.FoldRecords(c, 1, [r], J.EMPTY_STATE);
            read.Some? && read.value.operations == map[operation := J.Operation(r.body.receipt, None, [])]
  {
    var c, r := PlainJournal(), J.Record(1, 1, "", FirstBody(operation, run));
    JournalTheorems.FoldOneMore(c, 1, [], J.EMPTY_STATE, r);
    assert [] + [r] == [r];
  }

  /** The call makes a claim on the first receipt under another owner's lease, which the reader does not admit. */
  lemma OtherOwnersClaim(operation: string, run: string, lease: string, event: string, now: string)
    requires |operation| <= J.MAX_IDENTIFIER && |run| <= J.MAX_IDENTIFIER && lease != "."
    ensures var c, body := PlainJournal(), FirstBody(operation, run);
            var s := J.ScanFiles(c, [[] + (c.encode(J.Record(1, 1, "", body)) + [NEWLINE])]);
            && s.Some? && JournalOperations.CreateClaim(s.value, run, operation, lease, event, now).Fresh?
            && !JournalTheorems.Admits(c, s.value, JournalOperations.CreateClaim(s.value, run, operation, lease, event, now).body)
  {
    FirstScan(operation, run);
    var c, body := PlainJournal(), FirstBody(operation, run);
    var s := J.ScanFiles(c, [[] + (c.encode(J.Record(1, 1, "", body)) + [NEWLINE])]).value;
    JournalOperations.ClaimAdmitted(c, s, run, operation, lease, event, now);
  }

  /** The first append has created its marker, and has not filled it. */
  function MarkerCreated(): D.Disk {
    D.Put(EmptyDirectory(), D.Marker, D.CreatedSlot(EmptyDirectory().marker, 1))
  }

  /** A power loss may leave the marker so, empty and torn, and then no scan reads the run. */
  lemma TornMarkerLeft()
    ensures D.Settled(PlainMarkers(), MarkerCreated(), []) && D.WellFormed(MarkerCreated(), 2)
    ensures var im := D.Image(Some([]), seq(J.MAX_JOURNAL_EPOCHS, _ => None));
            && D.IsImage(MarkerCreated(), im) && AppendTheorems.Torn(PlainMarkers(), im)
            && D.ReadBack(PlainJournal(), PlainMarkers(), im) == None
  {
    PlainMarkersAreFramed();
    FirstJournal();
    var d, im := MarkerCreated(), D.Image(Some([]), seq(J.MAX_JOURNAL_EPOCHS, _ => None));
    assert D.Harmless(PlainMarkers(), d, []);
    assert D.Data(Some(D.Node(1, []))) == Some([]) && Some(D.Node(1, [])) in d.marker.may;
    assert D.Version(d.marker, im.marker);
    forall i {:trigger im.segments[i]} | 0 <= i < |im.segments| ensures D.Version(d.segments[i], im.segments[i]) {
      assert None in d.segments[i].may && D.Data(None) == None;
    }
    PlainJournalIsCanonical();
    AppendTheorems.SettledReads(PlainJournal(), PlainMarkers(), d, [], im);
  }

  /** The first record's line is durable, its marker is gone, and the marker's removal is not durable: there a process is killed. */
  function KilledThere(line: seq<byte>): D.Disk {
    D.Disk(D.Slot(None, {None, Some(D.Node(1, EncodePending(D.Pending(1, 0))))}),
           seq(J.MAX_JOURNAL_EPOCHS, i => if i == 0 then D.Slot(Some(D.Node(2, line)), {Some(D.Node(2, line))}) else D.Slot(None, {None})))
  }

  /** The next process finds the record, and it is not there for good. */
  lemma KilledFirstCommit(line: seq<byte>)
    requires line != []
    ensures var m, d, p := PlainMarkers(), KilledThere(line), D.Pending(1, 0);
            && D.Committing(m, d, [], p, line) && D.WellFormed(d, 3)
            && AppendTheorems.SeenJournal(d, [], p, line) == D.Grown([], 1, line) && !AppendTheorems.ForGood(m, d, [], p, line)
  {
    var m, d, p := PlainMarkers(), KilledThere(line), D.Pending(1, 0);
    DecodesPending(p);
    assert [] + line == line;
    assert D.HalfIn([], p, line, d.segments[0]);
    var n := D.Node(1, EncodePending(p));
    assert Some(n) in d.marker.may && m.decode(n.data) == Some(p);
  }

  function EmptyShard(): ShardDisk.Shard {
    ShardDisk.Shard(Durability.Durable([]), Durability.Durable(ShardDisk.Checkpoint(0, "")), map[], map[], map[], 0)
  }

  function FirstEntry(key: string): Entry {
    Entry(1, "", key, Whole([]), 0)
  }

  /** The first record for a lookup key of 64 characters and an empty text is short enough for either history. */
  lemma FirstEntryFits(key: string)
    requires |key| <= 64
    ensures |EncodeEntry(FirstEntry(key))| <= ShardDisk.MAX_ISSUANCE_BYTES
    ensures ShardDisk.MAX_ISSUANCE_BYTES <= RunDisk.MAX_RUN_RECORD_BYTES
  {
    var r := FirstEntry(key);
    var t := EntryTokens(r);
    SpelledSize(t);
    OneDigit(1);
    OneDigit(0);
    SizeOfFour(t[0], t[1], t[2], t[3]);
    SizeOne(t[4]);
    SizeMore([t[0], t[1], t[2], t[3]], [t[4]]);
    assert t == [t[0], t[1], t[2], t[3]] + [t[4]];
  }

  /** An empty shard stands for the empty book, and there is a first identity it can issue. */
  lemma FirstIdentity(key: string)
    requires |key| <= 64
    ensures var c := PlainHistory(ShardDisk.MAX_ISSUANCE_BYTES);
            && ShardDisk.CanonicalIssuances(c)
            && ShardDisk.Rest(c, EmptyShard(), ShardDisk.Book([], map[], false))
            && Extends(c, [], FirstEntry(key)) && Chained(c, [FirstEntry(key)])
  {
    var c := PlainHistory(ShardDisk.MAX_ISSUANCE_BYTES);
    PlainHistoryIsCanonical(ShardDisk.MAX_ISSUANCE_BYTES);
    FirstEntryFits(key);
    LinesOneMore(c, [], FirstEntry(key));
    assert [] + [FirstEntry(key)] == [FirstEntry(key)];
    forall l: string ensures ShardDisk.LookupOk(c, EmptyShard(), ShardDisk.Book([], map[], false), l) {
    }
  }

  /** That shard once the identity, with empty bytes, is counted and published. */
  function IssuedShard(key: string): ShardDisk.Shard {
    ShardDisk.Shard(Durability.Durable(EncodeEntry(FirstEntry(key)) + [NEWLINE]),
                    Durability.Durable(ShardDisk.Checkpoint(1, Whole(EncodeEntry(FirstEntry(key))))),
                    map[key := Durability.Durable(Some(0))], map[], map[0 := Durability.Durable([])], 1)
  }

  lemma FirstIssued(key: string)
    requires |key| <= 64
    ensures var c := PlainHistory(ShardDisk.MAX_ISSUANCE_BYTES);
            ShardDisk.Rest(c, IssuedShard(key), ShardDisk.Book([FirstEntry(key)], map[key := []], false))
  {
    var c, r := PlainHistory(ShardDisk.MAX_ISSUANCE_BYTES), FirstEntry(key);
    var d, b := IssuedShard(key), ShardDisk.Book([r], map[key := []], false);
    FirstIdentity(key);
    LinesOneMore(c, [], r);
    assert [] + [r] == [r];
    assert Lines(c, [r]) == EncodeEntry(r) + [NEWLINE] by { assert [] + (EncodeEntry(r) + [NEWLINE]) == EncodeEntry(r) + [NEWLINE]; }
    forall l: string ensures ShardDisk.LookupOk(c, d, b, l) {
      FirstLookups(key, l);
    }
  }

  lemma FirstLookups(key: string, l: string)
    ensures var c, b := PlainHistory(ShardDisk.MAX_ISSUANCE_BYTES), ShardDisk.Book([FirstEntry(key)], map[key := []], false);
            ShardDisk.LookupOk(c, IssuedShard(key), b, l)
  {
    FindMore([], FirstEntry(key), l);
    assert [] + [FirstEntry(key)] == [FirstEntry(key)];
  }

  function EmptyActions(): RunDisk.Actions {
    RunDisk.Actions(Durability.Durable([]), Durability.Durable(RunDisk.Established(0, "")), Durability.Durable(map[]), {}, 0)
  }

  /** Empty actions are ready without a run, and there is a first run they can register. */
  lemma FirstRun(key: string)
    requires |key| <= 64 && key != RunDisk.STAGE
    ensures var c := PlainHistory(RunDisk.MAX_RUN_RECORD_BYTES);
            && RunDisk.CanonicalRuns(c) && RunDisk.Ready(c, EmptyActions(), [], RunDisk.Idle)
            && Extends(c, [], FirstEntry(key)) && Chained(c, [FirstEntry(key)])
  {
    var c := PlainHistory(RunDisk.MAX_RUN_RECORD_BYTES);
    PlainHistoryIsCanonical(RunDisk.MAX_RUN_RECORD_BYTES);
    FirstEntryFits(key);
    LinesOneMore(c, [], FirstEntry(key));
    assert [] + [FirstEntry(key)] == [FirstEntry(key)];
  }
}
