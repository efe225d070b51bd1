/**
  One run's activity log through power losses: its file is only appended to, its anchor and the store's sequence are replaced
  whole, and each may come back as it was before a sync that failed or was never reached.
 */
module ActivityLosses {
  import opened Results
  import opened Durability
  import opened ActivityLog
  import ActivityStore

  // ----- a version of the file under a version of the anchor -----

  /** The anchor committed when the log had its first `k` lines. */
  function AnchorOf(f: Format, h: Header, lines: seq<Line>, k: nat): Anchor
    requires k <= |lines|
  {
    Anchor(h.generation, SizeOf(f, h, lines[..k]), TailOf(h, Records(lines[..k])), LastOrdinal(lines[..k]))
  }

  lemma {:induction false} Longer(f: Format, h: Header, lines: seq<Line>, k: nat, n: nat)
    requires Compact(f) && k <= n <= |lines|
    ensures SizeOf(f, h, lines[..k]) <= SizeOf(f, h, lines[..n]) && (k < n ==> SizeOf(f, h, lines[..k]) < SizeOf(f, h, lines[..n]))
  {
    if k < n {
      Longer(f, h, lines, k, n - 1);
      assert lines[..n][..n - 1] == lines[..n - 1];
    }
  }

  lemma {:induction false} ReadsPart(f: Format, h: Header, lines: seq<Line>, next: nat, n: nat)
    requires ReadLines(f, h, lines, next).Some? && n <= |lines|
    ensures ReadLines(f, h, lines[..n], next).Some?
  {
    if ReadLines(f, h, lines[..n], next) == None { ReadStops(f, h, lines, next, n); }
  }

  lemma {:induction false} AnchoredThere(f: Format, h: Header, lines: seq<Line>, next: nat, k: nat, n: nat)
    requires Compact(f) && ReadLines(f, h, lines, next).Some? && k <= n <= |lines|
    ensures Anchored(f, h, lines[..n], AnchorOf(f, h, lines, k))
  {
    Longer(f, h, lines, k, n);
    if k == n {
      ReadsPart(f, h, lines, next, n);
      ReadFacts(f, h, lines[..n], next);
    } else {
      AnchoredThere(f, h, lines, next, k, n - 1);
      assert lines[..n][..n - 1] == lines[..n - 1];
    }
  }

  /** What remains of a log loads exactly if its last line is whole, no line that the anchor counts is missing, and all fit. */
  lemma LoadsVersion(f: Format, h: Header, lines: seq<Line>, next: nat, n: nat, torn: nat, k: nat)
    requires Compact(f) && ReadLines(f, h, lines, next).Some? && n <= |lines| && k <= |lines|
    requires f.headerSize(h) <= MAX_LINE ==> SizeOf(f, h, lines) <= MAX_BYTES
    ensures ColdLoad(f, h.run, h.registration, LogFile(h, lines[..n], torn), AnchorOf(f, h, lines, k), next)
            == if torn == 0 && k <= n && LinesFit(f, h, lines[..n]) then ReadLines(f, h, lines[..n], next) else None
    ensures ReadLines(f, h, lines[..n], next).Some?
  {
    ReadsPart(f, h, lines, next, n);
    Longer(f, h, lines, n, |lines|);
    assert lines[..|lines|] == lines;
    if k <= n {
      AnchoredThere(f, h, lines, next, k, n);
      Longer(f, h, lines, k, n);
    } else {
      Longer(f, h, lines, n, k);
    }
  }

  // ----- the log on a disk that may lose what was not synced -----

  /** Lines durable as far as `synced`; `torn` are bytes of a line that was not written whole. */
  datatype Place = Place(lines: seq<Line>, torn: nat, synced: nat, anchor: Cell<nat>, sequence: Cell<nat>)

  /** A power loss leaves this of the lines, so much of the next one, and these versions of anchor and sequence. */
  datatype Loss = Loss(n: nat, torn: nat, anchor: nat, sequence: nat)

  predicate Possible(p: Place, x: Loss) {
    && p.synced <= x.n <= |p.lines| && (x.n == |p.lines| && p.torn == 0 ==> x.torn == 0)
    && x.anchor in p.anchor.may && x.sequence in p.sequence.may
  }

  /** The log loads again after this loss. */
  predicate Loads(f: Format, h: Header, p: Place, x: Loss) {
    x.torn == 0 && x.anchor <= x.n <= |p.lines| && LinesFit(f, h, p.lines[..x.n])
  }

  predicate Rising(s: seq<nat>) {
    forall i, j :: 0 <= i < j < |s| ==> s[i] < s[j]
  }

  predicate Under(s: seq<nat>, n: nat) {
    forall i :: 0 <= i < |s| ==> s[i] <= n
  }

  lemma RisingOn(s: seq<nat>, floor: nat, n: nat)
    requires Rising(s) && Under(s, floor) && floor <= n
    ensures Rising(s + [n + 1]) && Under(s + [n + 1], n + 1)
  {
  }

  predicate PlaceOk(f: Format, h: Header, p: Place, next: nat) {
    && (f.headerSize(h) <= MAX_LINE ==> SizeOf(f, h, p.lines) <= MAX_BYTES) && ReadLines(f, h, p.lines, next).Some?
    && p.synced <= |p.lines| && p.anchor.live in p.anchor.may && p.sequence.live in p.sequence.may
    && forall k :: k in p.anchor.may ==> k <= |p.lines|
  }

  /** Every loss that the log survives keeps its first `count` lines. */
  ghost predicate KeptByLosses(f: Format, h: Header, p: Place, count: nat) {
    forall x {:trigger Possible(p, x)} :: Possible(p, x) && Loads(f, h, p, x) ==> count <= x.n
  }

  /** The fewest lines that a log under this anchor loads with. */
  function Fewest(p: Place, anchor: nat): nat {
    if anchor < p.synced then p.synced else anchor
  }

  /** Exactly if they are durable, or every version of the anchor that counts fewer is of no use, for a line that does not fit. */
  lemma KeptIff(f: Format, h: Header, p: Place, count: nat)
    requires p.synced <= |p.lines| && count <= |p.lines| && p.sequence.live in p.sequence.may
    requires forall k :: k in p.anchor.may ==> k <= |p.lines|
    ensures KeptByLosses(f, h, p, count)
            <==> count <= p.synced || forall k :: k in p.anchor.may && k < count ==> !LinesFit(f, h, p.lines[..Fewest(p, k)])
  {
    if count > p.synced {
      if k :| k in p.anchor.may && k < count && LinesFit(f, h, p.lines[..Fewest(p, k)]) {
        var x := Loss(Fewest(p, k), 0, k, p.sequence.live);
        assert Possible(p, x) && Loads(f, h, p, x);
      } else {
        forall x {:trigger Possible(p, x)} | Possible(p, x) && Loads(f, h, p, x) ensures count <= x.n {
          if x.anchor < count {
            var least := Fewest(p, x.anchor);
            assert p.lines[..least] <= p.lines[..x.n];
            FitsPart(f, h, p.lines, least, x.n);
          }
        }
      }
    }
  }

  lemma FitsPart(f: Format, h: Header, lines: seq<Line>, k: nat, n: nat)
    requires k <= n <= |lines| && LinesFit(f, h, lines[..n])
    ensures LinesFit(f, h, lines[..k])
  {
    forall i | 0 <= i < k ensures f.lineSize(lines[..k][i].record) <= MAX_LINE { assert lines[..k][i] == lines[..n][i]; }
  }

  ghost predicate LogOk(f: Format, h: Header, p: Place, next: nat, acked: seq<Record>, told: nat, issued: seq<nat>, floor: nat) {
    && PlaceOk(f, h, p, floor) && floor <= next && ReadLines(f, h, p.lines, next) == ReadLines(f, h, p.lines, floor)
    && |acked| <= p.synced && told <= |p.lines| && acked <= Records(p.lines)
    && Rising(issued) && Under(issued, floor) && forall v :: v in p.sequence.may ==> floor <= v
  }

  /** The next ordinal is taken durably. */
  lemma OrdinalTaken(f: Format, h: Header, p: Place, next: nat, acked: seq<Record>, told: nat, issued: seq<nat>, floor: nat)
    requires LogOk(f, h, p, next, acked, told, issued, floor)
    ensures LogOk(f, h, p.(sequence := Durable(next + 1)), next + 1, acked, told, issued + [next + 1], next + 1)
    ensures ReadLines(f, h, p.lines, next + 1) == ReadLines(f, h, p.lines, next)
  {
    RisingOn(issued, floor, next);
    ActivityStore.ReadLater(f, h, p.lines, floor, next + 1);
  }

  /**
    The log of a run in use. `acked` are the records whose appending was acknowledged, and `told` counts the lines that a
    caller may have been answered from; no version of the sequence is below `floor`.
   */
  class LossyLog {
    const format: Format
    const header: Header
    var place: Place
    var next: nat
    var cached: bool
    ghost var acked: seq<Record>
    ghost var told: nat
    ghost var issued: seq<nat>
    ghost var floor: nat

    ghost predicate Valid()
      reads this
    {
      && Compact(format) && LogOk(format, header, place, next, acked, told, issued, floor)
      && (cached ==> place.torn == 0 && place.anchor.live == |place.lines|)
    }

    constructor (format: Format, header: Header, sequence: nat)
      requires Compact(format)
      ensures Valid() && place == Place([], 0, 0, Durable(0), Durable(sequence)) && acked == [] && issued == [] && told == 0
    {
      this.format, this.header := format, header;
      place, next, cached := Place([], 0, 0, Durable(0), Durable(sequence)), sequence, false;
      acked, told, issued, floor := [], 0, [], sequence;
    }

    /** Replaces the anchor by one for the whole file; a failed call may have done so. */
    method SaveAnchor() returns (ok: bool)
      requires Valid() && place.torn == 0
      modifies this`place
      ensures Valid() && place == old(place).(anchor := place.anchor)
      ensures ok ==> place.anchor == Durable(|place.lines|)
    {
      ok := *;
      var done: bool := *;
      if ok {
        place := place.(anchor := Durable(|place.lines|));
      } else if done {
        place := place.(anchor := Changed(place.anchor, |place.lines|));
      }
    }

    function LogNow(): Log
      requires Valid()
      reads this
    {
      ReadLines(format, header, place.lines, next).value
    }

    /** Takes the next ordinal; a failed call may have made the sequence take it, and it is not used. */
    method SaveSequence() returns (ok: bool)
      requires Valid()
      modifies this`place, this`next, this`issued, this`floor
      ensures Valid() && place == old(place).(sequence := place.sequence)
      ensures if ok then next == old(next) + 1 && issued == old(issued) + [next] else next == old(next) && issued == old(issued)
      ensures LogNow() == old(LogNow()) && (ok ==> floor == next)
    {
      ok := *;
      var done: bool := *;
      if ok {
        TakeOrdinal();
      } else if done {
        place := place.(sequence := Changed(place.sequence, next + 1));
      }
    }

    method TakeOrdinal()
      requires Valid()
      modifies this`place, this`next, this`issued, this`floor
      ensures Valid() && place == old(place).(sequence := place.sequence)
      ensures next == floor == old(next) + 1 && issued == old(issued) + [next] && LogNow() == old(LogNow())
    {
      OrdinalTaken(format, header, place, next, acked, told, issued, floor);
      place := place.(sequence := Durable(next + 1));
      next, issued, floor := next + 1, issued + [next + 1], next + 1;
    }

    /** What a failed or a successful write leaves of the line before the anchor is replaced. */
    method WriteLine(r: Record) returns (ok: bool)
      requires Valid() && cached && floor == next && Takes(format, LogNow(), r, next) && LogNow().bytes + format.lineSize(r) <= MAX_BYTES
      modifies this`place, this`cached
      ensures Valid() && place.anchor == old(place.anchor) && place.sequence == old(place.sequence)
      ensures place.lines == old(place.lines) || place.lines == old(place.lines) + [Line(r, Link(old(LogNow()).tail, r))]
      ensures ok ==> place.lines != old(place.lines) && place.torn == 0 && place.synced == |place.lines|
    {
      var line := Line(r, Link(LogNow().tail, r));
      LineMore(format, header, place.lines, next, r);
      cached := false;
      var steps: int := *;
      ok := steps > 2;
      if steps <= 0 { return; }
      if steps == 1 {
        place := place.(torn := 1);
        return;
      }
      RecordsMore(place.lines, line);
      place := place.(lines := place.lines + [line], synced := if ok then |place.lines| + 1 else place.synced);
    }

    /** Appends an event with a fresh ordinal; it is acknowledged once the line and the anchor are durable. */
    method Append(body: Body) returns (r: Option<Event>)
      requires Valid() && cached && body.run == header.run && ValidBody(format, body)
      requires SourceAgrees(LogNow(), body) && body.activity !in LogNow().identities
      modifies this
      ensures Valid() && old(issued) <= issued
      ensures if r.Some? then acked == Records(place.lines) && r.value.body == body && Records(place.lines) == old(Records(place.lines)) + [EventRecord(r.value)]
              else acked == old(acked)
    {
      r := None;
      ReadFacts(format, header, place.lines, next);
      if |LogNow().events| >= MAX_EVENTS || next >= MAX_ORDINAL {
        cached := false;
        return;
      }
      var ok := SaveSequence();
      if !ok {
        cached := false;
        return;
      }
      var e := Event(body, next);
      if LogNow().bytes + format.lineSize(EventRecord(e)) > MAX_BYTES {
        cached := false;
        return;
      }
      r := Commit(e);
    }

    /** Writes the event's line, then the anchor for it. */
    method Commit(e: Event) returns (r: Option<Event>)
      requires Valid() && cached && floor == next && Takes(format, LogNow(), EventRecord(e), next)
      requires LogNow().bytes + format.lineSize(EventRecord(e)) <= MAX_BYTES
      modifies this`place, this`cached, this`acked, this`told
      ensures Valid()
      ensures if r.Some? then r.value == e && acked == Records(place.lines) && Records(place.lines) == old(Records(place.lines)) + [EventRecord(e)]
              else acked == old(acked)
    {
      r := None;
      RecordsMore(place.lines, Line(EventRecord(e), Link(LogNow().tail, EventRecord(e))));
      var ok := WriteLine(EventRecord(e));
      if !ok { return; }
      ok := SaveAnchor();
      if !ok { return; }
      RecordsCount(place.lines);
      cached, acked, told := true, Records(place.lines), |place.lines|;
      r := Some(e);
    }

    /** Reads the log afresh; a line that the anchor does not count yet is counted from here on. */
    method Load() returns (ok: bool)
      requires Valid()
      modifies this`place, this`cached, this`told
      ensures Valid() && place == old(place).(anchor := place.anchor)
      ensures ok ==> place.torn == 0 && told == |place.lines| && cached && LinesFit(format, header, place.lines)
      ensures !ok ==> told == old(told)
    {
      LoadsVersion(format, header, place.lines, next, |place.lines|, place.torn, place.anchor.live);
      assert place.lines[..|place.lines|] == place.lines;
      cached, ok := false, false;
      var readable: bool := *;
      var file, anchor := LogFile(header, place.lines, place.torn), place.anchor.live;
      if !readable || place.torn != 0 || !LinesFit(format, header, place.lines) { return; }
      ok := true;
      if anchor < |place.lines| { ok := SaveAnchor(); }
      if ok { cached, told := true, |place.lines|; }
    }

    /** The log is dropped from memory; a latched failure is forgotten with it. */
    method Evict()
      requires Valid()
      modifies this`cached
      ensures Valid() && !cached
    {
      cached := false;
    }

    /** The process is killed and a new one starts: the disk stays as it is, with whatever is not synced. */
    method Kill()
      requires Valid()
      modifies this`cached, this`next
      ensures Valid() && !cached && next == place.sequence.live
    {
      ActivityStore.ReadLater(format, header, place.lines, floor, place.sequence.live);
      cached, next := false, place.sequence.live;
    }

    /** A power loss, and the process that starts after it; a log that does not load again is refused from then on. */
    method Lose(x: Loss) returns (usable: bool)
      requires Valid() && Possible(place, x)
      modifies this
      ensures usable <==> Loads(format, header, old(place), x)
      ensures usable ==> Valid() && place == Place(old(place.lines)[..x.n], 0, x.n, Durable(x.anchor), Durable(x.sequence))
      ensures acked == old(acked) && issued == old(issued) && (usable ==> told == if old(told) <= x.n then old(told) else x.n)
      ensures !usable ==> place == old(place) && next == old(next)
      ensures !usable ==> ColdLoad(format, header.run, header.registration, LogFile(header, place.lines[..x.n], x.torn),
                                   AnchorOf(format, header, place.lines, x.anchor), next) == None
    {
      usable := Loads(format, header, place, x);
      LoadsVersion(format, header, place.lines, next, x.n, x.torn, x.anchor);
      ReadsPart(format, header, place.lines, floor, x.n);
      if usable {
        Longer(format, header, place.lines, x.n, |place.lines|);
        assert place.lines[..|place.lines|] == place.lines;
        ActivityStore.ReadLater(format, header, place.lines[..x.n], floor, x.sequence);
        RecordsPart(place.lines, x.n, acked);
        place := Place(place.lines[..x.n], 0, x.n, Durable(x.anchor), Durable(x.sequence));
        next, cached, told := x.sequence, false, if told <= x.n then told else x.n;
      }
    }

    /** What was acknowledged survives every power loss that the log survives. */
    lemma AckedKept()
      requires Valid()
      ensures KeptByLosses(format, header, place, |acked|)
    {
    }

    /** What a caller was answered from survives exactly if it is durable, or no anchor that counts less loads a log without it. */
    lemma ToldKeptIff()
      requires Valid()
      ensures KeptByLosses(format, header, place, told)
              <==> told <= place.synced
                   || forall k :: k in place.anchor.may && k < told ==> !LinesFit(format, header, place.lines[..Fewest(place, k)])
    {
      KeptIff(format, header, place, told);
    }
  }

  lemma LineMore(f: Format, h: Header, lines: seq<Line>, next: nat, r: Record)
    requires ReadLines(f, h, lines, next).Some? && Takes(f, ReadLines(f, h, lines, next).value, r, next)
    ensures var log := ReadLines(f, h, lines, next).value;
            var more := lines + [Line(r, Link(log.tail, r))];
            ReadLines(f, h, more, next) == Some(WithRecord(f, log, r)) && SizeOf(f, h, more) == log.bytes + f.lineSize(r)
  {
    ReadFacts(f, h, lines, next);
    ActivityStore.OneMoreLine(f, h, lines, ReadLines(f, h, lines, next).value, r, next);
  }

  lemma RecordsMore(lines: seq<Line>, line: Line)
    ensures Records(lines + [line]) == Records(lines) + [line.record]
  {
    assert (lines + [line])[..|lines|] == lines;
  }

  lemma {:induction false} RecordsCount(lines: seq<Line>)
    ensures |Records(lines)| == |lines|
  {
    if lines != [] { RecordsCount(lines[..|lines| - 1]); }
  }

  lemma {:induction false} RecordsPart(lines: seq<Line>, n: nat, acked: seq<Record>)
    requires |acked| <= n <= |lines| && acked <= Records(lines)
    ensures acked <= Records(lines[..n])
  {
    if n < |lines| {
      var init := lines[..|lines| - 1];
      RecordsCount(init);
      assert Records(init)[..|acked|] == Records(lines)[..|acked|];
      RecordsPart(init, n, acked);
      assert init[..n] == lines[..n];
    } else {
      assert lines[..n] == lines;
    }
  }

  // ----- whole lives -----

  /** What happens to a log next. */
  datatype Op = Appends(body: Body) | Reloads | Evicts | Dies | Loses(x: Loss)

  /** An event the store would append: valid, new, and agreeing with its source. */
  predicate Appendable(f: Format, log: Log, body: Body) {
    body.run == log.header.run && ValidBody(f, body) && SourceAgrees(log, body) && body.activity !in log.identities
  }

  /** One step of a life. */
  method Step(store: LossyLog, op: Op) returns (usable: bool)
    requires store.Valid()
    modifies store
    ensures old(store.acked) <= store.acked && old(store.issued) <= store.issued
    ensures if usable then store.Valid() else op.Loses? && !Loads(store.format, store.header, store.place, op.x)
  {
    usable := true;
    match op {
      case Appends(body) =>
        ReadFacts(store.format, store.header, store.place.lines, store.next);
        if store.cached && Appendable(store.format, store.LogNow(), body) { var e := store.Append(body); }
      case Reloads => var ok := store.Load();
      case Evicts => store.Evict();
      case Dies => store.Kill();
      case Loses(x) => if Possible(store.place, x) { usable := store.Lose(x); }
    }
  }

  /**
    Any number of appends, loads, evictions, kills and power losses: what was acknowledged stays, in order, and no ordinal is
    issued twice; a log ends only with a power loss that leaves a torn line, or lacks one that the anchor counts, or with a line too long.
   */
  method Serve(store: LossyLog, ops: seq<Op>) returns (usable: bool)
    requires store.Valid()
    modifies store
    ensures old(store.acked) <= store.acked && old(store.issued) <= store.issued
    ensures if usable then store.Valid() else exists i :: 0 <= i < |ops| && ops[i].Loses? && !Loads(store.format, store.header, store.place, ops[i].x)
  {
    usable := true;
    for i := 0 to |ops|
      invariant old(store.acked) <= store.acked && old(store.issued) <= store.issued
      invariant if usable then store.Valid() else exists k :: 0 <= k < i && ops[k].Loses? && !Loads(store.format, store.header, store.place, ops[k].x)
    {
      if usable { usable := Step(store, ops[i]); }
    }
  }

  /**
    A line whose sync failed and whose anchor's replacement failed, and both are there: the next load answers from the line,
    and a power loss may take it back and leave a log that loads.
   */
  lemma ToldAndLost(f: Format, h: Header, line: Line, sequence: nat)
    requires f.headerSize(h) <= MAX_LINE
    ensures var p := Place([line], 0, 0, Cell(1, {0, 1}), Durable(sequence));
            var x := Loss(0, 0, 0, sequence);
            Possible(p, x) && Loads(f, h, p, x) && !KeptByLosses(f, h, p, 1)
  {
    var p, x := Place([line], 0, 0, Cell(1, {0, 1}), Durable(sequence)), Loss(0, 0, 0, sequence);
    assert Possible(p, x) && Loads(f, h, p, x);
  }
}
