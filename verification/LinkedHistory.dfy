/**
  An issuance history: digest-linked records, one a line, of which a separate authority counts the first so many; whatever
  follows them is a tail that no reader trusts. Request identities and run directories are both registered this way.
 */
module LinkedHistory {
  import opened Results
  import opened ByteLines

  /** Binds a key and a value to an inode; the empty string is "no prior". */
  datatype Entry = Entry(sequence: nat, prior: string, key: string, value: string, inode: nat)

  datatype HistoryCodec = HistoryCodec(encode: Entry -> seq<byte>, decode: seq<byte> -> Option<Entry>,
                                         digest: seq<byte> -> string, maxLine: nat)

  predicate ValidEntry(r: Entry) {
    r.sequence >= 1 && (r.sequence == 1 <==> r.prior == "")
  }

  ghost predicate CanonicalHistory(c: HistoryCodec) {
    && (forall r: Entry :: ValidEntry(r) ==> c.decode(c.encode(r)) == Some(r))
    && (forall line: seq<byte> :: c.decode(line).Some? ==> ValidEntry(c.decode(line).value) && c.encode(c.decode(line).value) == line)
    && (forall r: Entry :: NEWLINE !in c.encode(r) && 1 <= |c.encode(r)|)
    && (forall line: seq<byte> :: c.digest(line) != "")
  }

  /** The digest the next record must carry, and the authority the digest of the last. */
  function FinalDigest(c: HistoryCodec, records: seq<Entry>): string {
    if records == [] then "" else c.digest(c.encode(records[|records| - 1]))
  }

  predicate Unissued(records: seq<Entry>, key: string) {
    forall i :: 0 <= i < |records| ==> records[i].key != key
  }

  /** The record may come next: numbered and linked, with a key of its own. */
  predicate Follows(c: HistoryCodec, records: seq<Entry>, r: Entry) {
    r.sequence == |records| + 1 && r.prior == FinalDigest(c, records) && Unissued(records, r.key)
  }

  /** And its line is short enough for a reader. */
  predicate Extends(c: HistoryCodec, records: seq<Entry>, r: Entry) {
    Follows(c, records, r) && |c.encode(r)| <= c.maxLine
  }

  /** Numbered from 1, each linked to the one before, no key twice, no line too long for a reader. */
  predicate Chained(c: HistoryCodec, records: seq<Entry>) {
    records != [] ==>
      Chained(c, records[..|records| - 1]) && Extends(c, records[..|records| - 1], records[|records| - 1])
  }

  function Lines(c: HistoryCodec, records: seq<Entry>): seq<byte> {
    if records == [] then [] else Lines(c, records[..|records| - 1]) + (c.encode(records[|records| - 1]) + [NEWLINE])
  }

  /** The first newline at or after `from`, or the end. */
  function LineBreak(data: seq<byte>, from: nat): (k: nat)
    requires from <= |data|
    ensures from <= k <= |data|
    decreases |data| - from
  {
    if from == |data| || data[from] == NEWLINE then from else LineBreak(data, from + 1)
  }

  /** One more record from the line at `offset`. */
  function LoadNext(c: HistoryCodec, data: seq<byte>, records: seq<Entry>, offset: nat): Option<(seq<Entry>, nat)>
    requires offset <= |data|
  {
    var end := LineBreak(data, offset);
    if end == |data| || end == offset || end - offset > c.maxLine then None else
      match c.decode(data[offset..end])
      case None => None
      case Some(r) =>
        if Follows(c, records, r) then Some((records + [r], end + 1)) else None
  }

  /** The first `count` records and where they end. */
  function Load(c: HistoryCodec, data: seq<byte>, count: nat): (r: Option<(seq<Entry>, nat)>)
    ensures r.Some? ==> r.value.1 <= |data|
  {
    if count == 0 then Some(([], 0)) else
      match Load(c, data, count - 1)
      case None => None
      case Some((records, offset)) => LoadNext(c, data, records, offset)
  }

  method LoadHistory(c: HistoryCodec, data: seq<byte>, count: nat) returns (r: Option<(seq<Entry>, nat)>)
    ensures r == Load(c, data, count)
  {
    var records, offset := [], 0;
    for sequence := 0 to count
      invariant offset <= |data| && Load(c, data, sequence) == Some((records, offset))
    {
      var next := LoadNext(c, data, records, offset);
      if next == None {
        LoadStops(c, data, sequence + 1, count);
        return None;
      }
      records, offset := next.value.0, next.value.1;
    }
    r := Some((records, offset));
  }

  lemma {:induction false} LoadStops(c: HistoryCodec, data: seq<byte>, k: nat, count: nat)
    requires k <= count && Load(c, data, k) == None
    ensures Load(c, data, count) == None
  {
    if k < count { LoadStops(c, data, k, count - 1); }
  }

  lemma {:induction false} BreakAfter(data: seq<byte>, from: nat, k: nat)
    requires from <= k < |data| && data[k] == NEWLINE
    requires forall i :: from <= i < k ==> data[i] != NEWLINE
    ensures LineBreak(data, from) == k
    decreases k - from
  {
    if from < k { BreakAfter(data, from + 1, k); }
  }

  lemma {:induction false} BreakIs(data: seq<byte>, from: nat)
    requires from <= |data|
    ensures LineBreak(data, from) < |data| ==> data[LineBreak(data, from)] == NEWLINE
    decreases |data| - from
  {
    if from < |data| && data[from] != NEWLINE { BreakIs(data, from + 1); }
  }

  lemma LoadsOne(c: HistoryCodec, data: seq<byte>, records: seq<Entry>, offset: nat, r: Entry)
    requires CanonicalHistory(c) && offset <= |data| && c.encode(r) + [NEWLINE] <= data[offset..]
    requires ValidEntry(r) && Extends(c, records, r)
    ensures LoadNext(c, data, records, offset) == Some((records + [r], offset + |c.encode(r)| + 1))
  {
    var line := c.encode(r);
    var end := offset + |line|;
    assert data[offset..][..|line| + 1] == line + [NEWLINE];
    assert forall i :: 0 <= i <= |line| ==> data[offset + i] == (line + [NEWLINE])[i];
    forall i | offset <= i < end ensures data[i] != NEWLINE {
      assert data[offset + (i - offset)] == line[i - offset];
    }
    BreakAfter(data, offset, end);
    assert data[offset..end] == line;
  }

  lemma LinesOneMore(c: HistoryCodec, init: seq<Entry>, r: Entry)
    ensures Lines(c, init + [r]) == Lines(c, init) + (c.encode(r) + [NEWLINE])
    ensures Chained(c, init + [r]) <==> Chained(c, init) && Extends(c, init, r)
    ensures FinalDigest(c, init + [r]) == c.digest(c.encode(r))
  {
    assert (init + [r])[..|init|] == init;
  }

  lemma PrefixParts(a: seq<byte>, b: seq<byte>, data: seq<byte>)
    requires a + b <= data
    ensures a <= data && b <= data[|a|..]
  {
    assert data[..|a| + |b|] == a + b;
    assert data[..|a|] == (a + b)[..|a|] == a;
    assert data[|a|..][..|b|] == (a + b)[|a|..] == b;
  }

  lemma LoadsLast(c: HistoryCodec, records: seq<Entry>, data: seq<byte>)
    requires CanonicalHistory(c) && Chained(c, records) && records != [] && Lines(c, records) <= data
    ensures var init := records[..|records| - 1];
            && Lines(c, init) <= data
            && LoadNext(c, data, init, |Lines(c, init)|) == Some((records, |Lines(c, records)|))
  {
    var init, last := records[..|records| - 1], records[|records| - 1];
    assert init + [last] == records;
    ChainedValid(c, records);
    PrefixParts(Lines(c, init), c.encode(last) + [NEWLINE], data);
    LoadsOne(c, data, init, |Lines(c, init)|, last);
  }

  /** A counted prefix loads back, whatever follows it. */
  lemma {:induction false} LoadsLines(c: HistoryCodec, records: seq<Entry>, data: seq<byte>)
    requires CanonicalHistory(c) && Chained(c, records) && Lines(c, records) <= data
    ensures Load(c, data, |records|) == Some((records, |Lines(c, records)|))
  {
    if records != [] {
      LoadsLast(c, records, data);
      LoadsLines(c, records[..|records| - 1], data);
    }
  }

  lemma LoadNextIs(c: HistoryCodec, data: seq<byte>, init: seq<Entry>, offset: nat) returns (r: Entry, end: nat)
    requires offset <= |data| && LoadNext(c, data, init, offset).Some?
    ensures LoadNext(c, data, init, offset) == Some((init + [r], end)) && offset < end <= |data|
    ensures c.decode(data[offset..end - 1]) == Some(r) && data[end - 1] == NEWLINE
    ensures Follows(c, init, r) && end - 1 - offset <= c.maxLine
  {
    BreakIs(data, offset);
    end := LineBreak(data, offset) + 1;
    r := c.decode(data[offset..end - 1]).value;
  }

  lemma OneMoreLine(data: seq<byte>, offset: nat, end: nat)
    requires offset < end <= |data| && data[end - 1] == NEWLINE
    ensures data[..end] == data[..offset] + (data[offset..end - 1] + [NEWLINE])
  {
  }

  ghost predicate DecodesBack(c: HistoryCodec) {
    forall line: seq<byte> {:trigger c.decode(line)} :: c.decode(line).Some? ==> c.encode(c.decode(line).value) == line
  }

  predicate IsLines(c: HistoryCodec, data: seq<byte>, records: seq<Entry>, offset: nat) {
    Chained(c, records) && offset == |Lines(c, records)| && offset <= |data| && Lines(c, records) == data[..offset]
  }

  lemma IsLinesMore(c: HistoryCodec, data: seq<byte>, init: seq<Entry>, offset: nat, r: Entry, end: nat)
    requires DecodesBack(c) && IsLines(c, data, init, offset) && offset < end <= |data|
    requires c.decode(data[offset..end - 1]) == Some(r) && data[end - 1] == NEWLINE
    requires Extends(c, init, r)
    ensures IsLines(c, data, init + [r], end)
  {
    LinesOneMore(c, init, r);
    OneMoreLine(data, offset, end);
  }

  /** Whatever loads is a chained history written line by line. */
  lemma {:induction false} LoadIsLines(c: HistoryCodec, data: seq<byte>, count: nat)
    requires DecodesBack(c) && Load(c, data, count).Some?
    ensures var (records, offset) := Load(c, data, count).value;
            |records| == count && IsLines(c, data, records, offset)
  {
    if count > 0 {
      LoadIsLines(c, data, count - 1);
      var (init, offset) := Load(c, data, count - 1).value;
      var r, end := LoadNextIs(c, data, init, offset);
      IsLinesMore(c, data, init, offset, r, end);
    }
  }

  lemma {:induction false} LinesBound(c: HistoryCodec, records: seq<Entry>)
    requires Chained(c, records)
    ensures |Lines(c, records)| <= |records| * (c.maxLine + 1)
  {
    if records != [] { LinesBound(c, records[..|records| - 1]); }
  }

  /** Two chained histories of one length that end in one digest are the same, when the digest is injective. */
  lemma {:induction false} DigestFixesHistory(c: HistoryCodec, a: seq<Entry>, b: seq<Entry>)
    requires CanonicalHistory(c) && Chained(c, a) && Chained(c, b) && |a| == |b| && FinalDigest(c, a) == FinalDigest(c, b)
    requires forall x, y: seq<byte> {:trigger c.digest(x), c.digest(y)} :: c.digest(x) == c.digest(y) ==> x == y
    ensures a == b
  {
    if a != [] {
      var i, j := a[..|a| - 1], b[..|b| - 1];
      ChainedValid(c, a);
      ChainedValid(c, b);
      assert c.decode(c.encode(a[|a| - 1])) == c.decode(c.encode(b[|b| - 1]));
      DigestFixesHistory(c, i, j);
      assert a == i + [a[|a| - 1]] && b == j + [b[|b| - 1]];
    }
  }

  lemma ChainedValid(c: HistoryCodec, records: seq<Entry>)
    requires CanonicalHistory(c) && Chained(c, records) && records != []
    ensures ValidEntry(records[|records| - 1])
  {
    var init := records[..|records| - 1];
    if init != [] { assert c.digest(c.encode(init[|init| - 1])) != ""; }
  }

  // ----- looking a key up -----

  function Find(records: seq<Entry>, lookup: string): Option<Entry> {
    if records == [] then None
    else if records[|records| - 1].key == lookup then Some(records[|records| - 1])
    else Find(records[..|records| - 1], lookup)
  }

  lemma FindMore(records: seq<Entry>, r: Entry, lookup: string)
    ensures Find(records + [r], lookup) == if r.key == lookup then Some(r) else Find(records, lookup)
  {
    assert (records + [r])[..|records|] == records;
  }

  lemma {:induction false} FindIs(records: seq<Entry>, lookup: string)
    ensures Find(records, lookup) == None <==> Unissued(records, lookup)
    ensures Find(records, lookup).Some? ==> Find(records, lookup).value in records && Find(records, lookup).value.key == lookup
  {
    if records != [] {
      var init := records[..|records| - 1];
      FindIs(init, lookup);
      if records[|records| - 1].key != lookup {
        assert Unissued(init, lookup) ==> Unissued(records, lookup) by {
          assert forall i :: 0 <= i < |init| ==> records[i] == init[i];
        }
        if Unissued(records, lookup) { assert forall i :: 0 <= i < |init| ==> init[i] == records[i]; }
      }
    }
  }

  lemma {:induction false} FindAt(c: HistoryCodec, records: seq<Entry>, i: nat)
    requires Chained(c, records) && i < |records|
    ensures Find(records, records[i].key) == Some(records[i])
  {
    var n := |records| - 1;
    if i < n {
      assert records[..n][i] == records[i];
      FindAt(c, records[..n], i);
    }
  }
}
