/**
  A request-index shard on disk: the history and the names of its directory, the authority attribute on the directory, and
  the identity files. Anything not synced may come back after a crash as any version it has had since.
 */
module ShardDisk {
  import opened Results
  import opened ByteLines
  import opened Durability
  import opened LinkedHistory

  const MAX_REQUEST_INDEX_BYTES: nat := 32768
  const MAX_REQUESTS_PER_SHARD: nat := 4096
  const MAX_ISSUANCE_BYTES: nat := 512
  const MAX_HISTORY_BYTES: nat := MAX_REQUESTS_PER_SHARD * (MAX_ISSUANCE_BYTES + 1)

  /** In a shard's history a key is a lookup key and its value the digest of the identity file's bytes. */
  ghost predicate CanonicalIssuances(c: HistoryCodec) {
    CanonicalHistory(c) && c.maxLine == MAX_ISSUANCE_BYTES
  }

  const ABSENT: Cell<Option<nat>> := Cell(None, {None})

  /** The authority attribute: how many records of the history are committed, and the digest of the last. */
  datatype Checkpoint = Checkpoint(count: nat, digest: string)

  /** `next` is an inode number not in use; `finals` and `pendings` lead from a lookup key to the inode its published and its staged name leads to. */
  datatype Shard = Shard(history: Cell<seq<byte>>, authority: Cell<Checkpoint>,
                         finals: map<string, Cell<Option<nat>>>, pendings: map<string, Cell<Option<nat>>>,
                         files: map<nat, Cell<seq<byte>>>, next: nat)

  function Name(names: map<string, Cell<Option<nat>>>, lookup: string): Cell<Option<nat>> {
    if lookup in names then names[lookup] else ABSENT
  }

  function SyncedNames(names: map<string, Cell<Option<nat>>>): map<string, Cell<Option<nat>>> {
    map l | l in names :: Durable(names[l].live)
  }

  /** A directory sync makes every name and the authority attribute durable, and no file's bytes. */
  function DirSynced(d: Shard): Shard {
    d.(authority := Durable(d.authority.live), finals := SyncedNames(d.finals), pendings := SyncedNames(d.pendings))
  }

  // ----- what the committed history promises -----

  /**
    The committed records, and for each issued lookup key the identity bytes first staged for it; `unsure` says that the
    last record may be counted by an authority that is not durable.
   */
  datatype Book = Book(records: seq<Entry>, texts: map<string, seq<byte>>, unsure: bool)

  function CheckpointOf(c: HistoryCodec, records: seq<Entry>): Checkpoint {
    Checkpoint(|records|, FinalDigest(c, records))
  }

  predicate LeadsTo(name: Cell<Option<nat>>, inode: nat) {
    name.live in name.may && forall v :: v in name.may ==> v == None || v == Some(inode)
  }

  /** Whatever comes back, a name of the record leads to its inode, and the inode holds its bytes. */
  predicate Kept(c: HistoryCodec, d: Shard, r: Entry, text: seq<byte>) {
    && LeadsTo(Name(d.finals, r.key), r.inode) && LeadsTo(Name(d.pendings, r.key), r.inode)
    && (None in Name(d.finals, r.key).may ==> None !in Name(d.pendings, r.key).may)
    && r.inode < d.next && r.inode in d.files && d.files[r.inode] == Durable(text)
    && |text| <= MAX_REQUEST_INDEX_BYTES && c.digest(text) == r.value
  }

  /** The names of one lookup key: a committed record's, or nothing published and anything staged. */
  predicate LookupOk(c: HistoryCodec, d: Shard, b: Book, lookup: string) {
    match Find(b.records, lookup)
    case None => Name(d.finals, lookup) == ABSENT && Current(Name(d.pendings, lookup))
    case Some(r) => r.key == lookup && lookup in b.texts && Kept(c, d, r, b.texts[lookup])
  }

  ghost predicate NamesOk(c: HistoryCodec, d: Shard, b: Book) {
    forall lookup {:trigger LookupOk(c, d, b, lookup)} :: LookupOk(c, d, b, lookup)
  }

  predicate FilesOk(d: Shard) {
    forall i :: i in d.files ==> Current(d.files[i])
  }

  predicate HistoryKeeps(c: HistoryCodec, d: Shard, records: seq<Entry>) {
    d.history.live in d.history.may && forall v :: v in d.history.may ==> Lines(c, records) <= v && |v| <= MAX_HISTORY_BYTES
  }

  function Grown(b: Book, r: Entry, text: seq<byte>): Book {
    Book(b.records + [r], b.texts[r.key := text], true)
  }

  /** The book without its last record. */
  function Shorter(b: Book): Book
    requires b.records != []
  {
    Book(b.records[..|b.records| - 1], b.texts, false)
  }

  function Last(b: Book): Entry
    requires b.records != []
  {
    b.records[|b.records| - 1]
  }

  /** The last record's identity is still under its staged name, durably. */
  predicate LastStaged(d: Shard, b: Book) {
    b.records != [] && Name(d.pendings, Last(b).key) == Durable(Some(Last(b).inode))
  }

  /** The authority counts the book's records. What it counted before the last may come back only while that one is staged. */
  predicate Counted(c: HistoryCodec, d: Shard, b: Book) {
    && d.authority.live == CheckpointOf(c, b.records) && d.authority.live in d.authority.may
    && forall v :: v in d.authority.may ==>
         v == CheckpointOf(c, b.records) || (b.unsure && LastStaged(d, b) && v == CheckpointOf(c, Shorter(b).records))
  }

  function Firm(b: Book): Book {
    b.(unsure := false)
  }

  predicate Certain(d: Shard) {
    d.authority == Durable(d.authority.live)
  }

  /**
    The shard stands for the book: so the running process sees it, and so does every crash, but for an authority that may
    come back as it was before the last record.
   */
  ghost predicate Rest(c: HistoryCodec, d: Shard, b: Book) {
    && Chained(c, b.records) && |b.records| <= MAX_REQUESTS_PER_SHARD
    && Counted(c, d, b)
    && HistoryKeeps(c, d, b.records)
    && NamesOk(c, d, b)
    && FilesOk(d)
  }

  /** What is issued for good. */
  function Sure(b: Book): Book {
    if b.unsure && b.records != [] then Shorter(b) else Firm(b)
  }

  lemma CertainIsFirm(c: HistoryCodec, d: Shard, b: Book)
    requires Rest(c, d, b)
    ensures Certain(d) ==> Rest(c, d, Firm(b))
    ensures !b.unsure ==> Certain(d)
  {
    forall l ensures LookupOk(c, d, Firm(b), l) {
      assert LookupOk(c, d, b, l);
    }
  }

  lemma FirmIsBook(c: HistoryCodec, d: Shard, b: Book)
    requires Rest(c, d, Firm(b))
    ensures Rest(c, d, b)
  {
    forall l ensures LookupOk(c, d, b, l) {
      assert LookupOk(c, d, Firm(b), l);
    }
  }

  // ----- crashes -----

  /** The power fails: every place comes back as one of its versions. */
  predicate Crashed(d: Shard, e: Shard) {
    && e.next == d.next && e.files.Keys == d.files.Keys && Restarted(d.history, e.history) && Restarted(d.authority, e.authority)
    && (forall l {:trigger Name(e.finals, l)} :: l in d.finals.Keys + e.finals.Keys ==> Restarted(Name(d.finals, l), Name(e.finals, l)))
    && (forall l {:trigger Name(e.pendings, l)} :: l in d.pendings.Keys + e.pendings.Keys ==> Restarted(Name(d.pendings, l), Name(e.pendings, l)))
    && (forall i :: i in d.files ==> i in e.files && Restarted(d.files[i], e.files[i]))
  }

  lemma CrashKeepsNames(c: HistoryCodec, d: Shard, e: Shard, b: Book)
    requires NamesOk(c, d, b) && Crashed(d, e)
    ensures NamesOk(c, e, b)
  {
    forall l ensures LookupOk(c, e, b, l) {
      assert LookupOk(c, d, b, l);
      assert Restarted(Name(d.finals, l), Name(e.finals, l)) && Restarted(Name(d.pendings, l), Name(e.pendings, l));
    }
  }

  /** A crash that keeps the authority the process saw keeps the book. */
  lemma CrashAtRest(c: HistoryCodec, d: Shard, e: Shard, b: Book)
    requires Rest(c, d, b) && Crashed(d, e) && e.authority.live == d.authority.live
    ensures Rest(c, e, Firm(b))
  {
    CrashKeepsNames(c, d, e, b);
    CertainIsFirm(c, e, b);
  }

  /** The earlier authority comes back, and the last record's published name does not: it was never issued. */
  lemma CrashUndoes(c: HistoryCodec, d: Shard, e: Shard, b: Book)
    requires Rest(c, d, b) && Crashed(d, e) && e.authority.live != d.authority.live
    requires Name(e.finals, Last(b).key).live == None
    ensures b.unsure && LastStaged(d, b) && Rest(c, e, Shorter(b))
  {
    CrashKeepsNames(c, d, e, b);
    var init, last := Shorter(b).records, Last(b);
    assert b.records == init + [last];
    LinesOneMore(c, init, last);
    FindIs(init, last.key);
    assert LookupOk(c, d, b, last.key) && Restarted(Name(d.finals, last.key), Name(e.finals, last.key)) by {
      FindMore(init, last, last.key);
    }
    forall l ensures LookupOk(c, e, Shorter(b), l) {
      assert LookupOk(c, e, b, l);
      FindMore(init, last, l);
    }
  }

  // ----- what the steps keep -----

  /** Only the names of one lookup key changed. */
  ghost predicate Elsewhere(d: Shard, e: Shard, lookup: string) {
    && e.history == d.history && e.authority == d.authority && e.files == d.files && e.next == d.next
    && (forall l {:trigger Name(e.finals, l)} :: l != lookup ==> Name(e.finals, l) == Name(d.finals, l))
    && (forall l {:trigger Name(e.pendings, l)} :: l != lookup ==> Name(e.pendings, l) == Name(d.pendings, l))
  }

  lemma OneLookup(c: HistoryCodec, d: Shard, e: Shard, b: Book, lookup: string)
    requires Rest(c, d, b) && Elsewhere(d, e, lookup) && LookupOk(c, e, b, lookup)
    requires Certain(d) || Name(e.pendings, lookup) == Name(d.pendings, lookup) || Find(b.records, lookup) == None
    ensures Rest(c, e, b)
  {
    forall l ensures LookupOk(c, e, b, l) {
      assert LookupOk(c, d, b, l);
    }
    if LastStaged(d, b) && Find(b.records, lookup) == None {
      FindAt(c, b.records, |b.records| - 1);
    }
  }

  function Linked(d: Shard, lookup: string): Shard {
    d.(finals := d.finals[lookup := Changed(Name(d.finals, lookup), Name(d.pendings, lookup).live)])
  }

  function Unlinked(d: Shard, lookup: string): Shard {
    d.(pendings := d.pendings[lookup := Changed(Name(d.pendings, lookup), None)])
  }

  lemma SyncedName(names: map<string, Cell<Option<nat>>>, l: string)
    ensures Name(SyncedNames(names), l) == Durable(Name(names, l).live)
  {
  }

  /** A directory sync settles the authority with the names. */
  lemma SyncKeeps(c: HistoryCodec, d: Shard, b: Book)
    requires Rest(c, d, b)
    ensures Rest(c, DirSynced(d), b) && Rest(c, DirSynced(d), Firm(b)) && Certain(DirSynced(d))
  {
    forall l ensures LookupOk(c, DirSynced(d), b, l) {
      assert LookupOk(c, d, b, l);
      SyncedName(d.finals, l);
      SyncedName(d.pendings, l);
    }
    CertainIsFirm(c, DirSynced(d), b);
  }

  /** Publishing a committed identity, when its staged name is there. */
  lemma LinkKeeps(c: HistoryCodec, d: Shard, b: Book, r: Entry)
    requires Rest(c, d, b) && Find(b.records, r.key) == Some(r) && Name(d.pendings, r.key).live.Some?
    ensures Rest(c, Linked(d, r.key), b)
  {
    assert LookupOk(c, d, b, r.key);
    OneLookup(c, d, Linked(d, r.key), b, r.key);
  }

  /** Removing a staged name that no record counts on: it was never issued, or its published name is durable. */
  lemma UnlinkKeeps(c: HistoryCodec, d: Shard, b: Book, lookup: string)
    requires Rest(c, d, b)
    requires Find(b.records, lookup).Some? ==> Certain(d) && None !in Name(d.finals, lookup).may
    ensures Rest(c, Unlinked(d, lookup), b)
  {
    assert LookupOk(c, d, b, lookup);
    OneLookup(c, d, Unlinked(d, lookup), b, lookup);
  }

  lemma HistoryChanges(c: HistoryCodec, d: Shard, h: Cell<seq<byte>>, b: Book)
    requires Rest(c, d, b) && HistoryKeeps(c, d.(history := h), b.records)
    ensures Rest(c, d.(history := h), b)
  {
    forall l ensures LookupOk(c, d.(history := h), b, l) {
      assert LookupOk(c, d, b, l);
    }
  }

  /** Cutting the history back to the committed records, and making it durable as it is. */
  lemma CutKeeps(c: HistoryCodec, d: Shard, b: Book)
    requires Rest(c, d, b)
    ensures |Lines(c, b.records)| <= |d.history.live|
    ensures var cut := d.history.live[..|Lines(c, b.records)|];
            cut == Lines(c, b.records) && Rest(c, d.(history := Changed(d.history, cut)), b)
    ensures Rest(c, d.(history := Durable(d.history.live)), b)
  {
    assert Lines(c, b.records) <= d.history.live;
    var cut := d.history.live[..|Lines(c, b.records)|];
    assert cut == Lines(c, b.records);
    HistoryChanges(c, d, Changed(d.history, cut), b);
    HistoryChanges(c, d, Durable(d.history.live), b);
  }

  /** A new identity's staged name and file. */
  function Staged(d: Shard, lookup: string): Shard {
    d.(pendings := d.pendings[lookup := Changed(Name(d.pendings, lookup), Some(d.next))],
       files := d.files[d.next := Durable([])], next := d.next + 1)
  }

  /** No committed record leads to this inode. */
  ghost predicate Unrecorded(b: Book, inode: nat) {
    forall l {:trigger Find(b.records, l)} :: Find(b.records, l).Some? ==> Find(b.records, l).value.inode != inode
  }

  lemma StageKeeps(c: HistoryCodec, d: Shard, b: Book, lookup: string)
    requires Rest(c, d, b) && Find(b.records, lookup) == None
    ensures Rest(c, Staged(d, lookup), b) && Unrecorded(b, d.next)
  {
    var e := Staged(d, lookup);
    forall l ensures LookupOk(c, e, b, l) {
      assert LookupOk(c, d, b, l);
    }
    NextUnrecorded(c, d, b);
    LastElsewhere(c, d, b, lookup);
    assert Counted(c, e, b);
  }

  lemma NextUnrecorded(c: HistoryCodec, d: Shard, b: Book)
    requires Rest(c, d, b)
    ensures Unrecorded(b, d.next)
  {
    forall l {:trigger Find(b.records, l)} | Find(b.records, l).Some? ensures Find(b.records, l).value.inode != d.next {
      assert LookupOk(c, d, b, l);
    }
  }

  lemma LastElsewhere(c: HistoryCodec, d: Shard, b: Book, lookup: string)
    requires Rest(c, d, b) && Find(b.records, lookup) == None
    ensures b.records != [] ==> Last(b).key != lookup
  {
    if b.records != [] { FindAt(c, b.records, |b.records| - 1); }
  }

  /** Writing or syncing a file that no record leads to. */
  lemma FileKeeps(c: HistoryCodec, d: Shard, b: Book, inode: nat, f: Cell<seq<byte>>)
    requires Rest(c, d, b) && Unrecorded(b, inode) && Current(f)
    ensures Rest(c, d.(files := d.files[inode := f]), b)
  {
    var e := d.(files := d.files[inode := f]);
    forall l ensures LookupOk(c, e, b, l) {
      assert LookupOk(c, d, b, l);
    }
  }

  // ----- what a reader checks before it trusts a shard -----

  /** The committed records and where they end, if the history bears out the authority. */
  function LoadState(c: HistoryCodec, d: Shard): Option<(seq<Entry>, nat)> {
    if |d.history.live| > MAX_HISTORY_BYTES then None else
      match Load(c, d.history.live, d.authority.live.count)
      case None => None
      case Some(loaded) => if FinalDigest(c, loaded.0) == d.authority.live.digest then Some(loaded) else None
  }

  function Keys(d: Shard): set<string> {
    set l | l in d.finals.Keys + d.pendings.Keys && (Name(d.finals, l).live.Some? || Name(d.pendings, l).live.Some?)
  }

  /** A committed record's names lead to its inode, and a staged one's file holds the committed bytes. */
  predicate RecordSound(c: HistoryCodec, d: Shard, r: Entry) {
    var final, staged := Name(d.finals, r.key).live, Name(d.pendings, r.key).live;
    && (final.Some? || staged.Some?)
    && (final.Some? ==> final.value == r.inode)
    && (staged.Some? ==> staged.value == r.inode && FileSound(c, d, r))
  }

  predicate FileSound(c: HistoryCodec, d: Shard, r: Entry) {
    && r.inode in d.files
    && |d.files[r.inode].live| <= MAX_REQUEST_INDEX_BYTES
    && c.digest(d.files[r.inode].live) == r.value
  }

  /** Everything a reader refuses a shard for, other than a failing system call. */
  predicate Acceptable(c: HistoryCodec, d: Shard) {
    && LoadState(c, d).Some?
    && |Keys(d)| <= MAX_REQUESTS_PER_SHARD
    && var records := LoadState(c, d).value.0;
       && (forall l :: l in Keys(d) && Name(d.finals, l).live.Some? ==> Find(records, l).Some?)
       && (forall i :: 0 <= i < |records| ==> RecordSound(c, d, records[i]))
  }

  function Lookups(records: seq<Entry>): set<string> {
    if records == [] then {} else Lookups(records[..|records| - 1]) + {records[|records| - 1].key}
  }

  lemma {:induction false} LookupsAre(records: seq<Entry>, l: string)
    ensures l in Lookups(records) <==> Find(records, l).Some?
  {
    if records != [] { LookupsAre(records[..|records| - 1], l); }
  }

  lemma {:induction false} AsManyLookups(c: HistoryCodec, records: seq<Entry>)
    requires Chained(c, records)
    ensures |Lookups(records)| == |records|
  {
    if records != [] {
      var init := records[..|records| - 1];
      AsManyLookups(c, init);
      LookupsAre(init, records[|records| - 1].key);
      FindIs(init, records[|records| - 1].key);
    }
  }

  /** The staged names that no record mentions. */
  function Strays(d: Shard, records: seq<Entry>): set<string> {
    set l | l in d.pendings.Keys && Name(d.pendings, l).live.Some? && Find(records, l) == None
  }

  /** More names than a reader puts up with. */
  predicate Crowded(d: Shard, records: seq<Entry>) {
    |records| + |Strays(d, records)| > MAX_REQUESTS_PER_SHARD
  }

  lemma KeyIs(c: HistoryCodec, d: Shard, b: Book, l: string)
    requires Rest(c, d, b)
    ensures l in Keys(d) <==> l in Lookups(b.records) || l in Strays(d, b.records)
    ensures !(l in Lookups(b.records) && l in Strays(d, b.records))
  {
    assert LookupOk(c, d, b, l);
    LookupsAre(b.records, l);
  }

  lemma DisjointSizes(s: set<string>, t: set<string>, u: set<string>)
    requires forall l :: l in u <==> l in s || l in t
    requires forall l :: !(l in s && l in t)
    ensures |u| == |s| + |t|
  {
    assert u == s + t && s !! t;
  }

  lemma KeysAre(c: HistoryCodec, d: Shard, b: Book)
    requires Rest(c, d, b)
    ensures |Keys(d)| == |b.records| + |Strays(d, b.records)|
  {
    forall l ensures l in Keys(d) <==> l in Lookups(b.records) || l in Strays(d, b.records)
             ensures !(l in Lookups(b.records) && l in Strays(d, b.records))
    {
      KeyIs(c, d, b, l);
    }
    AsManyLookups(c, b.records);
    DisjointSizes(Lookups(b.records), Strays(d, b.records), Keys(d));
  }

  lemma LoadsBook(c: HistoryCodec, d: Shard, records: seq<Entry>)
    requires CanonicalIssuances(c) && Chained(c, records)
    requires d.authority.live == CheckpointOf(c, records) && HistoryKeeps(c, d, records)
    ensures LoadState(c, d) == Some((records, |Lines(c, records)|))
  {
    LoadsLines(c, records, d.history.live);
  }

  /** A shard that stands for a book is refused for crowding and for nothing else. */
  lemma RestAcceptable(c: HistoryCodec, d: Shard, b: Book)
    requires CanonicalIssuances(c) && Rest(c, d, b)
    ensures Acceptable(c, d) <==> !Crowded(d, b.records)
    ensures LoadState(c, d) == Some((b.records, |Lines(c, b.records)|))
  {
    LoadsBook(c, d, b.records);
    KeysAre(c, d, b);
    forall l | l in Keys(d) && Name(d.finals, l).live.Some? ensures Find(b.records, l).Some? {
      assert LookupOk(c, d, b, l);
    }
    forall i | 0 <= i < |b.records| ensures RecordSound(c, d, b.records[i]) {
      FindAt(c, b.records, i);
      assert LookupOk(c, d, b, b.records[i].key);
    }
  }

  // ----- appending a record to the history -----

  lemma AppendKeeps(c: HistoryCodec, h: Cell<seq<byte>>, d: Shard, records: seq<Entry>, line: seq<byte>)
    requires HistoryKeeps(c, d, records) && h == Appended(d.history, line)
    requires d.history.live == Lines(c, records) && |Lines(c, records)| + |line| <= MAX_HISTORY_BYTES
    ensures HistoryKeeps(c, d.(history := h), records)
  {
    assert line[..|line|] == line;
    assert h.live in Prefixes(d.history.live, line);
    forall v | v in h.may ensures Lines(c, records) <= v && |v| <= MAX_HISTORY_BYTES {
      if v !in d.history.may {
        var k :| 0 <= k <= |line| && v == d.history.live + line[..k];
      }
    }
  }

  lemma RoomForOne(c: HistoryCodec, records: seq<Entry>, r: Entry)
    requires Chained(c, records) && |records| < MAX_REQUESTS_PER_SHARD
    requires c.maxLine == MAX_ISSUANCE_BYTES && |c.encode(r)| <= MAX_ISSUANCE_BYTES
    ensures |Lines(c, records)| + |c.encode(r)| + 1 <= MAX_HISTORY_BYTES
  {
    LinesBound(c, records);
  }

  /** The identity is staged, bytes and name durable. */
  ghost predicate StagedOk(d: Shard, r: Entry, text: seq<byte>) {
    && Name(d.pendings, r.key) == Durable(Some(r.inode))
    && r.inode in d.files && d.files[r.inode] == Durable(text) && r.inode < d.next
  }

  /** With the record durable as well, an authority that counts it makes the longer book; the shorter one may come back. */
  lemma Issues(c: HistoryCodec, d: Shard, b: Book, r: Entry, text: seq<byte>)
    requires Rest(c, d, b) && !b.unsure && Chained(c, b.records + [r]) && StagedOk(d, r, text)
    requires |b.records| < MAX_REQUESTS_PER_SHARD
    requires HistoryKeeps(c, d, b.records + [r]) && |text| <= MAX_REQUEST_INDEX_BYTES && c.digest(text) == r.value
    ensures Rest(c, d.(authority := Changed(d.authority, CheckpointOf(c, b.records + [r]))), Grown(b, r, text))
  {
    var e := d.(authority := Changed(d.authority, CheckpointOf(c, b.records + [r])));
    LinesOneMore(c, b.records, r);
    FindIs(b.records, r.key);
    forall l ensures LookupOk(c, e, Grown(b, r, text), l) {
      assert LookupOk(c, d, b, l);
      FindMore(b.records, r, l);
    }
    assert Shorter(Grown(b, r, text)).records == b.records;
  }
}
