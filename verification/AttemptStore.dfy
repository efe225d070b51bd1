/**
  The allocator of evidence-collection attempts: one reservation file an attempt, written in full only once nothing older
  was found under its key, with bounds on attempts a run and in all that no crash may break.
 */
module AttemptStore {
  import opened Results
  import opened ByteLines
  import opened Durability

  const MAX_ATTEMPTS_PER_RUN: nat := 16
  const MAX_ATTEMPTS_GLOBAL: nat := 64
  const MAX_COMPLETED_ATTEMPT_BYTES: nat := 9437184
  const MAX_RESERVED_EVIDENCE_BYTES: nat := 603979776
  const MAX_RESERVATION_BYTES: nat := 8192
  const MARK: byte := 33

  datatype AttemptLimits = AttemptLimits(maxPerRun: nat, maxGlobal: nat, maxBytes: nat)

  predicate ValidLimits(l: AttemptLimits) {
    && 0 < l.maxPerRun <= MAX_ATTEMPTS_PER_RUN && 0 < l.maxGlobal <= MAX_ATTEMPTS_GLOBAL
    && 0 < l.maxBytes <= MAX_RESERVED_EVIDENCE_BYTES
  }

  /** The key is the digest of everything else in the reservation. */
  datatype Reservation = Reservation(key: string, run: string, rest: string)

  datatype ReservationCodec = ReservationCodec(encode: Reservation -> seq<byte>, decode: seq<byte> -> Option<Reservation>,
                                               keyOf: (string, string) -> string)

  predicate Genuine(c: ReservationCodec, r: Reservation) {
    r.key == c.keyOf(r.run, r.rest)
  }

  /** Only whole canonical reservations parse, none starts with the poison mark, and no two have one key. */
  ghost predicate CanonicalReservations(c: ReservationCodec) {
    && (forall r: Reservation :: Genuine(c, r) ==> c.decode(c.encode(r)) == Some(r))
    && (forall r: Reservation :: c.encode(r) != [] && c.encode(r)[0] != MARK)
    && (forall data: seq<byte> :: c.decode(data).Some? ==> c.encode(c.decode(data).value) == data && Genuine(c, c.decode(data).value))
    && (forall r: Reservation, torn: seq<byte> {:trigger c.encode(r), c.decode(torn)} :: torn < c.encode(r) ==> c.decode(torn) == None)
    && (forall a, b, x, y: string {:trigger c.keyOf(a, b), c.keyOf(x, y)} :: c.keyOf(a, b) == c.keyOf(x, y) ==> a == x && b == y)
  }

  /** A start of the reservation's canonical bytes, or such with the poison mark on its first byte. */
  predicate Shape(c: ReservationCodec, r: Reservation, data: seq<byte>) {
    |data| <= |c.encode(r)| && (data <= c.encode(r) || Poisoned(data))
  }

  predicate Poisoned(data: seq<byte>) {
    data != [] && data[0] == MARK
  }

  /** The file holds the whole reservation of its name. */
  predicate Complete(c: ReservationCodec, key: string, data: seq<byte>) {
    c.decode(data).Some? && c.decode(data).value.key == key
  }

  lemma CompleteIs(c: ReservationCodec, r: Reservation, data: seq<byte>)
    requires CanonicalReservations(c) && Genuine(c, r) && Shape(c, r, data)
    ensures Complete(c, r.key, data) <==> data == c.encode(r)
    ensures Complete(c, r.key, data) ==> c.decode(data) == Some(r)
    ensures Poisoned(data) ==> !(data <= c.encode(r))
  {
    assert c.decode(data).Some? ==> c.encode(c.decode(data).value) == data;
    assert data < c.encode(r) ==> c.decode(data) == None;
  }

  // ----- the inventory -----

  datatype Inventory = Inventory(total: nat, incomplete: nat, byRun: map<string, nat>)

  function RunCount(inv: Inventory, run: string): nat {
    if run in inv.byRun then inv.byRun[run] else 0
  }

  function IncompleteIn(c: ReservationCodec, files: map<string, Cell<seq<byte>>>, keys: set<string>): set<string> {
    set k | k in keys && k in files && !Complete(c, k, files[k].live)
  }

  function CompleteFor(c: ReservationCodec, files: map<string, Cell<seq<byte>>>, keys: set<string>, run: string): set<string> {
    set k | k in keys && k in files && Complete(c, k, files[k].live) && c.decode(files[k].live).value.run == run
  }

  /** The inventory counts the files: all of them, those not complete, and the complete ones by run. */
  ghost predicate Counts(c: ReservationCodec, files: map<string, Cell<seq<byte>>>, keys: set<string>, inv: Inventory) {
    && inv.total == |keys| && inv.incomplete == |IncompleteIn(c, files, keys)|
    && forall run {:trigger CountsRun(c, files, keys, inv, run)} :: CountsRun(c, files, keys, inv, run)
  }

  predicate CountsRun(c: ReservationCodec, files: map<string, Cell<seq<byte>>>, keys: set<string>, inv: Inventory, run: string) {
    RunCount(inv, run) == |CompleteFor(c, files, keys, run)|
  }

  function Counted(c: ReservationCodec, inv: Inventory, k: string, data: seq<byte>): Inventory {
    if Complete(c, k, data) then
      var run := c.decode(data).value.run;
      inv.(total := inv.total + 1, byRun := inv.byRun[run := RunCount(inv, run) + 1])
    else inv.(total := inv.total + 1, incomplete := inv.incomplete + 1)
  }

  lemma IncompleteMore(c: ReservationCodec, files: map<string, Cell<seq<byte>>>, keys: set<string>, k: string)
    requires k in files && k !in keys
    ensures IncompleteIn(c, files, keys + {k})
            == IncompleteIn(c, files, keys) + if Complete(c, k, files[k].live) then {} else {k}
  {
  }

  lemma CompleteMore(c: ReservationCodec, files: map<string, Cell<seq<byte>>>, keys: set<string>, k: string, run: string)
    requires k in files && k !in keys
    ensures var data := files[k].live;
            CompleteFor(c, files, keys + {k}, run)
            == CompleteFor(c, files, keys, run) + if Complete(c, k, data) && c.decode(data).value.run == run then {k} else {}
  {
  }

  lemma CountRun(c: ReservationCodec, files: map<string, Cell<seq<byte>>>, keys: set<string>, inv: Inventory, k: string, run: string)
    requires k in files && k !in keys && CountsRun(c, files, keys, inv, run)
    ensures CountsRun(c, files, keys + {k}, Counted(c, inv, k, files[k].live), run)
  {
    CompleteMore(c, files, keys, k, run);
    assert k !in CompleteFor(c, files, keys, run);
  }

  lemma CountOne(c: ReservationCodec, files: map<string, Cell<seq<byte>>>, keys: set<string>, inv: Inventory, k: string)
    requires k in files && k !in keys && Counts(c, files, keys, inv)
    ensures Counts(c, files, keys + {k}, Counted(c, inv, k, files[k].live))
  {
    IncompleteMore(c, files, keys, k);
    assert k !in IncompleteIn(c, files, keys);
    forall run ensures CountsRun(c, files, keys + {k}, Counted(c, inv, k, files[k].live), run) {
      CountRun(c, files, keys, inv, k, run);
    }
  }

  lemma CountNone(c: ReservationCodec, files: map<string, Cell<seq<byte>>>)
    ensures Counts(c, files, {}, Inventory(0, 0, map[]))
  {
    assert IncompleteIn(c, files, {}) == {};
    forall run ensures CountsRun(c, files, {}, Inventory(0, 0, map[]), run) {
      assert CompleteFor(c, files, {}, run) == {};
    }
  }

  lemma OneDone(all: set<string>, todo: set<string>, done: set<string>, k: string)
    requires todo + done == all && todo !! done && k in todo
    ensures k in all && k !in done && (todo - {k}) + (done + {k}) == all && todo - {k} !! done + {k}
  {
  }

  method TakeInventory(c: ReservationCodec, files: map<string, Cell<seq<byte>>>) returns (inv: Inventory)
    ensures Counts(c, files, files.Keys, inv)
  {
    inv := Inventory(0, 0, map[]);
    var todo, done := files.Keys, {};
    CountNone(c, files);
    while todo != {}
      invariant todo + done == files.Keys && todo !! done && Counts(c, files, done, inv)
      decreases todo
    {
      var k :| k in todo;
      OneDone(files.Keys, todo, done, k);
      CountOne(c, files, done, inv, k);
      inv := Counted(c, inv, k, files[k].live);
      todo, done := todo - {k}, done + {k};
    }
    assert todo + done == done;
  }

  // ----- the true counts -----

  /** The reservations made for a run, whether or not their files say so yet. */
  function Owned(owners: map<string, Reservation>, keys: set<string>, run: string): set<string> {
    set k | k in keys && k in owners && owners[k].run == run
  }

  lemma UnionAtMost(a: set<string>, b: set<string>)
    ensures |a + b| <= |a| + |b|
  {
    assert a + b == a + (b - a) && a !! (b - a);
    SubsetSmaller(b - a, b);
  }

  ghost predicate FilesOk(c: ReservationCodec, files: map<string, Cell<seq<byte>>>, owners: map<string, Reservation>) {
    && files.Keys <= owners.Keys
    && (forall k :: k in owners ==> owners[k].key == k && Genuine(c, owners[k]))
    && forall k :: k in files ==> FileOk(c, files[k], owners[k])
  }

  /** No file is ever too long for a reader. */
  lemma FilesBounded(c: ReservationCodec, files: map<string, Cell<seq<byte>>>, owners: map<string, Reservation>, key: string, v: seq<byte>)
    requires FilesOk(c, files, owners) && key in files && v in files[key].may
    ensures |v| <= MAX_RESERVATION_BYTES
  {
    assert FileOk(c, files[key], owners[key]);
    assert Shape(c, owners[key], v);
  }

  predicate FileOk(c: ReservationCodec, f: Cell<seq<byte>>, r: Reservation) {
    f.live in f.may && |c.encode(r)| <= MAX_RESERVATION_BYTES && forall v :: v in f.may ==> Shape(c, r, v)
  }

  /** Charging every incomplete reservation to every run never undercounts a run. */
  lemma ChargedToAll(c: ReservationCodec, files: map<string, Cell<seq<byte>>>, owners: map<string, Reservation>, inv: Inventory, run: string)
    requires CanonicalReservations(c) && FilesOk(c, files, owners) && Counts(c, files, files.Keys, inv)
    ensures |Owned(owners, files.Keys, run)| <= RunCount(inv, run) + inv.incomplete
  {
    var complete, incomplete := CompleteFor(c, files, files.Keys, run), IncompleteIn(c, files, files.Keys);
    forall k | k in Owned(owners, files.Keys, run) ensures k in complete + incomplete {
      assert FileOk(c, files[k], owners[k]);
      CompleteIs(c, owners[k], files[k].live);
    }
    assert CountsRun(c, files, files.Keys, inv, run);
    SubsetSmaller(Owned(owners, files.Keys, run), complete + incomplete);
    UnionAtMost(complete, incomplete);
  }

  /** Every run, all runs together, and the bytes they reserve stay within the limits. */
  ghost predicate Within(l: AttemptLimits, keys: set<string>, owners: map<string, Reservation>) {
    && |keys| <= l.maxGlobal && |keys| * MAX_COMPLETED_ATTEMPT_BYTES <= l.maxBytes
    && forall run {:trigger RunWithin(l, keys, owners, run)} :: RunWithin(l, keys, owners, run)
  }

  predicate RunWithin(l: AttemptLimits, keys: set<string>, owners: map<string, Reservation>, run: string) {
    |Owned(owners, keys, run)| <= l.maxPerRun
  }

  lemma WithinFewer(l: AttemptLimits, keys: set<string>, fewer: set<string>, owners: map<string, Reservation>)
    requires Within(l, keys, owners) && fewer <= keys
    ensures Within(l, fewer, owners)
  {
    SubsetSmaller(fewer, keys);
    forall run ensures RunWithin(l, fewer, owners, run) {
      assert RunWithin(l, keys, owners, run);
      assert Owned(owners, fewer, run) <= Owned(owners, keys, run);
      SubsetSmaller(Owned(owners, fewer, run), Owned(owners, keys, run));
    }
  }

  lemma WithinOneMore(l: AttemptLimits, keys: set<string>, owners: map<string, Reservation>, r: Reservation)
    requires Within(l, keys, owners) && r.key !in keys
    requires |keys| + 1 <= l.maxGlobal && (|keys| + 1) * MAX_COMPLETED_ATTEMPT_BYTES <= l.maxBytes
    requires |Owned(owners, keys, r.run)| + 1 <= l.maxPerRun
    ensures Within(l, keys + {r.key}, owners[r.key := r])
  {
    var all, more := keys + {r.key}, owners[r.key := r];
    forall run ensures RunWithin(l, all, more, run) {
      assert RunWithin(l, keys, owners, run);
      OwnedMore(keys, owners, r, run);
    }
  }

  lemma OwnedMore(keys: set<string>, owners: map<string, Reservation>, r: Reservation, run: string)
    requires r.key !in keys
    ensures Owned(owners[r.key := r], keys + {r.key}, run) == Owned(owners, keys, run) + if run == r.run then {r.key} else {}
  {
  }

  lemma FilesOneMore(c: ReservationCodec, files: map<string, Cell<seq<byte>>>, owners: map<string, Reservation>, r: Reservation)
    requires FilesOk(c, files, owners) && r.key !in files && Genuine(c, r) && |c.encode(r)| <= MAX_RESERVATION_BYTES
    ensures FilesOk(c, files[r.key := Durable([])], owners[r.key := r])
  {
  }

  /** The reservation's bytes do not start with the poison mark. */
  predicate Unmarked(c: ReservationCodec, r: Reservation) {
    c.encode(r) != [] && c.encode(r)[0] != MARK
  }

  lemma SameKey(c: ReservationCodec, a: Reservation, b: Reservation)
    requires CanonicalReservations(c) && Genuine(c, a) && Genuine(c, b) && a.key == b.key
    ensures a == b
  {
  }

  lemma ReservationFacts(c: ReservationCodec, files: map<string, Cell<seq<byte>>>, owners: map<string, Reservation>, inv: Inventory,
                         r: Reservation)
    requires CanonicalReservations(c) && FilesOk(c, files, owners) && Counts(c, files, files.Keys, inv) && Genuine(c, r)
    ensures Unmarked(c, r) && inv.total == |files|
    ensures |Owned(owners, files.Keys, r.run)| <= RunCount(inv, r.run) + inv.incomplete
    ensures r.key in files ==> owners[r.key] == r
  {
    ChargedToAll(c, files, owners, inv, r.run);
    if r.key in files { SameKey(c, owners[r.key], r); }
  }

  /** Whatever a crash brings back of this file is poisoned. */
  predicate AllPoisoned(f: Cell<seq<byte>>) {
    f.live in f.may && forall v :: v in f.may ==> Poisoned(v)
  }

  ghost predicate PoisonKept(files: map<string, Cell<seq<byte>>>, unsynced: set<string>, poisoned: set<string>) {
    forall k :: k in poisoned ==> k in files && k !in unsynced && AllPoisoned(files[k])
  }

  /** A repair may leave any start of the reservation. */
  lemma RepairShapes(c: ReservationCodec, f: Cell<seq<byte>>, r: Reservation, k: nat)
    requires FileOk(c, f, r) && k <= |c.encode(r)|
    ensures FileOk(c, Cell(c.encode(r)[..k], f.may + Prefixes([], c.encode(r)) + {c.encode(r)[..k]}), r)
  {
    forall v | v in Prefixes([], c.encode(r)) ensures v <= c.encode(r) {
      var i :| 0 <= i <= |c.encode(r)| && v == [] + c.encode(r)[..i];
    }
  }

  function Marked(data: seq<byte>): seq<byte> {
    [MARK] + if data == [] then [] else data[1..]
  }

  lemma PoisonMore(files: map<string, Cell<seq<byte>>>, unsynced: set<string>, poisoned: set<string>, key: string)
    requires PoisonKept(files, unsynced, poisoned) && key in files && key !in unsynced && AllPoisoned(files[key])
    ensures PoisonKept(files, unsynced, poisoned + {key})
  {
  }

  lemma SyncKeeps(c: ReservationCodec, files: map<string, Cell<seq<byte>>>, owners: map<string, Reservation>, unsynced: set<string>,
                  poisoned: set<string>, key: string)
    requires FilesOk(c, files, owners) && PoisonKept(files, unsynced, poisoned) && key in files
    ensures var synced := files[key := Durable(files[key].live)];
            synced.Keys == files.Keys && FilesOk(c, synced, owners) && PoisonKept(synced, unsynced - {key}, poisoned)
  {
    assert FileOk(c, files[key], owners[key]);
    assert files[key := Durable(files[key].live)].Keys == files.Keys;
  }

  lemma MarkedShapes(c: ReservationCodec, f: Cell<seq<byte>>, r: Reservation)
    requires FileOk(c, f, r) && c.encode(r) != []
    ensures Poisoned(Marked(f.live)) && FileOk(c, Changed(f, Marked(f.live)), r)
  {
  }

  lemma CrashKeeps(c: ReservationCodec, l: AttemptLimits, files: map<string, Cell<seq<byte>>>, owners: map<string, Reservation>,
                   unsynced: set<string>, poisoned: set<string>, after: map<string, seq<byte>>)
    requires FilesOk(c, files, owners) && Within(l, files.Keys, owners) && PoisonKept(files, unsynced, poisoned)
    requires after.Keys <= files.Keys && files.Keys - unsynced <= after.Keys
    requires forall k :: k in after ==> after[k] in files[k].may
    ensures var back := map k | k in after :: Durable(after[k]);
            back.Keys == after.Keys && FilesOk(c, back, owners) && Within(l, back.Keys, owners) && PoisonKept(back, {}, poisoned)
  {
    WithinFewer(l, files.Keys, after.Keys, owners);
    var back := map k | k in after :: Durable(after[k]);
    assert back.Keys == after.Keys;
    forall k | k in back ensures FileOk(c, back[k], owners[k]) { assert FileOk(c, files[k], owners[k]); }
  }

  /** The bounds allow one more reservation for this run. */
  predicate HasRoom(l: AttemptLimits, inv: Inventory, run: string) {
    && RunCount(inv, run) + inv.incomplete + 1 <= l.maxPerRun
    && inv.total + 1 <= l.maxGlobal && (inv.total + 1) * MAX_COMPLETED_ATTEMPT_BYTES <= l.maxBytes
  }

  ghost predicate Elsewhere<T(!new)>(before: map<string, T>, after: map<string, T>, key: string) {
    forall k: string :: k != key ==> (k in after <==> k in before) && (k in before ==> after[k] == before[k])
  }

  ghost predicate ElsewhereIn(before: set<string>, after: set<string>, key: string) {
    forall k: string :: k != key ==> (k in after <==> k in before)
  }

  /** A lease on one attempt's reservation; one that still has to be repaired also holds the capacity lock. */
  datatype Lease = Lease(reservation: Reservation, created: bool, needsRepair: bool)

  /** The file of this attempt is no start of its reservation: it is spoilt, and never leased again. */
  predicate Spoilt(c: ReservationCodec, files: map<string, Cell<seq<byte>>>, r: Reservation) {
    r.key in files && !(files[r.key].live <= c.encode(r))
  }

  /** There is no reservation for this attempt, and the bounds leave no room for one. */
  ghost predicate Full(c: ReservationCodec, l: AttemptLimits, files: map<string, Cell<seq<byte>>>, r: Reservation) {
    r.key !in files && exists inv :: Counts(c, files, files.Keys, inv) && !HasRoom(l, inv, r.run)
  }

  /**
    The attempt root. `locked` are the attempts with a lease, `repairing` the one whose lease holds the capacity lock;
    `unsynced` are files whose names a crash may lose. `owners` are the reservations ever made under a key, and `faulty` says
    that some system call has failed since the last acquisition began.
   */
  class AttemptRoot {
    const codec: ReservationCodec
    const limits: AttemptLimits
    var files: map<string, Cell<seq<byte>>>
    var unsynced: set<string>
    var locked: set<string>
    var repairing: Option<string>
    ghost var owners: map<string, Reservation>
    ghost var poisoned: set<string>
    ghost var faulty: bool

    ghost predicate Valid()
      reads this`files, this`unsynced, this`locked, this`repairing, this`owners, this`poisoned
    {
      && ValidLimits(limits)
      && FilesOk(codec, files, owners) && Within(limits, files.Keys, owners)
      && (repairing.Some? ==> repairing.value in locked)
      && PoisonKept(files, unsynced, poisoned)
    }

    constructor (codec: ReservationCodec, limits: AttemptLimits)
      requires ValidLimits(limits)
      ensures Valid() && files == map[] && locked == {} && repairing == None && poisoned == {} && !faulty
    {
      this.codec := codec;
      this.limits := limits;
      files, unsynced, locked, repairing, owners, poisoned, faulty := map[], {}, {}, None, map[], {}, false;
      new;
      forall run ensures RunWithin(limits, {}, map[], run) {
        assert Owned(map[], {}, run) == {};
      }
    }

    /** Everything the bounds promise, in the production numbers. */
    lemma Bounds(run: string)
      requires Valid()
      ensures |Owned(owners, files.Keys, run)| <= 16 && |files| <= 64 && |files| * MAX_COMPLETED_ATTEMPT_BYTES <= 576 * 1048576
    {
      assert RunWithin(limits, files.Keys, owners, run);
    }

    /** A write to an existing file; any of the versions may be what a crash leaves. */
    method Change(key: string, to: Cell<seq<byte>>)
      requires Valid() && key in files && FileOk(codec, to, owners[key]) && key !in poisoned
      modifies this`files
      ensures Valid() && files == old(files)[key := to]
    {
      files := files[key := to];
      assert files.Keys == old(files).Keys;
    }

    /** Syncs a file and its name. */
    method Sync(key: string) returns (ok: bool)
      requires Valid() && key in files
      modifies this`files, this`unsynced, this`faulty
      ensures faulty == (old(faulty) || !ok)
      ensures Valid() && files == (if ok then old(files)[key := Durable(old(files)[key].live)] else old(files))
      ensures unsynced == if ok then old(unsynced) - {key} else old(unsynced)
    {
      ok := *;
      faulty := faulty || !ok;
      if ok {
        SyncKeeps(codec, files, owners, unsynced, poisoned, key);
        files, unsynced := files[key := Durable(files[key].live)], unsynced - {key};
      }
    }

    /** A stat, a lock taken, or a check that a name still leads to the open file. */
    method Check() returns (ok: bool)
      modifies this`faulty
      ensures faulty == (old(faulty) || !ok)
    {
      ok := *;
      faulty := faulty || !ok;
    }

    /** Gives the lease up. */
    method Close(lease: Lease)
      requires Valid()
      modifies this`locked, this`repairing
      ensures Valid() && locked == old(locked) - {lease.reservation.key}
      ensures repairing == if old(repairing) == Some(lease.reservation.key) then None else old(repairing)
    {
      locked := locked - {lease.reservation.key};
      if repairing == Some(lease.reservation.key) { repairing := None; }
    }

    /** Leases a reservation that exists, if it is this one whole or the start of it. */
    method AcquireExisting(r: Reservation) returns (lease: Option<Lease>)
      requires Valid() && r.key in files && owners[r.key] == r && r.key !in locked && repairing == None && Unmarked(codec, r)
      modifies this`files, this`unsynced, this`locked, this`repairing, this`faulty
      ensures (old(faulty) ==> faulty) && (lease == None ==> faulty || !(old(files)[r.key].live <= codec.encode(r)))
      ensures Valid() && (files == old(files) || files == old(files)[r.key := Durable(old(files)[r.key].live)])
      ensures unsynced == old(unsynced) || unsynced == old(unsynced) - {r.key}
      ensures r.key in poisoned ==> lease == None
      ensures lease.Some? ==> Leased(lease.value, r) && !lease.value.created
      ensures lease.Some? ==> (lease.value.needsRepair ==> files[r.key].live != codec.encode(r)) && (lease.value.created ==> lease.value.needsRepair)
      ensures lease == None ==> locked == old(locked) && repairing == None
    {
      lease := None;
      assert FileOk(codec, files[r.key], r);
      var data := files[r.key].live;
      if data <= codec.encode(r) {
        var ok := Sync(r.key);
        if ok { ok := Check(); }
        if ok {
          Lock(r, data != codec.encode(r));
          lease := Some(Lease(r, false, data != codec.encode(r)));
        }
      }
    }

    /** Locks the attempt and, where it still has to be repaired, the capacity. */
    method Lock(r: Reservation, needsRepair: bool)
      requires Valid() && repairing == None
      modifies this`locked, this`repairing
      ensures Valid() && locked == old(locked) + {r.key} && repairing == if needsRepair then Some(r.key) else None
    {
      locked := locked + {r.key};
      if needsRepair { repairing := Some(r.key); }
    }

    /** Makes the empty file of a reservation the bounds allow. */
    method Enter(r: Reservation, inv: Inventory)
      requires Valid() && Genuine(codec, r) && r.key !in files && HasRoom(limits, inv, r.run)
      requires |codec.encode(r)| <= MAX_RESERVATION_BYTES
      requires inv.total == |files| && |Owned(owners, files.Keys, r.run)| <= RunCount(inv, r.run) + inv.incomplete
      modifies this`files, this`unsynced, this`owners
      ensures Valid() && files == old(files)[r.key := Durable([])] && owners == old(owners)[r.key := r]
      ensures unsynced == old(unsynced) + {r.key}
    {
      WithinOneMore(limits, files.Keys, owners, r);
      FilesOneMore(codec, files, owners, r);
      ghost var before := files;
      files, unsynced, owners := files[r.key := Durable([])], unsynced + {r.key}, owners[r.key := r];
      assert files.Keys == before.Keys + {r.key};
    }

    /** Reserves a new attempt, empty until it is repaired. */
    method AcquireNew(r: Reservation, inv: Inventory) returns (lease: Option<Lease>)
      requires Valid() && Genuine(codec, r) && Unmarked(codec, r) && r.key !in files && r.key !in locked && repairing == None
      requires |codec.encode(r)| <= MAX_RESERVATION_BYTES
      requires inv.total == |files| && |Owned(owners, files.Keys, r.run)| <= RunCount(inv, r.run) + inv.incomplete
      modifies this`files, this`unsynced, this`locked, this`repairing, this`owners, this`faulty
      ensures (old(faulty) ==> faulty) && (lease == None ==> faulty || !HasRoom(limits, inv, r.run))
      ensures Valid()
      ensures files == old(files) || (HasRoom(limits, inv, r.run) && files == old(files)[r.key := Durable([])])
      ensures Elsewhere(old(owners), owners, r.key) && ElsewhereIn(old(unsynced), unsynced, r.key)
      ensures lease.Some? ==> lease.value == Lease(r, true, true) && Leased(lease.value, r) && files[r.key].live != codec.encode(r)
      ensures lease == None ==> locked == old(locked) && repairing == None
      ensures !HasRoom(limits, inv, r.run) ==> lease == None
    {
      lease := None;
      if !HasRoom(limits, inv, r.run) { return; }
      var ok := Check();
      if !ok { return; }
      Enter(r, inv);
      lease := LeaseNew(r);
    }

    /** Syncs the empty file just made and leases it. */
    method LeaseNew(r: Reservation) returns (lease: Option<Lease>)
      requires Valid() && Unmarked(codec, r) && r.key !in locked && repairing == None && r.key !in poisoned
      requires r.key in files && files[r.key] == Durable([]) && r.key in owners && owners[r.key] == r
      modifies this`files, this`unsynced, this`locked, this`repairing, this`faulty
      ensures (old(faulty) ==> faulty) && (lease == None ==> faulty)
      ensures Valid() && files == old(files) && ElsewhereIn(old(unsynced), unsynced, r.key)
      ensures lease.Some? ==> lease.value == Lease(r, true, true) && Leased(lease.value, r) && files[r.key].live != codec.encode(r)
      ensures lease == None ==> locked == old(locked) && repairing == None
    {
      lease := None;
      ghost var entered := files;
      var ok := Sync(r.key);
      assert files == entered;
      if ok { ok := Check(); }
      if ok {
        Lock(r, true);
        lease := Some(Lease(r, true, true));
      }
    }

    method AcquireCounted(r: Reservation, inv: Inventory) returns (lease: Option<Lease>)
      requires Valid() && Genuine(codec, r) && Unmarked(codec, r) && r.key !in locked && repairing == None
      requires |codec.encode(r)| <= MAX_RESERVATION_BYTES
      requires inv.total == |files| && |Owned(owners, files.Keys, r.run)| <= RunCount(inv, r.run) + inv.incomplete
      requires r.key in files ==> owners[r.key] == r
      modifies this`files, this`unsynced, this`locked, this`repairing, this`owners, this`faulty
      ensures old(faulty) ==> faulty
      ensures lease == None ==> faulty || (if r.key in old(files) then !(old(files)[r.key].live <= codec.encode(r)) else !HasRoom(limits, inv, r.run))
      ensures Valid() && (r.key in poisoned ==> lease == None)
      ensures lease.Some? ==> Leased(lease.value, r) && (lease.value.created <==> r.key !in old(files))
      ensures lease.Some? ==> (lease.value.needsRepair ==> files[r.key].live != codec.encode(r)) && (lease.value.created ==> lease.value.needsRepair)
      ensures Elsewhere(old(files), files, r.key) && Elsewhere(old(owners), owners, r.key)
      ensures ElsewhereIn(old(unsynced), unsynced, r.key)
      ensures r.key in old(files) ==> r.key in files && files[r.key].live == old(files)[r.key].live && owners == old(owners)
                                      && (files[r.key] == old(files)[r.key] || files[r.key] == Durable(old(files)[r.key].live))
                                      && unsynced <= old(unsynced)
    {
      if r.key in files {
        lease := AcquireExisting(r);
      } else {
        lease := AcquireNew(r, inv);
      }
    }

    /** Counts the reservations, then leases this one or makes it. */
    method AcquireWithin(r: Reservation) returns (lease: Option<Lease>)
      requires CanonicalReservations(codec) && Valid() && Genuine(codec, r)
      modifies this`files, this`unsynced, this`locked, this`repairing, this`owners, this`faulty
      ensures old(faulty) ==> faulty
      ensures lease == None ==> faulty || r.key in old(locked) || old(repairing).Some?
                                || Spoilt(codec, old(files), r) || Full(codec, limits, old(files), r)
                                || |codec.encode(r)| > MAX_RESERVATION_BYTES
      ensures Valid() && (r.key in poisoned ==> lease == None)
      ensures lease.Some? ==> Leased(lease.value, r) && (lease.value.created <==> r.key !in old(files))
      ensures lease.Some? ==> (lease.value.needsRepair ==> files[r.key].live != codec.encode(r)) && (lease.value.created ==> lease.value.needsRepair)
      ensures Elsewhere(old(files), files, r.key) && Elsewhere(old(owners), owners, r.key)
      ensures ElsewhereIn(old(unsynced), unsynced, r.key)
      ensures r.key in old(files) ==> r.key in files && files[r.key].live == old(files)[r.key].live && owners == old(owners)
                                      && (files[r.key] == old(files)[r.key] || files[r.key] == Durable(old(files)[r.key].live))
                                      && unsynced <= old(unsynced)
    {
      lease := None;
      if |codec.encode(r)| > MAX_RESERVATION_BYTES || r.key in locked || repairing.Some? { return; }
      var inv := TakeInventory(codec, files);
      var ok := Check();
      if ok && inv.total <= limits.maxGlobal && inv.total * MAX_COMPLETED_ATTEMPT_BYTES <= limits.maxBytes {
        ReservationFacts(codec, files, owners, inv, r);
        lease := AcquireCounted(r, inv);
      }
    }

    /** Leases the attempt's reservation, making it if there is none and the bounds allow it; a poisoned one never. */
    method Acquire(r: Reservation) returns (lease: Option<Lease>)
      requires CanonicalReservations(codec) && Valid() && Genuine(codec, r)
      modifies this`files, this`unsynced, this`locked, this`repairing, this`owners, this`faulty
      ensures lease == None ==> faulty || r.key in old(locked) || old(repairing).Some?
                                || Spoilt(codec, old(files), r) || Full(codec, limits, old(files), r)
                                || |codec.encode(r)| > MAX_RESERVATION_BYTES
      ensures Valid() && (r.key in poisoned ==> lease == None)
      ensures lease.Some? ==> Leased(lease.value, r) && (lease.value.created <==> r.key !in old(files))
      ensures lease.Some? ==> (lease.value.needsRepair ==> files[r.key].live != codec.encode(r)) && (lease.value.created ==> lease.value.needsRepair)
      ensures Elsewhere(old(files), files, r.key) && Elsewhere(old(owners), owners, r.key)
      ensures ElsewhereIn(old(unsynced), unsynced, r.key)
      ensures r.key in old(files) ==> r.key in files && files[r.key].live == old(files)[r.key].live && owners == old(owners)
                                      && (files[r.key] == old(files)[r.key] || files[r.key] == Durable(old(files)[r.key].live))
                                      && unsynced <= old(unsynced)
    {
      faulty := false;
      lease := AcquireWithin(r);
    }

    /** A held lease on this reservation: its file is whole, or is the start of it and may be repaired. */
    ghost predicate Leased(lease: Lease, r: Reservation)
      reads this`files, this`unsynced, this`locked, this`repairing, this`owners, this`poisoned
    {
      && lease.reservation == r && r.key in locked && r.key in files && r.key !in unsynced && Unmarked(codec, r)
      && r.key in owners && owners[r.key] == r && r.key !in poisoned
      && if lease.needsRepair then repairing == Some(r.key) && files[r.key].live <= codec.encode(r)
         else files[r.key] == Durable(codec.encode(r))
    }

    /** Writes the reservation's bytes, or some of them. */
    method WriteReservation(r: Reservation) returns (ok: bool)
      requires Valid() && r.key in files && FileOk(codec, files[r.key], r) && owners[r.key] == r && r.key !in poisoned
      modifies this`files, this`faulty
      ensures (old(faulty) ==> faulty) && (!ok ==> faulty)
      ensures Valid() && r.key in files && Elsewhere(old(files), files, r.key)
      ensures files[r.key].live <= codec.encode(r) && (ok ==> files[r.key].live == codec.encode(r))
    {
      var k: nat :| k <= |codec.encode(r)|;
      RepairShapes(codec, files[r.key], r, k);
      Change(r.key, Cell(codec.encode(r)[..k], files[r.key].may + Prefixes([], codec.encode(r)) + {codec.encode(r)[..k]}));
      ok := k == |codec.encode(r)|;
      faulty := faulty || !ok;
      if ok { assert codec.encode(r)[..k] == codec.encode(r); }
    }

    /** Writes the reservation's bytes and syncs them. */
    method Rewrite(r: Reservation) returns (ok: bool)
      requires Valid() && r.key in files && FileOk(codec, files[r.key], r) && owners[r.key] == r && r.key !in poisoned + unsynced
      modifies this`files, this`unsynced, this`faulty
      ensures (old(faulty) ==> faulty) && (!ok ==> faulty)
      ensures Valid() && r.key in files && Elsewhere(old(files), files, r.key) && unsynced == old(unsynced)
      ensures files[r.key].live <= codec.encode(r) && (ok ==> files[r.key] == Durable(codec.encode(r)))
    {
      ok := WriteReservation(r);
      if !ok { return; }
      ok := Sync(r.key);
      assert old(unsynced) - {r.key} == old(unsynced);
      if ok { ok := Check(); }
    }

    /** Writes the whole reservation. On failure any start of it may be there. */
    method Repair(lease: Lease) returns (ok: bool)
      requires Valid() && Leased(lease, lease.reservation) && lease.needsRepair
      modifies this`files, this`unsynced, this`repairing, this`faulty
      ensures (old(faulty) ==> faulty) && (!ok ==> faulty)
      ensures Valid() && Elsewhere(old(files), files, lease.reservation.key) && ElsewhereIn(old(unsynced), unsynced, lease.reservation.key)
      ensures if ok then Leased(lease.(needsRepair := false), lease.reservation) && repairing == None
              else Leased(lease, lease.reservation) && repairing == old(repairing)
    {
      var r := lease.reservation;
      ok := Check();
      if !ok { return; }
      assert FileOk(codec, files[r.key], r);
      ok := Rewrite(r);
      if ok { repairing := None; }
    }

    /** Puts the mark over the first byte of the reservation's file and syncs it. */
    method Mark(key: string) returns (ok: bool)
      requires Valid() && key in files && key !in poisoned && key !in unsynced && codec.encode(owners[key]) != []
      modifies this`files, this`unsynced, this`faulty
      ensures (old(faulty) ==> faulty) && (!ok ==> faulty)
      ensures Valid() && files.Keys == old(files).Keys && Elsewhere(old(files), files, key) && key !in unsynced
      ensures ok ==> files[key] == Durable(Marked(old(files)[key].live))
    {
      assert FileOk(codec, files[key], owners[key]);
      MarkedShapes(codec, files[key], owners[key]);
      Change(key, Changed(files[key], Marked(files[key].live)));
      ok := Sync(key);
    }

    /** Spoils a reservation that must never be used: a mark over its first byte. */
    method Poison(lease: Lease) returns (ok: bool)
      requires Valid() && Leased(lease, lease.reservation) && (lease.created || lease.needsRepair)
      modifies this`files, this`unsynced, this`poisoned, this`faulty
      ensures (old(faulty) ==> faulty) && (!ok ==> faulty)
      ensures Valid() && files.Keys == old(files).Keys && Elsewhere(old(files), files, lease.reservation.key)
      ensures ok ==> files[lease.reservation.key] == Durable(Marked(old(files)[lease.reservation.key].live))
      ensures poisoned == old(poisoned) + if ok then {lease.reservation.key} else {}
    {
      var key := lease.reservation.key;
      ok := Check();
      if !ok { return; }
      ok := Mark(key);
      if ok {
        PoisonMore(files, unsynced, poisoned, key);
        poisoned := poisoned + {key};
      }
    }

    /** The process is killed: leases are gone, and the files stay as they are, with whatever is not synced. */
    method Kill()
      requires Valid()
      modifies this`locked, this`repairing
      ensures Valid() && locked == {} && repairing == None
    {
      locked, repairing := {}, None;
    }

    /** The power fails: leases are gone, unsynced names may be, and each file comes back as one of its versions. */
    method Crash(after: map<string, seq<byte>>)
      requires Valid() && after.Keys <= files.Keys && files.Keys - unsynced <= after.Keys
      requires forall k :: k in after ==> after[k] in files[k].may
      modifies this`files, this`unsynced, this`locked, this`repairing
      ensures Valid() && poisoned == old(poisoned) && files.Keys == after.Keys && locked == {} && repairing == None && unsynced == {}
      ensures forall k :: k in after ==> files[k] == Durable(after[k])
    {
      CrashKeeps(codec, limits, files, owners, unsynced, poisoned, after);
      files := map k | k in after :: Durable(after[k]);
      unsynced, locked, repairing := {}, {}, None;
    }
  }
}
