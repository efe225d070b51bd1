/**
  Collecting the evidence of one attempt exactly once: reserve, observe, publish a bundle, record its outcome event. A
  second call with the same attempt returns what the first one published, whatever failed or crashed in between.
 */
module Collection {
  import opened Results
  import opened ByteLines
  import opened Durability
  import opened AttemptStore

  /** How an observation ended: stable, or a typed failure. */
  datatype Verdict = Stable | Failed(outcome: string, code: string, phase: string, page: nat)

  /** A published bundle: the reservation it is bound to, how it ended, and everything observed. */
  datatype Bundle = Bundle(reservation: Reservation, verdict: Verdict, observed: string)

  /** The outcome event: its attempt, the verdict's outcome, and the digest of the bundle, which no two bundles share. */
  datatype OutcomeEvent = OutcomeEvent(key: string, outcome: string, bundle: Bundle)

  function EventOf(b: Bundle): OutcomeEvent {
    OutcomeEvent(b.reservation.key, if b.verdict.Stable? then "STABLE" else b.verdict.outcome, b)
  }

  /** What a call answers: a bundle with the error its verdict carries, or an error and no bundle. */
  datatype Answer = Answer(bundle: Option<Bundle>, error: Option<Verdict>)

  const NOTHING := Answer(None, Some(Failed("INTEGRITY_FAILURE", "", "", 0)))

  function VerdictError(b: Bundle): Option<Verdict> {
    if b.verdict.Stable? then None else Some(b.verdict)
  }

  function Answered(b: Bundle): Answer {
    Answer(Some(b), VerdictError(b))
  }

  const MISSING: Cell<Option<Bundle>> := Cell(None, {None})
  const NO_RECORD: Cell<Option<OutcomeEvent>> := Cell(None, {None})

  function BundleAt(bundles: map<string, Cell<Option<Bundle>>>, key: string): Cell<Option<Bundle>> {
    if key in bundles then bundles[key] else MISSING
  }

  function EventAt(events: map<string, Cell<Option<OutcomeEvent>>>, key: string): Cell<Option<OutcomeEvent>> {
    if key in events then events[key] else NO_RECORD
  }

  /** Absent for good, or this bundle and perhaps not durable yet. */
  predicate BundleOk(b: Cell<Option<Bundle>>, key: string) {
    && (b.live == None ==> b.may == {None})
    && (b.live.Some? ==> b.live.value.reservation.key == key && (b.may == {b.live} || b.may == {None, b.live}))
  }

  /** An outcome event, wherever a crash may bring it back, is the event of the bundle that is there for good. */
  predicate EventOk(e: Cell<Option<OutcomeEvent>>, b: Cell<Option<Bundle>>) {
    e.live in e.may
    && forall v :: v in e.may && v.Some? ==> b.live.Some? && b == Durable(b.live) && v.value == EventOf(b.live.value)
  }

  /** The reservation of the key is complete and durable. */
  predicate Whole(c: ReservationCodec, files: map<string, Cell<seq<byte>>>, unsynced: set<string>, owners: map<string, Reservation>,
                  poisoned: set<string>, key: string)
  {
    && key in files && key in owners && key !in unsynced && key !in poisoned
    && files[key] == Durable(c.encode(owners[key]))
  }

  /** An event has its bundle, a bundle has its whole reservation, and what was returned once is there for good. */
  predicate Sound(key: string, b: Cell<Option<Bundle>>, e: Cell<Option<OutcomeEvent>>, given: Option<Bundle>, reserved: Option<Reservation>) {
    && BundleOk(b, key) && EventOk(e, b)
    && (b.live.Some? ==> reserved == Some(b.live.value.reservation))
    && (given.Some? ==> b == Durable(given))
  }

  /**
    The evidence controller over one artifact store, one ledger and one attempt root. `returned` are the bundles answered so
    far, and `faulty` says that some call to the store, the ledger or the provider has failed in this collection.
   */
  class Controller {
    const attempts: AttemptRoot
    var bundles: map<string, Cell<Option<Bundle>>>
    var events: map<string, Cell<Option<OutcomeEvent>>>
    ghost var returned: map<string, Bundle>
    ghost var faulty: bool

    ghost predicate Valid()
      reads this`bundles, this`events, this`returned, attempts
    {
      && attempts.Valid()
      && (forall k :: k in bundles || k in events || k in returned ==> KeyOk(k))
    }

    ghost predicate KeyOk(key: string)
      reads this`bundles, this`events, this`returned, attempts
    {
      Sound(key, BundleAt(bundles, key), EventAt(events, key), Given(key), if Reserved(key) then Some(attempts.owners[key]) else None)
    }

    ghost function Given(key: string): Option<Bundle>
      reads this`returned
    {
      if key in returned then Some(returned[key]) else None
    }

    /** The reservation is complete, whatever a crash does. */
    ghost predicate Reserved(key: string)
      reads attempts
    {
      Whole(attempts.codec, attempts.files, attempts.unsynced, attempts.owners, attempts.poisoned, key)
    }

    constructor (attempts: AttemptRoot)
      requires attempts.Valid() && attempts.files == map[]
      ensures Valid() && this.attempts == attempts && bundles == map[] && events == map[] && returned == map[] && !faulty
    {
      this.attempts := attempts;
      faulty := false;
      bundles, events, returned := map[], map[], map[];
    }

    /** A reservation that still lacks its bytes has neither bundle nor event. */
    lemma NothingBefore(key: string)
      requires Valid() && !Reserved(key)
      ensures BundleAt(bundles, key) == MISSING
      ensures EventAt(events, key).may <= {None} && EventAt(events, key).live == None
    {
      if key in bundles || key in events { assert KeyOk(key); }
    }

    /** A call to the artifact store or the ledger that changes nothing. */
    method Check() returns (ok: bool)
      modifies this`faulty
      ensures faulty == (old(faulty) || !ok)
    {
      ok := *;
      faulty := faulty || !ok;
    }

    ghost function Owner(key: string): Option<Reservation>
      reads attempts
    {
      if Reserved(key) then Some(attempts.owners[key]) else None
    }

    /** Changes what is known of one bundle. */
    method SetBundle(key: string, to: Cell<Option<Bundle>>)
      requires Valid() && Sound(key, to, EventAt(events, key), Given(key), Owner(key))
      modifies this`bundles
      ensures Valid() && bundles == old(bundles)[key := to]
    {
      ghost var before := bundles;
      bundles := bundles[key := to];
      forall k | k in bundles || k in events || k in returned ensures KeyOk(k) {
        if k != key { assert BundleAt(bundles, k) == BundleAt(before, k) && old(KeyOk(k)); }
      }
    }

    method SetEvent(key: string, to: Cell<Option<OutcomeEvent>>)
      requires Valid() && Sound(key, BundleAt(bundles, key), to, Given(key), Owner(key))
      modifies this`events
      ensures Valid() && events == old(events)[key := to]
    {
      ghost var before := events;
      events := events[key := to];
      forall k | k in bundles || k in events || k in returned ensures KeyOk(k) {
        if k != key { assert EventAt(events, k) == EventAt(before, k) && old(KeyOk(k)); }
      }
    }

    /** What any key's bundle and event are, known or not. */
    lemma KeySound(key: string)
      requires Valid()
      ensures Sound(key, BundleAt(bundles, key), EventAt(events, key), Given(key), Owner(key))
    {
      if key in bundles || key in events || key in returned { assert KeyOk(key); }
    }

    /** Reads the attempt's bundle, making it durable first; it must be bound to this very attempt. */
    method ReadAttemptBundle(r: Reservation) returns (ok: bool, found: Option<Bundle>)
      requires Valid() && r.key in attempts.owners && attempts.owners[r.key] == r
      modifies this`bundles, this`faulty
      ensures (old(faulty) ==> faulty) && (!ok ==> faulty)
      ensures Valid() && (ok ==> found == BundleAt(old(bundles), r.key).live)
      ensures ok && found.Some? ==> BundleAt(bundles, r.key) == Durable(found) && found.value.reservation == r && Reserved(r.key)
      ensures !(ok && found.Some?) ==> BundleAt(bundles, r.key).live == BundleAt(old(bundles), r.key).live
      ensures found == None ==> bundles == old(bundles)
    {
      ok := Check();
      found := BundleAt(bundles, r.key).live;
      if !ok || found == None { return; }
      ok := Check();
      if !ok { return; }
      KeySound(r.key);
      SetBundle(r.key, Durable(found));
      ok := found.value.reservation == r;
    }

    /** Publishes a new bundle and makes it durable. A failing call may have published it all the same. */
    method PublishOrVerify(b: Bundle) returns (ok: bool)
      requires Valid() && BundleAt(bundles, b.reservation.key) == MISSING && Owner(b.reservation.key) == Some(b.reservation)
      modifies this`bundles, this`faulty
      ensures (old(faulty) ==> faulty) && (!ok ==> faulty)
      ensures Valid() && (ok ==> BundleAt(bundles, b.reservation.key) == Durable(Some(b)))
    {
      var key := b.reservation.key;
      KeySound(key);
      var steps: int := *;
      var to := if steps <= 0 then MISSING else if steps == 1 then Cell(Some(b), {None, Some(b)}) else Durable(Some(b));
      SetBundle(key, to);
      ok := steps > 2;
      faulty := faulty || !ok;
    }

    /** Records the bundle's outcome event and confirms it. A failing call may have recorded it all the same. */
    method CompleteEvent(b: Bundle) returns (ok: bool)
      requires Valid() && BundleAt(bundles, b.reservation.key) == Durable(Some(b)) && Owner(b.reservation.key) == Some(b.reservation)
      modifies this`events, this`faulty
      ensures (old(faulty) ==> faulty) && (!ok ==> faulty)
      ensures Valid() && (ok ==> EventAt(events, b.reservation.key) == Durable(Some(EventOf(b))))
    {
      var key := b.reservation.key;
      KeySound(key);
      var was := EventAt(events, key);
      ok := Check();
      var written: bool := *;
      if ok {
        SetEvent(key, Durable(Some(EventOf(b))));
        ok := Check();
      } else if written {
        SetEvent(key, Changed(was, Some(EventOf(b))));
      }
    }

    /** Answers with the bundle an event already settles, if the two belong together. */
    method Replay(r: Reservation, observed: OutcomeEvent) returns (answer: Answer)
      requires Valid() && EventAt(events, r.key).live == Some(observed) && Owner(r.key) == Some(r)
      modifies this`faulty
      ensures (old(faulty) ==> faulty) && (answer.bundle == None ==> faulty)
      ensures answer.bundle.Some? ==> BundleAt(bundles, r.key) == Durable(answer.bundle) && answer == Answered(answer.bundle.value)
      ensures answer.bundle == None ==> answer == NOTHING
    {
      answer := NOTHING;
      KeySound(r.key);
      var readable := Check();
      var stored := BundleAt(bundles, r.key).live;
      if readable && stored.Some? && stored.value.reservation == r && observed == EventOf(stored.value) {
        answer := Answered(stored.value);
      }
    }

    /** The attempt cannot be leased: it or its capacity is held, its file is spoilt, there is no room for it, or it is too long. */
    ghost predicate Unavailable(files: map<string, Cell<seq<byte>>>, locked: set<string>, repairing: Option<string>, r: Reservation) {
      || r.key in locked || repairing.Some? || Spoilt(attempts.codec, files, r) || Full(attempts.codec, attempts.limits, files, r)
      || |attempts.codec.encode(r)| > MAX_RESERVATION_BYTES
    }

    /** Reserves the attempt; no bundle or event is touched. */
    method Reserve(r: Reservation) returns (lease: Option<Lease>)
      requires CanonicalReservations(attempts.codec) && Valid() && Genuine(attempts.codec, r)
      modifies attempts
      ensures lease == None ==> attempts.faulty || Unavailable(old(attempts.files), old(attempts.locked), old(attempts.repairing), r)
      ensures Valid() && attempts.poisoned == old(attempts.poisoned)
      ensures lease.Some? ==> attempts.Leased(lease.value, r) && (lease.value.created ==> lease.value.needsRepair)
      ensures lease.Some? ==> if lease.value.needsRepair then !Reserved(r.key) else Owner(r.key) == Some(r)
    {
      lease := attempts.Acquire(r);
      StillSound(r.key);
    }

    /** Reservations that were whole still are, and a new one is no bundle's yet. */
    twostate lemma StillSound(key: string)
      requires old(Valid()) && attempts.Valid()
      requires bundles == old(bundles) && events == old(events) && returned == old(returned) && attempts.poisoned == old(attempts.poisoned)
      requires Elsewhere(old(attempts.files), attempts.files, key) && Elsewhere(old(attempts.owners), attempts.owners, key)
      requires ElsewhereIn(old(attempts.unsynced), attempts.unsynced, key)
      requires old(Reserved(key)) ==> Reserved(key) && attempts.owners[key] == old(attempts.owners[key])
      ensures Valid()
    {
      forall k | k in bundles || k in events || k in returned ensures KeyOk(k) {
        assert old(KeyOk(k));
        assert old(Reserved(k)) ==> Reserved(k) && attempts.owners[k] == old(attempts.owners[k]);
      }
    }

    /** Completes the reservation of an attempt nothing is known of. */
    method RepairReservation(lease: Lease) returns (ok: bool)
      requires Valid() && attempts.Leased(lease, lease.reservation) && lease.needsRepair && !Reserved(lease.reservation.key)
      modifies attempts
      ensures (old(attempts.faulty) ==> attempts.faulty) && (!ok ==> attempts.faulty)
      ensures Valid() && attempts.Leased(lease.(needsRepair := !ok), lease.reservation)
      ensures ok ==> Owner(lease.reservation.key) == Some(lease.reservation)
    {
      var key := lease.reservation.key;
      ok := attempts.Repair(lease);
      StillSound(key);
    }

    /** One bounded observation of the provider, bound to the attempt; its error is its verdict. */
    method CollectRemote(r: Reservation) returns (bundle: Option<Bundle>, error: Option<Verdict>)
      modifies this`faulty
      ensures (old(faulty) ==> faulty) && (bundle == None ==> faulty)
      ensures bundle.Some? ==> bundle.value.reservation == r && error == VerdictError(bundle.value)
      ensures bundle == None ==> error.Some?
    {
      var concluded: bool := *;
      var verdict: Verdict := *;
      var observed: string := *;
      faulty := faulty || !concluded;
      if !concluded { return None, Some(Failed("INTEGRITY_FAILURE", "", "", 0)); }
      var b := Bundle(r, verdict, observed);
      return Some(b), if verdict.Stable? then None else Some(verdict);
    }

    method GiveUp(lease: Lease) returns (answer: Answer)
      requires Valid()
      modifies attempts`locked, attempts`repairing
      ensures Valid() && answer == NOTHING
    {
      attempts.Close(lease);
      answer := NOTHING;
      forall k | k in bundles || k in events || k in returned ensures KeyOk(k) { assert old(KeyOk(k)); }
    }

    /** What was answered is remembered. */
    ghost method Remember(b: Bundle)
      requires Valid() && BundleAt(bundles, b.reservation.key) == Durable(Some(b))
      modifies this`returned
      ensures Valid() && returned == old(returned)[b.reservation.key := b]
    {
      var key := b.reservation.key;
      KeySound(key);
      returned := returned[key := b];
      forall k | k in bundles || k in events || k in returned ensures KeyOk(k) {
        if k != key { assert old(KeyOk(k)); }
      }
    }

    /** Gives the lease up and remembers what was answered. */
    method Finish(lease: Lease, b: Bundle) returns (answer: Answer)
      requires Valid() && BundleAt(bundles, b.reservation.key) == Durable(Some(b))
      modifies this`returned, attempts`locked, attempts`repairing
      ensures Valid() && answer == Answered(b) && returned == old(returned)[b.reservation.key := b]
    {
      answer := GiveUp(lease);
      Remember(b);
      answer := Answered(b);
    }

    /** An event is there: its bundle is the answer. */
    method SettleEvent(lease: Lease, observed: OutcomeEvent) returns (answer: Answer)
      requires Valid() && EventAt(events, lease.reservation.key).live == Some(observed)
      requires Owner(lease.reservation.key) == Some(lease.reservation)
      modifies this`returned, this`faulty, attempts`locked, attempts`repairing
      ensures (old(faulty) ==> faulty) && (answer.bundle == None ==> faulty)
      ensures Valid()
      ensures answer.bundle.Some? ==> Remembered(old(returned), lease.reservation.key, answer)
      ensures answer.bundle == None ==> returned == old(returned)
    {
      KeySound(lease.reservation.key);
      var replayed := Replay(lease.reservation, observed);
      if replayed.bundle.Some? {
        answer := Finish(lease, replayed.bundle.value);
      } else {
        answer := GiveUp(lease);
      }
    }

    /** The bundle to answer with: the one published before, or a new observation's. */
    method Obtain(r: Reservation) returns (bundle: Option<Bundle>, error: Option<Verdict>)
      requires Valid() && Owner(r.key) == Some(r)
      modifies this`bundles, this`faulty
      ensures (old(faulty) ==> faulty) && (bundle == None ==> faulty)
      ensures Valid() && (bundle.Some? ==> bundle.value.reservation == r && BundleAt(bundles, r.key) == Durable(bundle))
      ensures bundle.Some? && r.key in returned ==> returned[r.key] == bundle.value
    {
      error := NOTHING.error;
      var ok;
      ok, bundle := ReadAttemptBundle(r);
      if !ok { return None, error; }
      if bundle == None {
        KeySound(r.key);
        bundle, error := CollectRemote(r);
        if bundle.Some? {
          ok := PublishOrVerify(bundle.value);
          if !ok { return None, NOTHING.error; }
        }
      } else {
        KeySound(r.key);
      }
    }

    /** No event is there: obtain the bundle, then record its event. */
    method SettleBundle(lease: Lease) returns (answer: Answer)
      requires Valid() && Owner(lease.reservation.key) == Some(lease.reservation)
      modifies this, attempts`locked, attempts`repairing
      ensures (old(faulty) ==> faulty) && (answer.bundle == None ==> faulty)
      ensures Valid()
      ensures answer.bundle.Some? ==> Remembered(old(returned), lease.reservation.key, answer)
      ensures answer.bundle == None ==> returned == old(returned)
    {
      var bundle, error := Obtain(lease.reservation);
      if bundle.Some? {
        var ok := CompleteEvent(bundle.value);
        if ok {
          answer := Finish(lease, bundle.value);
          return;
        }
        error := NOTHING.error;
      }
      answer := GiveUp(lease);
      answer := answer.(error := error);
    }

    /** The rest of a call once its reservation is whole. */
    method Settle(lease: Lease) returns (answer: Answer)
      requires Valid() && Owner(lease.reservation.key) == Some(lease.reservation)
      modifies this, attempts`locked, attempts`repairing
      ensures (old(faulty) ==> faulty) && (answer.bundle == None ==> faulty)
      ensures Valid()
      ensures answer.bundle.Some? ==> Remembered(old(returned), lease.reservation.key, answer)
      ensures answer.bundle == None ==> returned == old(returned)
    {
      var ok := Check();
      var observed := EventAt(events, lease.reservation.key).live;
      if !ok {
        answer := GiveUp(lease);
      } else if observed.Some? {
        answer := SettleEvent(lease, observed.value);
      } else {
        answer := SettleBundle(lease);
      }
    }

    /** A bundle or an event is there. */
    predicate Known(key: string)
      reads this`bundles, this`events
    {
      EventAt(events, key).live.Some? || BundleAt(bundles, key).live.Some?
    }

    /**
      Completes a reservation that lacks its bytes. `poison` says that a bundle or an event is there all the same: then it
      would be spoilt for good, and no run gets there.
     */
    method Complete(lease: Lease) returns (ok: bool, poison: bool)
      requires Valid() && attempts.Leased(lease, lease.reservation) && lease.needsRepair && !Reserved(lease.reservation.key)
      modifies this`faulty, attempts
      ensures (old(faulty) ==> faulty) && (!ok ==> faulty || attempts.faulty)
      ensures Valid() && !poison && !Known(lease.reservation.key)
      ensures ok ==> Owner(lease.reservation.key) == Some(lease.reservation)
    {
      NothingBefore(lease.reservation.key);
      ok := Check();
      poison := ok && Known(lease.reservation.key);
      if ok { ok := RepairReservation(lease); }
      if !ok { var gave := GiveUp(lease); }
    }

    /** Leases the attempt with its reservation complete. */
    method Prepare(r: Reservation) returns (lease: Option<Lease>, poison: bool)
      requires CanonicalReservations(attempts.codec) && Valid() && Genuine(attempts.codec, r)
      modifies this`faulty, attempts
      ensures lease == None ==> faulty || attempts.faulty || Unavailable(old(attempts.files), old(attempts.locked), old(attempts.repairing), r)
      ensures Valid() && !poison
      ensures lease.Some? ==> lease.value.reservation == r && Owner(r.key) == Some(r) && (lease.value.created ==> !Known(r.key))
    {
      poison, faulty := false, false;
      lease := Reserve(r);
      if lease.Some? && lease.value.needsRepair {
        var ok;
        ok, poison := Complete(lease.value);
        if !ok { lease := None; }
      }
    }

    /** Collects the evidence of one attempt, or answers with what an earlier call published for it. */
    method Collect(r: Reservation) returns (answer: Answer, poison: bool)
      requires CanonicalReservations(attempts.codec) && Valid() && Genuine(attempts.codec, r)
      modifies this, attempts
      ensures answer.bundle == None
              ==> faulty || attempts.faulty || Unavailable(old(attempts.files), old(attempts.locked), old(attempts.repairing), r)
      ensures Valid() && !poison
      ensures answer.bundle.Some? ==> Remembered(old(returned), r.key, answer)
      ensures answer.bundle == None ==> returned == old(returned)
    {
      var lease;
      lease, poison := Prepare(r);
      if lease == None { return NOTHING, poison; }
      poison := poison || (lease.value.created && Known(r.key));
      answer := Settle(lease.value);
    }

    /** The answer is remembered, and is the one already given if one was. */
    ghost predicate Remembered(before: map<string, Bundle>, key: string, answer: Answer)
      requires answer.bundle.Some?
      reads this`returned
    {
      && answer == Answered(answer.bundle.value) && returned == before[key := answer.bundle.value]
      && (key in before ==> before[key] == answer.bundle.value)
    }

    /** What a crash does to the attempt root. */
    method CrashAttempts(files: map<string, seq<byte>>)
      requires Valid() && files.Keys <= attempts.files.Keys && attempts.files.Keys - attempts.unsynced <= files.Keys
      requires forall k :: k in files ==> files[k] in attempts.files[k].may
      modifies attempts
      ensures Valid() && attempts.locked == {} && bundles == old(bundles) && events == old(events)
    {
      ghost var before, unsynced := attempts.files, attempts.unsynced;
      attempts.Crash(files);
      forall k | k in bundles || k in events || k in returned ensures KeyOk(k) {
        assert old(KeyOk(k));
        WholeBack(attempts.codec, before, unsynced, attempts.owners, attempts.poisoned, files, attempts.files, k);
      }
    }

    /** What a crash does to the artifacts and the ledger. */
    method CrashStores(backBundles: map<string, Option<Bundle>>, backEvents: map<string, Option<OutcomeEvent>>)
      requires Valid()
      requires backBundles.Keys == bundles.Keys && forall k :: k in bundles ==> backBundles[k] in bundles[k].may
      requires backEvents.Keys == events.Keys && forall k :: k in events ==> backEvents[k] in events[k].may
      modifies this`bundles, this`events
      ensures Valid()
    {
      var nextBundles := map k | k in backBundles :: Durable(backBundles[k]);
      var nextEvents := map k | k in backEvents :: Durable(backEvents[k]);
      forall k ensures Sound(k, BundleAt(nextBundles, k), EventAt(nextEvents, k), Given(k), Owner(k)) {
        KeyBack(nextBundles, nextEvents, k);
      }
      bundles, events := nextBundles, nextEvents;
    }

    lemma KeyBack(nextBundles: map<string, Cell<Option<Bundle>>>, nextEvents: map<string, Cell<Option<OutcomeEvent>>>, key: string)
      requires Valid() && nextBundles.Keys == bundles.Keys && nextEvents.Keys == events.Keys
      requires key in bundles ==> nextBundles[key] == Durable(nextBundles[key].live) && nextBundles[key].live in bundles[key].may
      requires key in events ==> nextEvents[key] == Durable(nextEvents[key].live) && nextEvents[key].live in events[key].may
      ensures Sound(key, BundleAt(nextBundles, key), EventAt(nextEvents, key), Given(key), Owner(key))
    {
      KeySound(key);
      CellBack(BundleAt(bundles, key), EventAt(events, key), BundleAt(nextBundles, key), EventAt(nextEvents, key), key, Given(key), Owner(key));
    }

    /** The controller is killed: the leases are gone, and everything stays as it is. */
    method Kill()
      requires Valid()
      modifies attempts
      ensures Valid() && attempts.locked == {} && bundles == old(bundles) && events == old(events)
    {
      attempts.Kill();
      forall k | k in bundles || k in events || k in returned ensures KeyOk(k) {
        assert old(KeyOk(k));
      }
    }

    /** The power fails: the leases are gone, and everything comes back as one of its versions. */
    method Crash(files: map<string, seq<byte>>, backBundles: map<string, Option<Bundle>>, backEvents: map<string, Option<OutcomeEvent>>)
      requires Valid() && files.Keys <= attempts.files.Keys && attempts.files.Keys - attempts.unsynced <= files.Keys
      requires forall k :: k in files ==> files[k] in attempts.files[k].may
      requires backBundles.Keys == bundles.Keys && forall k :: k in bundles ==> backBundles[k] in bundles[k].may
      requires backEvents.Keys == events.Keys && forall k :: k in events ==> backEvents[k] in events[k].may
      modifies this`bundles, this`events, attempts
      ensures Valid() && attempts.locked == {}
    {
      CrashAttempts(files);
      CrashStores(backBundles, backEvents);
    }

    /** Wherever a run has got to: an outcome event has its published bundle, and a bundle its complete reservation. */
    lemma Custody(key: string)
      requires Valid()
      ensures EventAt(events, key).live.Some?
              ==> BundleAt(bundles, key).live.Some? && EventAt(events, key).live.value == EventOf(BundleAt(bundles, key).live.value)
      ensures BundleAt(bundles, key).live.Some?
              ==> Reserved(key) && attempts.owners[key] == BundleAt(bundles, key).live.value.reservation
      ensures key in returned ==> BundleAt(bundles, key).live == Some(returned[key])
    {
      KeySound(key);
    }
  }

  /** A complete reservation comes back from a crash complete. */
  lemma WholeBack(c: ReservationCodec, files: map<string, Cell<seq<byte>>>, unsynced: set<string>, owners: map<string, Reservation>,
                  poisoned: set<string>, after: map<string, seq<byte>>, back: map<string, Cell<seq<byte>>>, key: string)
    requires files.Keys - unsynced <= after.Keys && back.Keys == after.Keys
    requires forall k :: k in after ==> back[k] == Durable(after[k])
    requires key in after && key in files ==> after[key] in files[key].may
    ensures Whole(c, files, unsynced, owners, poisoned, key) ==> Whole(c, back, {}, owners, poisoned, key)
  {
  }

  lemma CellBack(b: Cell<Option<Bundle>>, e: Cell<Option<OutcomeEvent>>, c: Cell<Option<Bundle>>, f: Cell<Option<OutcomeEvent>>,
                 key: string, given: Option<Bundle>, reserved: Option<Reservation>)
    requires Sound(key, b, e, given, reserved)
    requires c == Durable(c.live) && c.live in b.may && f == Durable(f.live) && f.live in e.may
    ensures Sound(key, c, f, given, reserved)
  {
  }
}
