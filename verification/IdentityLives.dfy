/**
  A request-index shard over any number of calls, failures, kills and power losses; and exactly which power losses its
  recovery does not cover.
 */
module IdentityLives {
  import opened Results
  import opened ByteLines
  import opened Durability
  import opened LinkedHistory
  import opened ShardDisk
  import opened IdentityPublication

  // ----- one power loss -----

  /** The authority the process saw comes back, or the identity it counted last is not published yet. */
  predicate Survives(d: Shard, e: Shard, b: Book) {
    e.authority.live == d.authority.live || b.records == [] || Name(e.finals, Last(b).key).live == None
  }

  function After(d: Shard, e: Shard, b: Book): Book {
    if e.authority.live == d.authority.live || b.records == [] then Firm(b) else Shorter(b)
  }

  /** The earlier authority comes back and the last record's published name with it: that name is untracked. */
  lemma Untracked(c: HistoryCodec, d: Shard, e: Shard, b: Book)
    requires CanonicalIssuances(c) && Rest(c, d, b) && Crashed(d, e) && !Survives(d, e, b)
    ensures !Acceptable(c, e)
  {
    var init, last := Shorter(b).records, Last(b);
    assert b.records == init + [last];
    LinesOneMore(c, init, last);
    FindIs(init, last.key);
    assert Lines(c, init) <= Lines(c, b.records);
    LoadsBook(c, e, init);
    assert last.key in Keys(e);
  }

  /** What a power loss leaves is accepted exactly if it survives this way and its names do not crowd it out. */
  lemma PowerLoss(c: HistoryCodec, d: Shard, e: Shard, b: Book)
    requires CanonicalIssuances(c) && Rest(c, d, b) && Crashed(d, e)
    ensures Survives(d, e, b) ==> Rest(c, e, After(d, e, b))
    ensures Acceptable(c, e) <==> Survives(d, e, b) && !Crowded(e, After(d, e, b).records)
  {
    if !Survives(d, e, b) {
      Untracked(c, d, e, b);
    } else {
      if e.authority.live == d.authority.live {
        CrashAtRest(c, d, e, b);
      } else {
        assert Restarted(d.authority, e.authority);
        CrashUndoes(c, d, e, b);
      }
      RestAcceptable(c, e, After(d, e, b));
    }
  }

  // ----- every power loss -----

  /** Everything comes back as it is now, but for the authority, one published name and the staged names. */
  ghost function Comeback(d: Shard, authority: Checkpoint, key: string, final: Option<nat>,
                          pendings: map<string, Cell<Option<nat>>>): Shard {
    Shard(Durable(d.history.live), Durable(authority), SyncedNames(d.finals)[key := Durable(final)], pendings,
          map i | i in d.files :: Durable(d.files[i].live), d.next)
  }

  lemma ComesBack(c: HistoryCodec, d: Shard, b: Book, authority: Checkpoint, key: string, final: Option<nat>,
                  pendings: map<string, Cell<Option<nat>>>)
    requires Rest(c, d, b) && authority in d.authority.may && final in Name(d.finals, key).may
    requires pendings.Keys == d.pendings.Keys && forall l :: l in pendings ==> Restarted(d.pendings[l], pendings[l])
    ensures Crashed(d, Comeback(d, authority, key, final, pendings))
  {
    var e := Comeback(d, authority, key, final, pendings);
    forall l | l in d.finals.Keys + e.finals.Keys ensures Restarted(Name(d.finals, l), Name(e.finals, l)) {
      assert LookupOk(c, d, b, l);
      SyncedName(d.finals, l);
    }
  }

  lemma AsTheyAre(c: HistoryCodec, d: Shard, b: Book)
    requires Rest(c, d, b)
    ensures forall l :: l in d.pendings ==> Restarted(d.pendings[l], SyncedNames(d.pendings)[l])
    ensures forall l :: Current(Name(d.finals, l))
  {
    forall l | l in d.pendings ensures d.pendings[l].live in d.pendings[l].may { assert LookupOk(c, d, b, l); }
    forall l ensures Current(Name(d.finals, l)) { assert LookupOk(c, d, b, l); }
  }

  /**
    Every power loss is survived if and only if the authority is durable, or the identity it counted last cannot come back
    published. So a process that goes on after a failed sync of the authority is at risk from the link that publishes the
    identity until the next sync of the directory.
   */
  lemma UnsyncedAuthority(c: HistoryCodec, d: Shard, b: Book)
    requires CanonicalIssuances(c) && Rest(c, d, b)
    ensures (forall e {:trigger Crashed(d, e)} :: Crashed(d, e) ==> Survives(d, e, b))
            <==> Certain(d) || Name(d.finals, Last(b).key).may == {None}
  {
    if !Certain(d) && Name(d.finals, Last(b).key).may != {None} {
      var key := Last(b).key;
      var authority := CheckpointOf(c, Shorter(b).records);
      assert authority in d.authority.may by { OtherCheckpoint(c, d, b); }
      AsTheyAre(c, d, b);
      var final := OtherFinal(Name(d.finals, key));
      ComesBack(c, d, b, authority, key, final, SyncedNames(d.pendings));
      assert !Survives(d, Comeback(d, authority, key, final, SyncedNames(d.pendings)), b);
    } else if !Certain(d) {
      OtherCheckpoint(c, d, b);
      forall e | Crashed(d, e) ensures Survives(d, e, b) {
        assert Restarted(Name(d.finals, Last(b).key), Name(e.finals, Last(b).key));
      }
    }
  }

  lemma OtherCheckpoint(c: HistoryCodec, d: Shard, b: Book)
    requires Rest(c, d, b) && !Certain(d)
    ensures b.records != [] && CheckpointOf(c, Shorter(b).records) in d.authority.may
  {
    var others := d.authority.may - {d.authority.live};
    assert d.authority.may == others + {d.authority.live};
    var v :| v in others;
  }

  lemma OtherFinal(name: Cell<Option<nat>>) returns (v: Option<nat>)
    requires Current(name) && name.may != {None}
    ensures v in name.may && v.Some?
  {
    if name.live.Some? { return name.live; }
    var others := name.may - {None};
    assert name.may == others + {None};
    v :| v in others;
  }

  /** Publishing the identity of an authority that is not durable opens the gap. */
  lemma LinkedTooEarly(c: HistoryCodec, d: Shard, b: Book) returns (e: Shard)
    requires CanonicalIssuances(c) && Rest(c, d, b) && !Certain(d)
    ensures Rest(c, Linked(d, Last(b).key), b) && Crashed(Linked(d, Last(b).key), e) && !Acceptable(c, e)
  {
    OtherCheckpoint(c, d, b);
    assert LastStaged(d, b);
    FindAt(c, b.records, |b.records| - 1);
    LinkKeeps(c, d, b, Last(b));
    var linked := Linked(d, Last(b).key);
    UnsyncedAuthority(c, linked, b);
    assert Some(Last(b).inode) in Name(linked.finals, Last(b).key).may;
    e :| Crashed(linked, e) && !Survives(linked, e, b);
    Untracked(c, linked, e, b);
  }

  /** The staged names without a record that a power loss can bring back: removed ones too, until a sync. */
  function Returning(d: Shard, records: seq<Entry>): set<string> {
    set l | l in d.pendings.Keys && Name(d.pendings, l).may != {None} && Find(records, l) == None
  }

  ghost function Staying(d: Shard, records: seq<Entry>): map<string, Cell<Option<nat>>>
    requires forall l :: l in d.pendings ==> Current(d.pendings[l])
  {
    map l | l in d.pendings :: if exists v :: v in d.pendings[l].may && v.Some?
                               then var v :| v in d.pendings[l].may && v.Some?; Durable(v) else Durable(d.pendings[l].live)
  }

  /** With a durable authority every power loss leaves an accepted shard if and only if all that may return leaves room. */
  lemma CrowdedOut(c: HistoryCodec, d: Shard, b: Book)
    requires CanonicalIssuances(c) && Rest(c, d, b) && Certain(d)
    ensures (forall e {:trigger Crashed(d, e)} :: Crashed(d, e) ==> Acceptable(c, e))
            <==> |b.records| + |Returning(d, b.records)| <= MAX_REQUESTS_PER_SHARD
  {
    if |b.records| + |Returning(d, b.records)| <= MAX_REQUESTS_PER_SHARD {
      forall e | Crashed(d, e) ensures Acceptable(c, e) {
        PowerLoss(c, d, e, b);
        NoneElse(c, d, e, b);
      }
    } else {
      AllReturn(c, d, b);
    }
  }

  lemma NoneElse(c: HistoryCodec, d: Shard, e: Shard, b: Book)
    requires Rest(c, d, b) && Crashed(d, e)
    ensures |Strays(e, b.records)| <= |Returning(d, b.records)|
  {
    forall l | l in Strays(e, b.records) ensures l in Returning(d, b.records) {
      assert Restarted(Name(d.pendings, l), Name(e.pendings, l));
    }
    SubsetSmaller(Strays(e, b.records), Returning(d, b.records));
  }

  lemma AllReturn(c: HistoryCodec, d: Shard, b: Book)
    requires CanonicalIssuances(c) && Rest(c, d, b) && Certain(d)
    requires |b.records| + |Returning(d, b.records)| > MAX_REQUESTS_PER_SHARD
    ensures exists e :: Crashed(d, e) && !Acceptable(c, e)
  {
    AsTheyAre(c, d, b);
    var names := Staying(d, b.records);
    var e := Comeback(d, d.authority.live, "", Name(d.finals, "").live, names);
    ComesBack(c, d, b, d.authority.live, "", Name(d.finals, "").live, names);
    forall l | l in Returning(d, b.records) ensures l in Strays(e, b.records) {
      var v := OtherFinal(Name(d.pendings, l));
    }
    SubsetSmaller(Returning(d, b.records), Strays(e, b.records));
    PowerLoss(c, d, e, b);
  }

  // ----- any number of requests -----

  /** Every issued key stays issued, to the same record and the same bytes. */
  ghost predicate Grew(b: Book, now: Book) {
    && b.records <= now.records
    && forall l {:trigger Find(b.records, l)} :: Find(b.records, l).Some? ==>
         && Find(now.records, l) == Find(b.records, l)
         && (l in b.texts ==> l in now.texts && now.texts[l] == b.texts[l])
  }

  lemma GrownGrew(c: HistoryCodec, b: Book, r: Entry, text: seq<byte>, now: Book)
    requires Chained(c, b.records + [r]) && now.records == b.records + [r] && now.texts == b.texts[r.key := text]
    ensures Find(b.records, r.key) == None && Find(now.records, r.key) == Some(r) && Grew(b, now)
  {
    LinesOneMore(c, b.records, r);
    FindIs(b.records, r.key);
    FindMore(b.records, r, r.key);
    forall l {:trigger Find(b.records, l)} | Find(b.records, l).Some? ensures Find(b.records + [r], l) == Find(b.records, l) {
      FindMore(b.records, r, l);
    }
  }

  lemma GrewOn(a: Book, b: Book, now: Book)
    requires Grew(a, b) && Grew(b, now)
    ensures Grew(a, now)
  {
    assert now.records[..|b.records|] == b.records && b.records[..|a.records|] == a.records;
    assert now.records[..|a.records|] == a.records;
    forall l {:trigger Find(a.records, l)} | Find(a.records, l).Some?
      ensures Find(now.records, l) == Find(a.records, l) && (l in a.texts ==> l in now.texts && now.texts[l] == a.texts[l])
    {
      assert Find(b.records, l) == Find(a.records, l);
    }
  }

  lemma ShorterGrew(c: HistoryCodec, b: Book)
    requires Chained(c, b.records) && b.records != []
    ensures Grew(Shorter(b), Firm(b)) && Grew(Shorter(b), b)
  {
    var init, last := Shorter(b).records, Last(b);
    assert b.records == init + [last];
    LinesOneMore(c, init, last);
    FindIs(init, last.key);
    forall l {:trigger Find(init, l)} | Find(init, l).Some? ensures Find(b.records, l) == Find(init, l) {
      FindMore(init, last, l);
    }
  }

  lemma SureGrew(c: HistoryCodec, d: Shard, b: Book)
    requires Rest(c, d, b)
    ensures Grew(Sure(b), b) && Grew(Sure(b), Firm(b))
  {
    if b.unsure && b.records != [] { ShorterGrew(c, b); }
  }

  /** A new book after a step: what was issued for good stays so, and nothing is issued but what was asked for. */
  ghost predicate Kin(b: Book, r: Entry, text: seq<byte>, now: Book) {
    && Grew(Sure(b), Sure(now))
    && forall l {:trigger Find(now.records, l)} :: Find(now.records, l).Some? ==>
         || (Find(b.records, l) == Find(now.records, l) && (l in b.texts ==> l in now.texts && now.texts[l] == b.texts[l]))
         || (l == r.key && l in now.texts && now.texts[l] == text)
  }

  lemma GrownKin(c: HistoryCodec, start: Shard, d: Shard, b: Book, r: Entry, text: seq<byte>, now: Book)
    requires Rest(c, start, b) && Rest(c, d, Grown(b, r, text))
    requires now == Grown(b, r, text) || now == Firm(Grown(b, r, text)) || now == Shorter(Grown(b, r, text))
    ensures Kin(b, r, text, now)
  {
    SureGrew(c, start, b);
    var whole := Firm(Grown(b, r, text));
    GrownGrew(c, b, r, text, whole);
    GrewOn(Sure(b), b, whole);
    assert Shorter(Grown(b, r, text)).records == b.records;
    forall l {:trigger Find(now.records, l)} | Find(now.records, l).Some?
      ensures Find(b.records, l) == Find(now.records, l) || l == r.key
    {
      FindMore(b.records, r, l);
    }
  }

  lemma SameKin(c: HistoryCodec, d: Shard, b: Book, r: Entry, text: seq<byte>, now: Book)
    requires Rest(c, d, b) && (now == b || now == Firm(b) || (b.unsure && b.records != [] && now == Shorter(b)))
    ensures Kin(b, r, text, now)
  {
    SureGrew(c, d, b);
    if b.unsure && b.records != [] { ShorterGrew(c, b); }
  }

  /** Whatever an issuing call was doing, a power loss that is survived leaves its key issued with these bytes, or not issued. */
  lemma SafeCrashes(c: HistoryCodec, start: Shard, d: Shard, e: Shard, b: Book, r: Entry, text: seq<byte>) returns (was: Book)
    requires CanonicalIssuances(c) && Rest(c, start, b) && Safe(c, d, b, r, text) && Crashed(d, e)
    ensures Rest(c, d, was) && (was == b || was == Grown(b, r, text))
    ensures Survives(d, e, was) ==> Rest(c, e, After(d, e, was)) && Kin(b, r, text, After(d, e, was))
    ensures !Survives(d, e, was) ==> !Acceptable(c, e) && e.authority.live != d.authority.live
  {
    was := if Rest(c, d, b) then b else Grown(b, r, text);
    PowerLoss(c, d, e, was);
    if Survives(d, e, was) {
      if was == b {
        if e.authority.live != d.authority.live && b.records != [] { CrashUndoes(c, d, e, b); }
        SameKin(c, d, b, r, text, After(d, e, was));
      } else {
        GrownKin(c, start, d, b, r, text, After(d, e, was));
      }
    }
  }

  datatype Fate = Acknowledged | Declined | CutOff

  /** A request for an identity, with the bytes to issue. */
  datatype Request = Request(lookup: string, text: seq<byte>)

  /** The process may be killed at some state, which leaves the disk as it is; or the power may fail there. */
  datatype Ending = Undisturbed | Killed(at: Shard) | PowerLost(at: Shard, after: Shard)

  ghost predicate Holds(b: Book, q: Request) {
    Find(b.records, q.lookup).Some? && q.lookup in b.texts && b.texts[q.lookup] == q.text
  }

  ghost predicate AllSafe(c: HistoryCodec, passed: set<Shard>, b: Book, r: Entry, text: seq<byte>) {
    forall d :: d in passed ==> Safe(c, d, b, r, text)
  }

  /** Why a request may be declined. */
  predicate Reason(c: HistoryCodec, d: Shard, b: Book, q: Request, r: Entry) {
    || Crowded(d, b.records) || Find(b.records, q.lookup).Some? || |b.records| == MAX_REQUESTS_PER_SHARD
    || |q.text| > MAX_REQUEST_INDEX_BYTES || |c.encode(r)| > MAX_ISSUANCE_BYTES
  }

  /** The book a state passed by an issuing call stands for. */
  lemma Standing(c: HistoryCodec, start: Shard, d: Shard, b: Book, r: Entry, text: seq<byte>) returns (now: Book)
    requires Rest(c, start, b) && Safe(c, d, b, r, text)
    ensures Rest(c, d, now) && Kin(b, r, text, now)
  {
    if Rest(c, d, b) {
      now := b;
      SameKin(c, d, b, r, text, b);
    } else {
      now := Grown(b, r, text);
      GrownKin(c, start, d, b, r, text, now);
    }
  }

  lemma Acked(c: HistoryCodec, start: Shard, d: Shard, b: Book, r: Entry, text: seq<byte>)
    requires Rest(c, start, b) && Rest(c, d, Firm(Grown(b, r, text)))
    ensures Kin(b, r, text, Firm(Grown(b, r, text))) && Holds(Sure(Firm(Grown(b, r, text))), Request(r.key, text))
  {
    var now := Firm(Grown(b, r, text));
    FirmIsBook(c, d, Grown(b, r, text));
    GrownGrew(c, b, r, text, now);
    GrownKin(c, start, d, b, r, text, now);
  }

  lemma AllPassed(c: HistoryCodec, start: Shard, passed: set<Shard>, b: Book, r: Entry, text: seq<byte>)
    requires Rest(c, start, b) && SafeThrough(c, {start}, passed, b, r, text)
    ensures AllSafe(c, passed, b, r, text)
  {
  }

  /** One request to a running process. A process that failed closed declines it. */
  method Answer(shard: RequestShard, q: Request, ghost b: Book) returns (fate: Fate, ghost r: Entry, ghost now: Book)
    requires CanonicalIssuances(shard.codec) && Rest(shard.codec, shard.disk, b) && shard.failedClosed == shard.retainLock
    modifies shard
    ensures shard.failedClosed == shard.retainLock && fate != CutOff && r.key == q.lookup
    ensures AllSafe(shard.codec, shard.passed, b, r, q.text)
    ensures Rest(shard.codec, shard.disk, now) && Kin(b, r, q.text, now)
    ensures fate == Acknowledged ==> Find(b.records, q.lookup) == None && Holds(Sure(now), q)
    ensures fate == Declined ==> shard.faulty || old(shard.failedClosed) || Reason(shard.codec, old(shard.disk), b, q, r)
  {
    shard.Begin();
    ghost var start := shard.disk;
    fate, r := Declined, Entry(1, "", q.lookup, "", 0);
    if !shard.failedClosed {
      var answer;
      answer, r := shard.CreateIdentity(q.lookup, q.text, b);
      if answer == Done { fate := Acknowledged; }
    }
    AllPassed(shard.codec, start, shard.passed, b, r, q.text);
    if fate == Acknowledged {
      now := Firm(Grown(b, r, q.text));
      Acked(shard.codec, start, shard.disk, b, r, q.text);
    } else {
      now := Standing(shard.codec, start, shard.disk, b, r, q.text);
    }
  }

  /** A power loss that leaves a shard no reader accepts: for an identity published too early, or for crowding. */
  ghost predicate Breaks(c: HistoryCodec, ending: Ending) {
    && ending.PowerLost? && Crashed(ending.at, ending.after)
    && exists was :: Rest(c, ending.at, was)
                     && (!Survives(ending.at, ending.after, was) || Crowded(ending.after, After(ending.at, ending.after, was).records))
  }

  /** A kill or a power loss at some state passed, and the process that starts after it. */
  method Interrupt(shard: RequestShard, ending: Ending, ghost start: Shard, ghost b: Book, ghost text: seq<byte>, ghost r: Entry)
    returns (restarted: bool, usable: bool, ghost now: Book)
    requires CanonicalIssuances(shard.codec) && Rest(shard.codec, start, b)
    requires AllSafe(shard.codec, shard.passed, b, r, text) && shard.failedClosed == shard.retainLock
    modifies shard
    ensures shard.failedClosed == shard.retainLock
    ensures !restarted ==> usable && unchanged(shard)
    ensures restarted && usable ==> Rest(shard.codec, shard.disk, now) && Kin(b, r, text, now)
    ensures !usable ==> Breaks(shard.codec, ending) && shard.disk == ending.after && !Acceptable(shard.codec, shard.disk)
  {
    restarted, usable, now := false, true, b;
    match ending {
      case Undisturbed =>
      case Killed(at) =>
        if at in shard.passed {
          now := Standing(shard.codec, start, at, b, r, text);
          shard.Restart(at, at);
          restarted := true;
        }
      case PowerLost(at, after) =>
        if at in shard.passed && Crashed(at, after) {
          ghost var was := SafeCrashes(shard.codec, start, at, after, b, r, text);
          PowerLoss(shard.codec, at, after, was);
          now := After(at, after, was);
          usable := Acceptable(shard.codec, after);
          shard.Restart(at, after);
          restarted := true;
        }
    }
  }

  /** Every acknowledged request holds for good, and no key was acknowledged twice. */
  ghost predicate Faithful(requests: seq<Request>, fates: seq<Fate>, b: Book)
    requires |fates| == |requests|
  {
    && (forall i :: 0 <= i < |fates| && fates[i] == Acknowledged ==> Holds(b, requests[i]))
    && (forall i, j :: 0 <= i < j < |fates| && fates[i] == Acknowledged && fates[j] == Acknowledged ==>
          requests[i].lookup != requests[j].lookup)
  }

  lemma StaysFaithful(requests: seq<Request>, fates: seq<Fate>, b: Book, sure: Book, q: Request, fate: Fate)
    requires |fates| == |requests| && Faithful(requests, fates, b) && Grew(b, sure)
    requires fate == Acknowledged ==> Find(b.records, q.lookup) == None && Holds(sure, q)
    ensures Faithful(requests + [q], fates + [fate], sure)
  {
    var all, ends := requests + [q], fates + [fate];
    forall i | 0 <= i < |ends| && ends[i] == Acknowledged ensures Holds(sure, all[i]) {
      if i < |fates| { assert Holds(b, requests[i]); }
    }
    forall i, j | 0 <= i < j < |ends| && ends[i] == Acknowledged && ends[j] == Acknowledged
      ensures all[i].lookup != all[j].lookup
    {
      assert Holds(b, requests[i]);
    }
  }

  predicate SameIssue(b: Book, now: Book, l: string) {
    Find(b.records, l) == Find(now.records, l) && (l in b.texts ==> l in now.texts && now.texts[l] == b.texts[l])
  }

  predicate IssuedFor(requests: seq<Request>, now: Book, l: string) {
    exists i :: 0 <= i < |requests| && requests[i].lookup == l && l in now.texts && now.texts[l] == requests[i].text
  }

  /** Whoever is issued was issued before, or by a request for it with exactly these bytes. */
  ghost predicate Asked(requests: seq<Request>, start: Book, now: Book) {
    forall l {:trigger Find(now.records, l)} :: Find(now.records, l).Some? ==> SameIssue(start, now, l) || IssuedFor(requests, now, l)
  }

  lemma AskedMore(c: HistoryCodec, d: Shard, requests: seq<Request>, start: Book, b: Book, q: Request, r: Entry, now: Book)
    requires Asked(requests, start, b) && Kin(b, r, q.text, now) && r.key == q.lookup && Rest(c, d, b)
    ensures Asked(requests + [q], start, now)
  {
    var all := requests + [q];
    forall l {:trigger Find(now.records, l)} | Find(now.records, l).Some?
      ensures SameIssue(start, now, l) || IssuedFor(all, now, l)
    {
      if l == r.key && l in now.texts && now.texts[l] == q.text {
        assert all[|requests|] == q;
      } else {
        assert LookupOk(c, d, b, l);
        assert SameIssue(b, now, l);
        if !SameIssue(start, b, l) {
          var i :| 0 <= i < |requests| && requests[i].lookup == l && l in b.texts && b.texts[l] == requests[i].text;
          assert all[i] == requests[i];
        }
      }
    }
  }

  lemma AskedOn(requests: seq<Request>, q: Request, start: Book, now: Book)
    requires Asked(requests, start, now)
    ensures Asked(requests + [q], start, now)
  {
    var all := requests + [q];
    forall l {:trigger Find(now.records, l)} | Find(now.records, l).Some? && !SameIssue(start, now, l)
      ensures IssuedFor(all, now, l)
    {
      var i :| 0 <= i < |requests| && requests[i].lookup == l && l in now.texts && now.texts[l] == requests[i].text;
      assert all[i] == requests[i];
    }
  }

  /** What a whole life amounts to. */
  ghost predicate Story(requests: seq<Request>, fates: seq<Fate>, b: Book, now: Book)
    requires |fates| == |requests|
  {
    Faithful(requests, fates, Sure(now)) && Grew(Sure(b), Sure(now)) && Asked(requests, b, now)
  }

  lemma StoryMore(c: HistoryCodec, d: Shard, requests: seq<Request>, fates: seq<Fate>, b: Book, now: Book, q: Request, fate: Fate,
                  r: Entry, next: Book)
    requires |fates| == |requests| && Story(requests, fates, b, now) && Rest(c, d, now)
    requires Kin(now, r, q.text, next) && r.key == q.lookup
    requires fate == Acknowledged ==> Find(now.records, q.lookup) == None && Holds(Sure(next), q)
    ensures Story(requests + [q], fates + [fate], b, next)
  {
    SureGrew(c, d, now);
    StaysFaithful(requests, fates, Sure(now), Sure(next), q, fate);
    GrewOn(Sure(b), Sure(now), Sure(next));
    AskedMore(c, d, requests, b, now, q, r, next);
  }

  lemma StoryOn(requests: seq<Request>, fates: seq<Fate>, b: Book, now: Book, q: Request, fate: Fate)
    requires |fates| == |requests| && Story(requests, fates, b, now) && fate != Acknowledged
    ensures Story(requests + [q], fates + [fate], b, now)
  {
    StaysFaithful(requests, fates, Sure(now), Sure(now), q, fate);
    AskedOn(requests, q, b, now);
  }

  /** One request and its ending. */
  method Attend(shard: RequestShard, q: Request, ending: Ending, ghost b: Book)
    returns (fate: Fate, usable: bool, ghost r: Entry, ghost now: Book)
    requires CanonicalIssuances(shard.codec) && Rest(shard.codec, shard.disk, b) && shard.failedClosed == shard.retainLock
    modifies shard
    ensures shard.failedClosed == shard.retainLock && r.key == q.lookup
    ensures usable ==> Rest(shard.codec, shard.disk, now) && Kin(b, r, q.text, now)
    ensures !usable ==> fate == CutOff && Breaks(shard.codec, ending) && !Acceptable(shard.codec, shard.disk)
    ensures fate == Acknowledged ==> Find(b.records, q.lookup) == None && Holds(Sure(now), q)
    ensures fate == Declined ==> shard.faulty || old(shard.failedClosed) || Reason(shard.codec, old(shard.disk), b, q, r)
  {
    ghost var start := shard.disk;
    fate, r, now := Answer(shard, q, b);
    var restarted;
    ghost var left;
    restarted, usable, left := Interrupt(shard, ending, start, b, q.text, r);
    if restarted { fate, now := CutOff, left; }
  }

  /** One more request in a life. */
  method Next(shard: RequestShard, q: Request, ending: Ending, ghost requests: seq<Request>, ghost fates: seq<Fate>, ghost b: Book,
              ghost now: Book)
    returns (fate: Fate, usable: bool, ghost next: Book)
    requires CanonicalIssuances(shard.codec) && Rest(shard.codec, shard.disk, now) && shard.failedClosed == shard.retainLock
    requires |fates| == |requests| && Story(requests, fates, b, now)
    modifies shard
    ensures Story(requests + [q], fates + [fate], b, next)
    ensures usable ==> Rest(shard.codec, shard.disk, next) && shard.failedClosed == shard.retainLock
    ensures !usable ==> !Acceptable(shard.codec, shard.disk) && Breaks(shard.codec, ending)
  {
    ghost var start, r := shard.disk, Entry(1, "", "", "", 0);
    fate, usable, r, next := Attend(shard, q, ending, now);
    if usable {
      StoryMore(shard.codec, start, requests, fates, b, now, q, fate, r, next);
    } else {
      next := now;
      StoryOn(requests, fates, b, now, q, fate);
    }
  }

  /**
    Answers requests one after another, and each may end in a kill or a power loss; a process goes on after failed calls,
    and one that failed closed answers nothing until it is replaced. What was acknowledged holds for good. Only a power loss
    that `Breaks` can leave a shard that is not usable.
   */
  method Serve(shard: RequestShard, requests: seq<Request>, endings: seq<Ending>, ghost b: Book)
    returns (fates: seq<Fate>, usable: bool, ghost now: Book)
    requires CanonicalIssuances(shard.codec) && Rest(shard.codec, shard.disk, b) && shard.failedClosed == shard.retainLock
    requires |endings| == |requests|
    modifies shard
    ensures |fates| == |requests| && Story(requests, fates, b, now)
    ensures usable ==> Rest(shard.codec, shard.disk, now)
    ensures !usable ==> !Acceptable(shard.codec, shard.disk) && BrokenBy(shard.codec, endings)
  {
    fates, now, usable := [], b, true;
    StoryStarts(b);
    for i := 0 to |requests|
      invariant |fates| == i && Story(requests[..i], fates, b, now)
      invariant usable ==> Rest(shard.codec, shard.disk, now) && shard.failedClosed == shard.retainLock
      invariant !usable ==> !Acceptable(shard.codec, shard.disk) && BrokenBy(shard.codec, endings[..i])
    {
      OneMore(requests, i);
      var fate := Declined;
      if usable {
        fate, usable, now := Next(shard, requests[i], endings[i], requests[..i], fates, b, now);
        if !usable { BrokenNow(shard.codec, endings, i); }
      } else {
        StoryOn(requests[..i], fates, b, now, requests[i], fate);
        BrokenStill(shard.codec, endings, i);
      }
      fates := fates + [fate];
    }
    assert requests[..|requests|] == requests && endings[..|endings|] == endings;
  }

  lemma StoryStarts(b: Book)
    ensures Story([], [], b, b)
  {
  }

  lemma OneMore<T>(s: seq<T>, i: nat)
    requires i < |s|
    ensures s[..i + 1] == s[..i] + [s[i]]
  {
  }

  /** One of these power losses broke the shard. */
  ghost predicate BrokenBy(c: HistoryCodec, endings: seq<Ending>) {
    exists i :: 0 <= i < |endings| && Breaks(c, endings[i])
  }

  lemma BrokenNow(c: HistoryCodec, endings: seq<Ending>, i: nat)
    requires i < |endings| && Breaks(c, endings[i])
    ensures BrokenBy(c, endings[..i + 1])
  {
    assert endings[..i + 1][i] == endings[i];
  }

  lemma BrokenStill(c: HistoryCodec, endings: seq<Ending>, i: nat)
    requires i < |endings| && BrokenBy(c, endings[..i])
    ensures BrokenBy(c, endings[..i + 1])
  {
    var k :| 0 <= k < i && Breaks(c, endings[..i][k]);
    assert endings[..i + 1][k] == endings[..i][k];
  }
}
