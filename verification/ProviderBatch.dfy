/**
  Taking a batch of provider events into a run's activity log without ever skipping one silently. Source identifiers are
  64-bit; the greatest stands for "no event yet". Any append may fail, and the process may stop after any of them.
 */
module ProviderBatch {
  import opened Results

  const NO_EVENT: nat := 18446744073709551615

  /** A provider event as it was sent: its source identifier and the digest of its content. */
  datatype Message = Message(id: nat, digest: string)

  /** A jump of the position, `from` being NO_EVENT before the first event. */
  datatype Gap = Gap(generation: string, from: nat, to: nat)

  datatype Entry = Provider(message: Message) | GapMarker(gap: Gap) | SilentMarker(key: string)

  /** What is known of the progress file: whether any was proven before, and whether it grew by bytes that owe an event. */
  datatype Progress = Progress(previous: bool, owing: bool, generation: string, key: string)

  predicate Recorded(log: seq<Entry>, m: Message) { Provider(m) in log }

  /** No other content was recorded under this identifier. */
  predicate Agrees(log: seq<Entry>, m: Message) {
    forall i :: 0 <= i < |log| && log[i].Provider? && log[i].message.id == m.id ==> log[i].message == m
  }

  /** The identifier the next event should have. */
  function Expected(position: nat, previous: bool, id: nat): nat {
    if position == NO_EVENT then if !previous && id == 0 then 0 else 1 else position + 1
  }

  /** The gap marker covers this identifier. */
  predicate Covers(e: Entry, id: nat) {
    e.GapMarker? && (e.gap.from == NO_EVENT || e.gap.from < id) && id < e.gap.to
  }

  predicate AccountedFor(log: seq<Entry>, id: nat) {
    exists i :: 0 <= i < |log| && ((log[i].Provider? && log[i].message.id == id) || Covers(log[i], id))
  }

  /** Every identifier up to the position is in the log, or under a gap marker in it. */
  ghost predicate NothingSkipped(log: seq<Entry>, position: nat) {
    position != NO_EVENT ==> forall id: nat :: 1 <= id <= position ==> AccountedFor(log, id)
  }

  lemma AccountedOn(log: seq<Entry>, more: seq<Entry>, id: nat)
    requires AccountedFor(log, id)
    ensures AccountedFor(log + more, id)
  {
    var i :| 0 <= i < |log| && ((log[i].Provider? && log[i].message.id == id) || Covers(log[i], id));
    assert (log + more)[i] == log[i];
  }

  lemma NothingSkippedOn(log: seq<Entry>, more: seq<Entry>, position: nat)
    requires NothingSkipped(log, position)
    ensures NothingSkipped(log + more, position)
  {
    forall id: nat | position != NO_EVENT && 1 <= id <= position ensures AccountedFor(log + more, id) { AccountedOn(log, more, id); }
  }

  /** The event is in the log and, unless it was the expected one, so is the marker of the jump, put there no later. */
  predicate Jumped(log: seq<Entry>, position: nat, previous: bool, generation: string, m: Message) {
    m.id == Expected(position, previous, m.id) || GapMarker(Gap(generation, position, m.id)) in log
  }

  /** Where the position stands before the i-th event ahead. */
  function Before(ahead: seq<Message>, i: nat, from: nat): nat
    requires i <= |ahead|
  {
    if i == 0 then from else ahead[i - 1].id
  }

  /** The first `n` events ahead are in the log, and the jump to each is accounted for. */
  predicate Taken(log: seq<Entry>, ahead: seq<Message>, n: nat, from: nat, p: Progress) {
    n <= |ahead| && forall i :: 0 <= i < n ==> TakenAt(log, ahead, i, from, p)
  }

  predicate TakenAt(log: seq<Entry>, ahead: seq<Message>, i: nat, from: nat, p: Progress)
    requires i < |ahead|
  {
    Recorded(log, ahead[i]) && Jumped(log, Before(ahead, i, from), p.previous, p.generation, ahead[i])
  }

  lemma TakenOn(log: seq<Entry>, longer: seq<Entry>, ahead: seq<Message>, n: nat, from: nat, p: Progress)
    requires log <= longer && Taken(log, ahead, n, from, p)
    ensures Taken(longer, ahead, n, from, p)
  {
    forall i | 0 <= i < n ensures TakenAt(longer, ahead, i, from, p) { assert TakenAt(log, ahead, i, from, p); }
  }

  /** A new gap marker is only ever the one seen just before. */
  ghost predicate MarkedOnly(before: seq<Entry>, now: seq<Entry>, seen: Option<Gap>) {
    forall g {:trigger GapMarker(g)} :: GapMarker(g) in now && GapMarker(g) !in before ==> seen == Some(g)
  }

  /** Moving on to an event whose jump is accounted for skips nothing. */
  lemma MoveKeeps(log: seq<Entry>, position: nat, previous: bool, generation: string, m: Message)
    requires NothingSkipped(log, position) && m.id < NO_EVENT && Recorded(log, m)
    requires position == NO_EVENT || position < m.id
    requires Jumped(log, position, previous, generation, m)
    ensures NothingSkipped(log, m.id)
  {
    forall id: nat | 1 <= id <= m.id ensures AccountedFor(log, id) {
      if position == NO_EVENT || id > position {
        if id == m.id {
          var i :| 0 <= i < |log| && log[i] == Provider(m);
        } else {
          var i :| 0 <= i < |log| && log[i] == GapMarker(Gap(generation, position, m.id));
          assert Covers(log[i], id);
        }
      }
    }
  }

  predicate Rising(messages: seq<Message>) {
    forall i, j :: 0 <= i < j < |messages| ==> messages[i].id < messages[j].id
  }

  predicate Whole(messages: seq<Message>) {
    forall i :: 0 <= i < |messages| ==> messages[i].id < NO_EVENT
  }

  lemma RisingOn(messages: seq<Message>, m: Message)
    requires Rising(messages) && (messages != [] ==> messages[|messages| - 1].id < m.id)
    ensures Rising(messages + [m])
  {
  }

  lemma OneMoreMessage(messages: seq<Message>, i: nat, committed: nat)
    requires i < |messages|
    ensures AheadOf(messages[..i + 1], committed)
            == AheadOf(messages[..i], committed) + if Behind(committed, messages[i]) then [] else [messages[i]]
    ensures Rising(messages[..i]) && (i > 0 ==> messages[i - 1].id < messages[i].id) ==> Rising(messages[..i + 1])
    ensures i > 0 && messages[i].id <= messages[i - 1].id ==> !Rising(messages)
  {
    assert messages[..i + 1][..i] == messages[..i] && messages[..i + 1] == messages[..i] + [messages[i]];
    if Rising(messages[..i]) && (i > 0 ==> messages[i - 1].id < messages[i].id) { RisingOn(messages[..i], messages[i]); }
  }

  predicate Behind(committed: nat, m: Message) {
    committed != NO_EVENT && m.id <= committed
  }

  function AheadOf(messages: seq<Message>, committed: nat): seq<Message> {
    if messages == [] then [] else
      var m := messages[|messages| - 1];
      AheadOf(messages[..|messages| - 1], committed) + if Behind(committed, m) then [] else [m]
  }

  /** The events ahead are exactly those not behind the position, in the batch's order. */
  lemma {:induction false} AheadRises(messages: seq<Message>, committed: nat)
    requires Rising(messages)
    ensures Rising(AheadOf(messages, committed))
    ensures forall m :: m in AheadOf(messages, committed) <==> m in messages && !Behind(committed, m)
  {
    if messages != [] {
      var init, last := messages[..|messages| - 1], messages[|messages| - 1];
      assert Rising(init) by { assert forall i :: 0 <= i < |init| ==> init[i] == messages[i]; }
      AheadRises(init, committed);
      assert messages == init + [last];
      var ahead := AheadOf(init, committed);
      forall m | m in ahead ensures m.id < last.id {
        var i :| 0 <= i < |init| && init[i] == m;
        assert messages[i] == m;
      }
      if !Behind(committed, last) { RisingOn(ahead, last); }
    }
  }

  /** The batch's identifiers rise, it repeats what was recorded, and contradicts nothing. */
  predicate Acceptable(log: seq<Entry>, messages: seq<Message>, committed: nat) {
    && Rising(messages) && (forall i :: 0 <= i < |messages| && Behind(committed, messages[i]) ==> Recorded(log, messages[i]))
    && forall i :: 0 <= i < |AheadOf(messages, committed)| ==> Agrees(log, AheadOf(messages, committed)[i])
  }

  /** What taking the events ahead relies on. */
  lemma AheadReady(messages: seq<Message>, committed: nat)
    requires Rising(messages) && Whole(messages)
    ensures var ahead := AheadOf(messages, committed);
            Rising(ahead) && Whole(ahead) && (ahead != [] ==> !Behind(committed, ahead[0]))
  {
    AheadRises(messages, committed);
    var ahead := AheadOf(messages, committed);
    forall i | 0 <= i < |ahead| ensures ahead[i].id < NO_EVENT && !Behind(committed, ahead[i]) {
      assert ahead[i] in ahead;
    }
  }

  /** Only new events, in order, and gap markers. */
  predicate NewEntries(log: seq<Entry>, committed: nat) {
    forall i :: 0 <= i < |log| && log[i].Provider? ==> !Behind(committed, log[i].message)
  }

  lemma NewOn(a: seq<Entry>, b: seq<Entry>, c: seq<Entry>, committed: nat, from: nat)
    requires a <= b <= c && NewEntries(b[|a|..], committed) && NewEntries(c[|b|..], from)
    requires committed == NO_EVENT || (from != NO_EVENT && committed <= from)
    ensures NewEntries(c[|a|..], committed)
  {
    forall i | 0 <= i < |c[|a|..]| && c[|a|..][i].Provider? ensures !Behind(committed, c[|a|..][i].message) {
      if i < |b| - |a| { assert c[|a|..][i] == b[|a|..][i]; } else { assert c[|a|..][i] == c[|b|..][i - (|b| - |a|)]; }
    }
  }

  /**
    A run's collector: its position in the provider's events, the gap seen once, and the run's activity log; `faulty` says
    that some call to the log or the provider has failed in this batch.
   */
  class Collector {
    var position: nat
    var seen: Option<Gap>
    var log: seq<Entry>
    ghost var faulty: bool

    ghost predicate Valid()
      reads this`position, this`log
    {
      position <= NO_EVENT && NothingSkipped(log, position)
    }

    constructor ()
      ensures Valid() && position == NO_EVENT && seen == None && log == [] && !faulty
    {
      position, seen, log, faulty := NO_EVENT, None, [], false;
    }

    /** A new sidecar, or a new process on the same log. */
    method Restart(forget: bool)
      requires Valid()
      modifies this`position, this`seen
      ensures Valid() && position == NO_EVENT
    {
      position := NO_EVENT;
      if forget { seen := None; }
    }

    /** Appends an entry unless it is there; a different event under a recorded identifier is refused. */
    method Append(e: Entry) returns (ok: bool)
      requires Valid()
      modifies this`log, this`faulty
      ensures (old(faulty) ==> faulty) && (!ok ==> faulty || (e.Provider? && !Agrees(old(log), e.message)))
      ensures Valid() && (log == old(log) || (log == old(log) + [e] && e !in old(log)))
      ensures ok ==> e in log
      ensures e.Provider? && !Agrees(old(log), e.message) ==> !ok && log == old(log)
    {
      ok := *;
      faulty := faulty || !ok;
      var written: bool := *;
      var conflict := e.Provider? && !Agrees(log, e.message);
      ok := ok && !conflict;
      if (ok || written) && !conflict && e !in log {
        NothingSkippedOn(log, [e], position);
        log := log + [e];
      }
    }

    /** Whether the same gap was the last one seen; a first sighting is remembered. */
    method ConfirmGap(gap: Gap) returns (confirmed: bool)
      modifies this`seen
      ensures confirmed == (old(seen) == Some(gap))
      ensures seen == if confirmed then None else Some(gap)
    {
      confirmed := seen == Some(gap);
      seen := if confirmed then None else Some(gap);
    }

    /** The events of a batch the position has not reached; those it has must be recorded as they are. */
    method Split(messages: seq<Message>) returns (ok: bool, ahead: seq<Message>)
      requires Whole(messages)
      ensures ok ==> ahead == AheadOf(messages, position) && Rising(messages)
      ensures ok <==> Rising(messages) && forall i :: 0 <= i < |messages| && Behind(position, messages[i]) ==> Recorded(log, messages[i])
    {
      ahead := [];
      for i := 0 to |messages|
        invariant ahead == AheadOf(messages[..i], position) && Rising(messages[..i])
        invariant forall k :: 0 <= k < i && Behind(position, messages[k]) ==> Recorded(log, messages[k])
      {
        var m := messages[i];
        OneMoreMessage(messages, i, position);
        if i > 0 && m.id <= messages[i - 1].id { return false, ahead; }
        if !Behind(position, m) {
          ahead := ahead + [m];
        } else if !Recorded(log, m) {
          return false, ahead;
        }
      }
      assert messages[..|messages|] == messages;
      ok := true;
    }

    /** Whether the batch is one to take, and the events of it to take. */
    method Inspect(messages: seq<Message>) returns (ok: bool, ahead: seq<Message>)
      requires Whole(messages)
      ensures ok <==> Acceptable(log, messages, position)
      ensures ok ==> ahead == AheadOf(messages, position)
    {
      ok, ahead := Split(messages);
      if ok { ok := forall i :: 0 <= i < |ahead| ==> Agrees(log, ahead[i]); }
    }

    /** A gap marker with the same jump seen twice in a row, or nothing. */
    method NoteGap(gap: Gap) returns (ok: bool)
      requires Valid()
      modifies this`seen, this`log, this`faulty
      ensures (old(faulty) ==> faulty) && (!ok && old(seen) == Some(gap) ==> faulty)
      ensures Valid() && (log == old(log) || log == old(log) + [GapMarker(gap)])
      ensures old(seen) != Some(gap) ==> !ok && log == old(log) && seen == Some(gap)
      ensures old(seen) == Some(gap) ==> seen == None
      ensures ok ==> GapMarker(gap) in log
    {
      var confirmed := ConfirmGap(gap);
      if !confirmed { return false; }
      ok := Append(GapMarker(gap));
    }

    /** The event jumps ahead over a gap that was not the last one seen, and is now. */
    ghost predicate StoppedAt(before: Option<Gap>, from: nat, previous: bool, generation: string, m: Message)
      reads this`seen
    {
      m.id != Expected(from, previous, m.id) && seen == Some(Gap(generation, from, m.id)) && before != seen
    }

    /** Takes one event the position has not reached: its jump is accounted for first, then the event, then the position moves. */
    method Advance(m: Message, previous: bool, generation: string) returns (ok: bool)
      requires Valid() && m.id < NO_EVENT && !Behind(position, m)
      modifies this
      ensures old(faulty) ==> faulty
      ensures !ok ==> faulty || !Agrees(old(log), m) || StoppedAt(old(seen), old(position), previous, generation, m)
      ensures forall other {:trigger Agrees(log, other)} :: Agrees(old(log), other) && other.id != m.id ==> Agrees(log, other)
      ensures Valid() && old(log) <= log
      ensures NewEntries(log[|old(log)|..], old(position))
      ensures position == if ok then m.id else old(position)
      ensures ok ==> Recorded(log, m) && Jumped(log, old(position), previous, generation, m)
      ensures ok && !Recorded(old(log), m)
              ==> log[|log| - 1] == Provider(m) && Jumped(log[..|log| - 1], old(position), previous, generation, m)
      ensures MarkedOnly(old(log), log, old(seen)) && (ok ==> seen == old(seen) || seen == None)
    {
      var before := position;
      if m.id != Expected(position, previous, m.id) {
        ok := NoteGap(Gap(generation, position, m.id));
        if !ok { return; }
      }
      ghost var marked := log;
      ok := Append(Provider(m));
      if ok {
        MoveKeeps(log, position, previous, generation, m);
        position := m.id;
      }
    }

    /** Marks growth of the progress file that no event explains, and starts over. */
    method MarkSilentGap(key: string) returns (ok: bool)
      requires Valid()
      modifies this`position, this`log, this`faulty
      ensures (old(faulty) ==> faulty) && (!ok ==> faulty)
      ensures Valid() && (log == old(log) || log == old(log) + [SilentMarker(key)])
      ensures if ok then position == NO_EVENT && SilentMarker(key) in log else position == old(position)
    {
      ok := Append(SilentMarker(key));
      if ok { position := NO_EVENT; }
    }

    /** The next event ahead jumps over a gap that has been seen once. */
    ghost predicate Waits(ahead: seq<Message>, through: nat, from: nat, progress: Progress)
      reads this`seen
    {
      && through < |ahead| && ahead[through].id != Expected(Before(ahead, through, from), progress.previous, ahead[through].id)
      && seen == Some(Gap(progress.generation, Before(ahead, through, from), ahead[through].id))
    }

    /** Takes the events ahead one by one, until one cannot be taken. */
    method TakeAhead(ahead: seq<Message>, progress: Progress) returns (ok: bool, ghost through: nat)
      requires Valid() && Whole(ahead) && Rising(ahead) && (ahead != [] ==> !Behind(position, ahead[0]))
      requires forall i :: 0 <= i < |ahead| ==> Agrees(log, ahead[i])
      modifies this
      ensures old(faulty) ==> faulty
      ensures !ok ==> faulty || Waits(ahead, through, old(position), progress)
      ensures Valid() && old(log) <= log && NewEntries(log[|old(log)|..], old(position))
      ensures Taken(log, ahead, through, old(position), progress) && position == Before(ahead, through, old(position))
      ensures ok ==> through == |ahead|
      ensures MarkedOnly(old(log), log, old(seen))
    {
      ok, through := true, 0;
      for i := 0 to |ahead|
        invariant ok && Valid() && old(log) <= log && NewEntries(log[|old(log)|..], old(position))
        invariant through == i && Taken(log, ahead, i, old(position), progress) && position == Before(ahead, i, old(position))
        invariant MarkedOnly(old(log), log, old(seen)) && (seen == old(seen) || seen == None)
        invariant (old(faulty) ==> faulty) && forall k :: i <= k < |ahead| ==> Agrees(log, ahead[k])
      {
        ghost var before, from := log, position;
        ok := Advance(ahead[i], progress.previous, progress.generation);
        TakenOn(before, log, ahead, i, old(position), progress);
        NewOn(old(log), before, log, old(position), from);
        if !ok { return; }
        through := i + 1;
      }
    }

    /**
      Takes one batch. `through` is how many of the events ahead were taken: each recorded, its jump accounted for; at most
      the jump that the previous batch stopped at is marked, and events the position had reached are only verified.
     */
    method CollectBatch(messages: seq<Message>, progress: Progress) returns (ok: bool, ghost through: nat)
      requires Valid() && Whole(messages)
      modifies this
      ensures !ok ==> faulty || Waits(AheadOf(messages, old(position)), through, old(position), progress)
                      || !Acceptable(old(log), messages, old(position))
      ensures ok ==> through == |AheadOf(messages, old(position))|
      ensures Valid() && old(log) <= log && NewEntries(log[|old(log)|..], old(position))
      ensures Taken(log, AheadOf(messages, old(position)), through, old(position), progress)
      ensures position == Before(AheadOf(messages, old(position)), through, old(position))
              || (AheadOf(messages, old(position)) == [] && progress.owing && position == NO_EVENT)
      ensures MarkedOnly(old(log), log, old(seen))
    {
      through, faulty := 0, false;
      var ahead;
      ok, ahead := Inspect(messages);
      if !ok { return; }
      AheadReady(messages, position);
      ok := *;
      faulty := faulty || !ok;
      if !ok { return; }
      if |ahead| == 0 {
        if progress.previous && progress.owing { ok := MarkSilentGap(progress.key); }
      } else {
        ok, through := TakeAhead(ahead, progress);
      }
    }
  }
}
