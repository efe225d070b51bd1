/**
  The app-health watch: sweeps look at apps, an app unwell for long enough gets one "down" event and one "up" event when it
  answers again, and a reader pages through the last events by number.
 */
module AppWatch {
  import opened Results
  import opened NumberLedger

  /** Ten minutes, in nanoseconds; the zero time is 0. */
  const DOWN_AFTER := 600_000_000_000
  const EVENT_LIMIT: nat := 500

  type Number = x: int | 0 <= x < NUMBERS

  datatype Kind = Hosted | Site
  datatype App = App(kind: Kind, hostingKey: string, target: string, site: string)
  datatype Id = HostedId(key: string) | SiteId(text: string)

  /** Anything a look can find that is neither healthy nor unwell is treated as busy. */
  datatype Look = Healthy | Unwell | Busy
  datatype Observation = Observation(app: App, look: Look)

  datatype Change = Down | Up
  datatype Event = Event(number: Number, app: App, change: Change, since: int, at: int)
  datatype AppState = AppState(app: App, unwellSince: int, down: bool)
  datatype File = File(last: Number, apps: map<Id, AppState>, events: seq<Event>)

  function IdOf(a: App): Id {
    if a.kind == Hosted then HostedId(a.hostingKey) else SiteId(a.target + " " + a.site)
  }

  function KindOf(id: Id): Kind {
    if id.HostedId? then Hosted else Site
  }

  predicate KeyStart(c: char) {
    'a' <= c <= 'z' || '0' <= c <= '9'
  }

  /** A target's key: lower-case letters, digits and hyphens, not starting with a hyphen, at most 63 of them. */
  predicate ValidKey(key: string) {
    && 1 <= |key| <= 63 && KeyStart(key[0])
    && forall i :: 0 <= i < |key| ==> KeyStart(key[i]) || key[i] == '-'
  }

  /** Two sites on targets without a space have one id only if they are the same. */
  lemma IdsDiffer(a: App, b: App)
    requires a.kind == Site && b.kind == Site && IdOf(a) == IdOf(b) && ' ' !in a.target && ' ' !in b.target
    ensures a.target == b.target && a.site == b.site
  {
    var s, t := a.target + " " + a.site, b.target + " " + b.site;
    assert s[|a.target|] == ' ' && t[|b.target|] == ' ' && s == t;
    assert forall k :: 0 <= k < |a.target| ==> s[k] == a.target[k];
    assert forall k :: 0 <= k < |b.target| ==> t[k] == b.target[k];
    assert |a.target| == |b.target|;
    assert a.target == s[..|a.target|] && b.target == t[..|b.target|];
    assert a.site == s[|a.target| + 1..] && b.site == t[|b.target| + 1..];
  }

  /** The same app: the same hosting key, or the same site on the same target. */
  predicate SameApp(a: App, b: App) {
    a.kind == b.kind && if a.kind == Hosted then a.hostingKey == b.hostingKey else a.target == b.target && a.site == b.site
  }

  /** On valid keys an id names one app, whatever the site is called. */
  lemma IdsAreUnique(a: App, b: App)
    requires a.kind == Site ==> ValidKey(a.target)
    requires b.kind == Site ==> ValidKey(b.target)
    ensures IdOf(a) == IdOf(b) <==> SameApp(a, b)
  {
    if a.kind == Site && b.kind == Site && IdOf(a) == IdOf(b) { IdsDiffer(a, b); }
  }

  // ----- what happened to the apps -----

  /** An app was looked at, and perhaps its owner was told; or it was forgotten. */
  datatype Step = Looked(app: App, look: Look, now: int, told: Option<Event>) | Forgot(id: Id)

  predicate Concerns(s: Step, id: Id) {
    match s
    case Looked(app, _, _, _) => IdOf(app) == id
    case Forgot(i) => i == id
  }

  function ToldBy(s: Step): seq<Event> {
    if s.Looked? && s.told.Some? then [s.told.value] else []
  }

  /** Every event there ever was. */
  function Told(trace: seq<Step>): seq<Event> {
    if trace == [] then [] else Told(trace[..|trace| - 1]) + ToldBy(trace[|trace| - 1])
  }

  /** The app was looked at, and not forgotten since. */
  predicate Known(trace: seq<Step>, id: Id) {
    trace != [] &&
    var s := trace[|trace| - 1];
    if Concerns(s, id) then s.Looked? else Known(trace[..|trace| - 1], id)
  }

  /** The last event of this app since it was last forgotten is a "down". */
  predicate LastDown(trace: seq<Step>, id: Id) {
    trace != [] &&
    var s := trace[|trace| - 1];
    if Concerns(s, id) && s.Forgot? then false
    else if Concerns(s, id) && s.told.Some? then s.told.value.change == Down
    else LastDown(trace[..|trace| - 1], id)
  }

  /** The steps that end an unwell stretch, and those that can start one: the zero time does not. */
  predicate Breaks(s: Step, id: Id) {
    Concerns(s, id) && (s.Forgot? || s.look == Healthy)
  }

  predicate Counts(s: Step, id: Id) {
    Concerns(s, id) && s.Looked? && s.look == Unwell && s.now != 0
  }

  /** When the unwell stretch this app is in began; the zero time when it is in none. */
  function Since(trace: seq<Step>, id: Id): int {
    if trace == [] then 0 else
      var s, before := trace[|trace| - 1], Since(trace[..|trace| - 1], id);
      if Breaks(s, id) then 0 else if before == 0 && Counts(s, id) then s.now else before
  }

  function DownSince(trace: seq<Step>, id: Id, now: int): int {
    if Since(trace, id) == 0 then now else Since(trace, id)
  }

  /** What the owner is to be told after this look. */
  function Due(trace: seq<Step>, app: App, look: Look, now: int): Option<Event> {
    var id := IdOf(app);
    var number := (|Told(trace)| + 1) % NUMBERS;
    if look == Healthy && LastDown(trace, id) then Some(Event(number, app, Up, now, now))
    else if look == Unwell && !LastDown(trace, id) && now - DownSince(trace, id, now) >= DOWN_AFTER then
      Some(Event(number, app, Down, DownSince(trace, id, now), now))
    else None
  }

  /** Owners are told exactly what is due, and only known apps are forgotten. */
  predicate StepOk(trace: seq<Step>, s: Step) {
    match s
    case Looked(app, look, now, told) => told == Due(trace, app, look, now)
    case Forgot(id) => Known(trace, id)
  }

  predicate Faithful(trace: seq<Step>) {
    trace == [] || (var n := |trace| - 1; Faithful(trace[..n]) && StepOk(trace[..n], trace[n]))
  }

  lemma {:induction false} FaithfulAt(trace: seq<Step>, k: nat)
    requires Faithful(trace) && k < |trace|
    ensures StepOk(trace[..k], trace[k])
  {
    var n := |trace| - 1;
    if k < n {
      FaithfulAt(trace[..n], k);
      assert trace[..n][..k] == trace[..k];
    }
  }

  lemma OneMore(trace: seq<Step>, s: Step)
    requires Faithful(trace) && StepOk(trace, s)
    ensures Faithful(trace + [s]) && Told(trace + [s]) == Told(trace) + ToldBy(s)
  {
    assert (trace + [s])[..|trace|] == trace;
  }

  lemma OneMoreOf(trace: seq<Step>, s: Step, id: Id)
    ensures var more := trace + [s];
            && Known(more, id) == (if Concerns(s, id) then s.Looked? else Known(trace, id))
            && LastDown(more, id) == (if Concerns(s, id) && s.Forgot? then false
                                      else if Concerns(s, id) && s.told.Some? then s.told.value.change == Down
                                      else LastDown(trace, id))
            && Since(more, id) == (if Breaks(s, id) then 0
                                   else if Since(trace, id) == 0 && Counts(s, id) then s.now else Since(trace, id))
  {
    assert (trace + [s])[..|trace|] == trace;
  }

  /** Two processes that go on from one saved state give the next event the same number, whatever each of them tells. */
  lemma NumberGivenAgain(trace: seq<Step>, s: Step, t: Step)
    requires StepOk(trace, s) && StepOk(trace, t) && ToldBy(s) != [] && ToldBy(t) != []
    ensures ToldBy(s)[0].number == ToldBy(t)[0].number == (|Told(trace)| + 1) % NUMBERS
  {
  }

  // ----- the events of one app alternate -----

  /** Step k told something of this app, and from there on it was neither told of again nor forgotten before step j. */
  predicate LastToldAt(trace: seq<Step>, id: Id, k: nat, j: nat)
    requires k < j <= |trace|
  {
    && Concerns(trace[k], id) && trace[k].Looked? && trace[k].told.Some?
    && forall m :: k < m < j ==> !EventOrForgot(trace[m], id)
  }

  predicate EventOrForgot(s: Step, id: Id) {
    Concerns(s, id) && (s.Forgot? || s.told.Some?)
  }

  lemma {:induction false} LastDownIs(trace: seq<Step>, id: Id, k: nat, j: nat)
    requires k < j <= |trace| && LastToldAt(trace, id, k, j)
    ensures LastDown(trace[..j], id) <==> trace[k].told.value.change == Down
  {
    assert trace[..j][..j - 1] == trace[..j - 1];
    if j > k + 1 {
      assert !EventOrForgot(trace[j - 1], id);
      LastDownIs(trace, id, k, j - 1);
    }
  }

  /** Nothing was told of this app from step b on, which begins the trace or follows a forgetting of the app. */
  predicate NothingTold(trace: seq<Step>, id: Id, b: nat, j: nat)
    requires b <= j <= |trace|
  {
    (b > 0 ==> trace[b - 1] == Forgot(id)) && forall m :: b <= m < j ==> !EventOrForgot(trace[m], id)
  }

  lemma {:induction false} NotDownYet(trace: seq<Step>, id: Id, b: nat, j: nat)
    requires b <= j <= |trace| && NothingTold(trace, id, b, j)
    ensures !LastDown(trace[..j], id)
  {
    if j > 0 { assert trace[..j][..j - 1] == trace[..j - 1]; }
    if j > b {
      assert !EventOrForgot(trace[j - 1], id);
      NotDownYet(trace, id, b, j - 1);
    }
  }

  /** Between two forgettings an app's events alternate: each differs from the one before it. */
  lemma EventsAlternate(trace: seq<Step>, id: Id, k: nat, j: nat)
    requires Faithful(trace) && k < j < |trace| && LastToldAt(trace, id, k, j)
    requires trace[j].Looked? && IdOf(trace[j].app) == id && trace[j].told.Some?
    ensures trace[k].told.value.change != trace[j].told.value.change
  {
    LastDownIs(trace, id, k, j);
    FaithfulAt(trace, j);
  }

  /** And the first of them is a "down". */
  lemma FirstIsDown(trace: seq<Step>, id: Id, b: nat, j: nat)
    requires Faithful(trace) && b <= j < |trace| && NothingTold(trace, id, b, j)
    requires trace[j].Looked? && IdOf(trace[j].app) == id && trace[j].told.Some?
    ensures trace[j].told.value.change == Down
  {
    NotDownYet(trace, id, b, j);
    FaithfulAt(trace, j);
  }

  // ----- a "down" ends a long unwell stretch -----

  /** Step i is the first unwell look of the stretch that nothing has broken since step b. */
  predicate StretchFrom(trace: seq<Step>, id: Id, b: nat, i: nat) {
    && b <= i < |trace| && (b == 0 || Breaks(trace[b - 1], id))
    && (forall m :: b <= m < |trace| ==> !Breaks(trace[m], id))
    && Counts(trace[i], id) && forall m :: b <= m < i ==> !Counts(trace[m], id)
  }

  /** In no stretch: no look has counted since the last step that breaks one. */
  predicate NoStretch(trace: seq<Step>, id: Id, b: nat) {
    && b <= |trace| && (b == 0 || Breaks(trace[b - 1], id))
    && (forall m :: b <= m < |trace| ==> !Breaks(trace[m], id)) && forall m :: b <= m < |trace| ==> !Counts(trace[m], id)
  }

  lemma {:induction false} StretchIs(trace: seq<Step>, id: Id) returns (b: nat, i: nat)
    ensures Since(trace, id) == 0 ==> NoStretch(trace, id, b)
    ensures Since(trace, id) != 0 ==> StretchFrom(trace, id, b, i) && trace[i].now == Since(trace, id)
  {
    b, i := 0, 0;
    if trace != [] {
      var n := |trace| - 1;
      b, i := StretchIs(trace[..n], id);
      if Breaks(trace[n], id) {
        b := n + 1;
      } else if Since(trace[..n], id) == 0 {
        i := n;
      }
    }
  }

  /**
    A "down" follows an unwell look ten minutes or more after the first unwell look of the stretch, whose time it gives; in
    the stretch the app was not once seen healthy and not forgotten.
   */
  lemma DownAfterStretch(trace: seq<Step>, k: nat) returns (b: nat, i: nat)
    requires Faithful(trace) && k < |trace| && trace[k].Looked? && trace[k].told.Some? && trace[k].told.value.change == Down
    ensures var s := trace[k];
            && s.look == Unwell && s.told.value.at == s.now && s.told.value.app == s.app
            && StretchFrom(trace[..k + 1], IdOf(s.app), b, i) && trace[i].now == s.told.value.since
            && s.now - trace[i].now >= DOWN_AFTER
  {
    var s, id := trace[k], IdOf(trace[k].app);
    FaithfulAt(trace, k);
    b, i := StretchIs(trace[..k + 1], id);
    assert trace[..k + 1] == trace[..k] + [s];
    OneMoreOf(trace[..k], s, id);
  }

  /** No look that makes a "down" due goes without one, and none that finds an app healthy again goes without an "up". */
  lemma NothingDueIsMissed(trace: seq<Step>, id: Id, b: nat, i: nat, k: nat)
    requires Faithful(trace) && i < k < |trace| && trace[k].Looked? && IdOf(trace[k].app) == id
    requires StretchFrom(trace[..k], id, b, i) && trace[k].look == Unwell && trace[k].now - trace[i].now >= DOWN_AFTER
    ensures LastDown(trace[..k + 1], id) && (trace[k].told.Some? <==> !LastDown(trace[..k], id))
  {
    FaithfulAt(trace, k);
    StretchUnique(trace[..k], id, b, i);
    assert trace[..k + 1] == trace[..k] + [trace[k]];
    OneMoreOf(trace[..k], trace[k], id);
  }

  lemma StretchUnique(trace: seq<Step>, id: Id, b: nat, i: nat)
    requires StretchFrom(trace, id, b, i)
    ensures Since(trace, id) == trace[i].now
  {
    var c, j := StretchIs(trace, id);
    assert Counts(trace[i], id) && !Breaks(trace[i], id);
    assert b <= c && c <= b;
  }

  // ----- the watch -----

  function LastOf(events: seq<Event>): (kept: seq<Event>) {
    if |events| > EVENT_LIMIT then events[|events| - EVENT_LIMIT..] else events
  }

  predicate Agrees(file: File, trace: seq<Step>, id: Id) {
    && (Known(trace, id) <==> id in file.apps)
    && (if id in file.apps then
          IdOf(file.apps[id].app) == id && file.apps[id].down == LastDown(trace, id) && file.apps[id].unwellSince == Since(trace, id)
        else
          !LastDown(trace, id) && Since(trace, id) == 0)
  }

  /** The file is what the trace leaves behind: the state of every app, the number of events and the last of them. */
  ghost predicate Reflects(file: File, trace: seq<Step>) {
    && Faithful(trace) && file.last == |Told(trace)| % NUMBERS && file.events == LastOf(Told(trace))
    && forall id :: Agrees(file, trace, id)
  }

  function Looks(trace: seq<Step>, o: Observation, now: int): Step {
    Looked(o.app, o.look, now, Due(trace, o.app, o.look, now))
  }

  /** The sweep looks at each of its apps of this kind in turn. */
  function Swept(trace: seq<Step>, kind: Kind, observations: seq<Observation>, now: int): (r: seq<Step>)
    ensures trace <= r
  {
    if observations == [] then trace else
      var n := |observations| - 1;
      var before := Swept(trace, kind, observations[..n], now);
      if observations[n].app.kind != kind then before else before + [Looks(before, observations[n], now)]
  }

  /** The apps of this kind that the sweep holds. */
  function Seen(kind: Kind, observations: seq<Observation>): set<Id> {
    set o | o in observations && o.app.kind == kind :: IdOf(o.app)
  }

  predicate StateIs(s: AppState, trace: seq<Step>, id: Id) {
    s.down == LastDown(trace, id) && s.unwellSince == Since(trace, id)
  }

  predicate Emits(was: File, now: File, told: seq<Event>) {
    now.last == (was.last + |told|) % NUMBERS && now.events == (if told == [] then was.events else LastOf(was.events + told))
  }

  lemma KeptMore(events: seq<Event>, more: seq<Event>)
    requires |more| <= 1
    ensures LastOf(LastOf(events) + more) == LastOf(events + more)
  {
  }

  lemma Modulo(n: nat)
    ensures n % NUMBERS % NUMBERS == n % NUMBERS
  {
  }

  lemma NextModulo(n: nat)
    ensures (n % NUMBERS + 1) % NUMBERS == (n + 1) % NUMBERS
  {
  }

  lemma EmitsKept(was: File, now: File, all: seq<Event>, told: seq<Event>)
    requires |told| <= 1 && Emits(was, now, told) && was.last == |all| % NUMBERS && was.events == LastOf(all)
    ensures now.last == |all + told| % NUMBERS && now.events == LastOf(all + told)
  {
    if told == [] {
      assert all + told == all;
      Modulo(|all|);
    } else {
      KeptMore(all, told);
      NextModulo(|all|);
    }
  }

  lemma LookReflects(was: File, trace: seq<Step>, s: Step, id: Id, now: File)
    requires Reflects(was, trace) && s.Looked? && StepOk(trace, s) && IdOf(s.app) == id
    requires id in now.apps && now.apps == was.apps[id := now.apps[id]] && IdOf(now.apps[id].app) == id
    requires StateIs(now.apps[id], trace + [s], id) && Emits(was, now, ToldBy(s))
    ensures Reflects(now, trace + [s])
  {
    OneMore(trace, s);
    EmitsKept(was, now, Told(trace), ToldBy(s));
    forall i ensures Agrees(now, trace + [s], i) {
      assert Agrees(was, trace, i);
      if i != id { AgreesElsewhere(was, trace, s, id, now, i); } else { OneMoreOf(trace, s, i); }
    }
  }

  lemma ForgetReflects(was: File, trace: seq<Step>, id: Id, now: File)
    requires Reflects(was, trace) && id in was.apps && now == was.(apps := was.apps - {id})
    ensures Reflects(now, trace + [Forgot(id)])
  {
    assert Agrees(was, trace, id);
    OneMore(trace, Forgot(id));
    forall i ensures Agrees(now, trace + [Forgot(id)], i) {
      assert Agrees(was, trace, i);
      if i != id { AgreesElsewhere(was, trace, Forgot(id), id, now, i); } else { OneMoreOf(trace, Forgot(id), i); }
    }
  }

  lemma AgreesElsewhere(was: File, trace: seq<Step>, s: Step, id: Id, now: File, i: Id)
    requires Agrees(was, trace, i) && i != id && Concerns(s, id)
    requires (i in now.apps <==> i in was.apps) && (i in was.apps ==> now.apps[i] == was.apps[i])
    ensures Agrees(now, trace + [s], i)
  {
    OneMoreOf(trace, s, i);
  }

  // ----- a sweep leaves the apps it holds -----

  lemma {:induction false} SweptKnown(trace: seq<Step>, kind: Kind, observations: seq<Observation>, now: int, id: Id)
    ensures Known(Swept(trace, kind, observations, now), id) <==> Known(trace, id) || id in Seen(kind, observations)
  {
    if observations != [] {
      var n := |observations| - 1;
      SweptKnown(trace, kind, observations[..n], now, id);
      SeenMore(kind, observations, n);
      var before := Swept(trace, kind, observations[..n], now);
      OneMoreOf(before, Looks(before, observations[n], now), id);
    }
  }

  lemma SeenMore(kind: Kind, observations: seq<Observation>, n: nat)
    requires n < |observations|
    ensures Seen(kind, observations[..n + 1])
            == Seen(kind, observations[..n]) + (if observations[n].app.kind == kind then {IdOf(observations[n].app)} else {})
    ensures observations[..|observations|] == observations
  {
    assert observations[..n + 1] == observations[..n] + [observations[n]];
  }

  /** Nothing is told while apps are forgotten. */
  predicate OnlyForgets(trace: seq<Step>, from: nat, kind: Kind, seen: set<Id>) {
    from <= |trace| && forall k :: from <= k < |trace| ==> trace[k].Forgot? && KindOf(trace[k].id) == kind && trace[k].id !in seen
  }

  lemma {:induction false} TellsOnlyMore(trace: seq<Step>, more: seq<Step>)
    requires trace <= more
    ensures Told(trace) <= Told(more)
  {
    if |more| > |trace| {
      TellsOnlyMore(trace, more[..|more| - 1]);
    } else {
      assert trace == more;
    }
  }

  // ----- the versions of the file -----

  function NumbersOf(events: seq<Event>): (numbers: seq<nat>)
    ensures |numbers| == |events| && forall i :: 0 <= i < |events| ==> numbers[i] == events[i].number
  {
    seq(|events|, i requires 0 <= i < |events| => events[i].number)
  }

  /** The numbers of the events told since. */
  function NumbersSince(before: seq<Step>, trace: seq<Step>): seq<nat> {
    if |Told(before)| <= |Told(trace)| then NumbersOf(Told(trace)[|Told(before)|..]) else []
  }

  function EventCounts(traces: seq<seq<Step>>): (counts: seq<nat>)
    ensures |counts| == |traces| && forall i :: 0 <= i < |traces| ==> counts[i] == |Told(traces[i])|
  {
    seq(|traces|, i requires 0 <= i < |traces| => |Told(traces[i])|)
  }

  /** The events told since are numbered on from those told before. */
  lemma NumberedOn(all: seq<Event>, was: nat)
    requires NumberedFrom(all, 0) && was <= |all|
    ensures NumbersOf(all[was..]) == From(was + 1, |all| - was)
  {
    var since := all[was..];
    forall i | 0 <= i < |since| ensures NumbersOf(since)[i] == was + 1 + i {
      assert since[i] == all[was + i];
    }
  }

  lemma SinceNumbers(before: seq<Step>, trace: seq<Step>)
    requires Faithful(trace) && |Told(before)| <= |Told(trace)|
    ensures |Told(before)| + |NumbersSince(before, trace)| == |Told(trace)|
    ensures |Told(trace)| < NUMBERS ==> NumbersSince(before, trace) == From(|Told(before)| + 1, |NumbersSince(before, trace)|)
  {
    if |Told(trace)| < NUMBERS {
      Numbers(trace);
      NumberedOn(Told(trace), |Told(before)|);
    }
  }

  lemma EventCountsTaken(traces: seq<seq<Step>>, k: nat)
    requires k <= |traces|
    ensures EventCounts(traces[..k]) == EventCounts(traces)[..k]
  {
    forall i | 0 <= i < k ensures EventCounts(traces[..k])[i] == EventCounts(traces)[..k][i] {
      assert traces[..k][i] == traces[i];
    }
  }

  lemma EventCountsMore(traces: seq<seq<Step>>, trace: seq<Step>)
    ensures EventCounts(traces + [trace]) == EventCounts(traces) + [|Told(trace)|]
  {
  }

  /** Each trace is the beginning of the next, and the last of them the beginning of this one. */
  predicate Nested(versions: seq<seq<Step>>, trace: seq<Step>) {
    versions == [] || (var n := |versions| - 1; versions[n] <= trace && Nested(versions[..n], versions[n]))
  }

  ghost predicate AllReflect(saved: seq<File>, versions: seq<seq<Step>>)
    requires |saved| == |versions|
  {
    forall i :: 0 <= i < |saved| ==> Reflects(saved[i], versions[i])
  }

  /** Every version of the file is what a trace leaves behind. */
  ghost predicate Kept(saved: seq<File>, versions: seq<seq<Step>>, trace: seq<Step>) {
    |saved| == |versions| > 0 && AllReflect(saved, versions) && Nested(versions, trace)
  }

  lemma KeptSaved(saved: seq<File>, versions: seq<seq<Step>>, file: File, trace: seq<Step>)
    requires Kept(saved, versions, trace) && Reflects(file, trace)
    ensures Kept(saved + [file], versions + [trace], trace)
  {
    assert (versions + [trace])[..|versions|] == versions;
  }

  lemma KeptLonger(saved: seq<File>, versions: seq<seq<Step>>, trace: seq<Step>, more: seq<Step>)
    requires Kept(saved, versions, trace) && trace <= more
    ensures Kept(saved, versions, more)
  {
    PrefixOn(versions[|versions| - 1], trace, more);
  }

  lemma {:induction false} NestedAt(versions: seq<seq<Step>>, trace: seq<Step>, v: nat)
    requires Nested(versions, trace) && v < |versions|
    ensures versions[v] <= trace && Nested(versions[..v + 1], versions[v])
  {
    var n := |versions| - 1;
    if v < n {
      NestedAt(versions[..n], versions[n], v);
      assert versions[..n][..v + 1] == versions[..v + 1];
      PrefixOn(versions[v], versions[n], trace);
    } else {
      assert versions[..v + 1] == versions;
    }
  }

  lemma KeptReturned(saved: seq<File>, versions: seq<seq<Step>>, trace: seq<Step>, v: nat)
    requires Kept(saved, versions, trace) && v < |saved|
    ensures Reflects(saved[v], versions[v]) && Kept(saved[..v + 1], versions[..v + 1], versions[v]) && versions[v] <= trace
  {
    NestedAt(versions, trace, v);
  }

  lemma PrefixOn(a: seq<Step>, b: seq<Step>, c: seq<Step>)
    requires a <= b <= c
    ensures a <= c
  {
    assert c[..|b|] == b && b[..|a|] == a;
    assert c[..|a|] == a;
  }

  /** The traces that the versions of the file reflect, and what all processes did and which numbers they gave. */
  datatype Account = Account(versions: seq<seq<Step>>, acts: seq<Act>, given: seq<nat>)

  /** A sweep told what it did, and then perhaps the file was saved. */
  function Entered(a: Account, before: seq<Step>, trace: seq<Step>, stored: bool): Account {
    var numbers := NumbersSince(before, trace);
    var acts := a.acts + Tellings(|numbers|);
    Account(if stored then a.versions + [trace] else a.versions, if stored then acts + [Saves] else acts, a.given + numbers)
  }

  /** A new process starts from a version. */
  function WentBack(a: Account, v: nat): Account
    requires v < |a.versions|
  {
    Account(a.versions[..v + 1], a.acts + [Returns(v)], a.given)
  }

  ghost predicate Sound(file: File, saved: seq<File>, trace: seq<Step>, a: Account) {
    Reflects(file, trace) && Kept(saved, a.versions, trace) && Accounts(|Told(trace)|, EventCounts(a.versions), a.acts, a.given)
  }

  lemma EnteredAccount(before: seq<Step>, trace: seq<Step>, a: Account, stored: bool)
    requires Faithful(trace) && |Told(before)| <= |Told(trace)|
    requires Accounts(|Told(before)|, EventCounts(a.versions), a.acts, a.given)
    ensures var e := Entered(a, before, trace, stored); Accounts(|Told(trace)|, EventCounts(e.versions), e.acts, e.given)
  {
    ToldAccount(before, trace, a);
    if stored {
      var e := Entered(a, before, trace, false);
      AccountsSaved(|Told(trace)|, EventCounts(a.versions), e.acts, e.given);
      EventCountsMore(a.versions, trace);
    }
  }

  lemma ToldAccount(before: seq<Step>, trace: seq<Step>, a: Account)
    requires Faithful(trace) && |Told(before)| <= |Told(trace)|
    requires Accounts(|Told(before)|, EventCounts(a.versions), a.acts, a.given)
    ensures var e := Entered(a, before, trace, false); Accounts(|Told(trace)|, EventCounts(e.versions), e.acts, e.given)
  {
    SinceNumbers(before, trace);
    AccountsTold(|Told(before)|, EventCounts(a.versions), a.acts, a.given, NumbersSince(before, trace));
  }

  lemma SweepSound(file: File, was: seq<File>, before: seq<Step>, a: Account, now: File, trace: seq<Step>, stored: bool)
    requires Sound(file, was, before, a) && Reflects(now, trace) && before <= trace && Told(before) <= Told(trace)
    ensures Sound(now, if stored then was + [now] else was, trace, Entered(a, before, trace, stored))
  {
    EnteredAccount(before, trace, a, stored);
    KeptLonger(was, a.versions, before, trace);
    if stored { KeptSaved(was, a.versions, now, trace); }
  }

  lemma ReturnSound(file: File, saved: seq<File>, trace: seq<Step>, a: Account, v: nat)
    requires Sound(file, saved, trace, a) && v < |saved|
    ensures v < |a.versions| && Sound(saved[v], saved[..v + 1], a.versions[v], WentBack(a, v))
    ensures a.versions[v] <= trace && Told(a.versions[v]) <= Told(trace)
  {
    AccountsReturned(|Told(trace)|, EventCounts(a.versions), a.acts, a.given, v);
    EventCountsTaken(a.versions, v + 1);
    KeptReturned(saved, a.versions, trace, v);
    TellsOnlyMore(a.versions[v], trace);
  }

  /** Nothing was seen, told or saved yet. */
  lemma NewSound()
    ensures var empty := File(0, map[], []); Sound(empty, [empty], [], Account([[]], [], []))
  {
    assert EventCounts([[]]) == [0];
  }

  /** `saved` are the versions of the file that a new process may find, the last one if no power was lost. */
  class Watch {
    var file: File
    var saved: seq<File>
    ghost var trace: seq<Step>
    ghost var account: Account

    ghost predicate Valid() reads this {
      Sound(file, saved, trace, account)
    }

    constructor ()
      ensures Valid() && trace == [] && account == Account([[]], [], [])
    {
      var empty := File(0, map[], []);
      NewSound();
      file, saved, trace, account := empty, [empty], [], Account([[]], [], []);
    }

    /** Over all processes no number was given twice, exactly as long as nothing was told after a loss. */
    lemma NumbersDistinct()
      requires Valid() && |account.given| < NUMBERS
      ensures Distinct(account.given) <==> !ToldAfterLoss(account.acts)
    {
      AccountsDistinct(|Told(trace)|, EventCounts(account.versions), account.acts, account.given);
    }

    method Emit(app: App, change: Change, since: int, at: int)
      modifies `file
      ensures file.apps == old(file.apps) && file.last == (old(file.last) + 1) % NUMBERS
      ensures file.events == LastOf(old(file.events) + [Event(file.last, app, change, since, at)])
    {
      file := file.(last := (file.last + 1) % NUMBERS);
      file := file.(events := file.events + [Event(file.last, app, change, since, at)]);
      if |file.events| > EVENT_LIMIT {
        file := file.(events := file.events[|file.events| - EVENT_LIMIT..]);
      }
    }

    /** Emits what this look of a known app makes due, and answers what is known of the app then. */
    method Judge(o: Observation, now: int, s: AppState, ghost before: seq<Step>) returns (t: AppState, changed: bool)
      requires StateIs(s, before, IdOf(o.app)) && file.last == |Told(before)| % NUMBERS
      modifies `file
      ensures StateIs(t, before + [Looks(before, o, now)], IdOf(o.app)) && t.app == s.app
      ensures file.apps == old(file.apps) && Emits(old(file), file, ToldBy(Looks(before, o, now)))
      ensures !changed ==> t == s && file == old(file)
    {
      t, changed := s, false;
      OneMoreOf(before, Looks(before, o, now), IdOf(o.app));
      NextModulo(|Told(before)|);
      match o.look {
        case Healthy =>
          if t.unwellSince != 0 { t, changed := t.(unwellSince := 0), true; }
          if t.down {
            t, changed := t.(down := false), true;
            Emit(o.app, Up, now, now);
          }
        case Unwell =>
          if t.unwellSince == 0 { t, changed := t.(unwellSince := now), true; }
          if !t.down && now - t.unwellSince >= DOWN_AFTER {
            t, changed := t.(down := true), true;
            Emit(o.app, Down, t.unwellSince, now);
          }
        case Busy =>
      }
    }

    /** One look of a sweep. */
    method Observe(o: Observation, now: int) returns (changed: bool)
      requires Reflects(file, trace)
      modifies `file, `trace
      ensures Reflects(file, trace) && trace == old(trace) + [Looks(old(trace), o, now)]
      ensures !changed ==> file == old(file)
    {
      var id := IdOf(o.app);
      ghost var was, before := file, trace;
      assert Agrees(was, before, id);
      var s := if id in file.apps then file.apps[id] else AppState(o.app, 0, false);
      var added := id !in file.apps;
      var t;
      t, changed := Judge(o, now, s, trace);
      changed := changed || added;
      file := file.(apps := file.apps[id := t]);
      trace := trace + [Looks(trace, o, now)];
      LookReflects(was, before, Looks(before, o, now), id, file);
    }

    method Forget(id: Id)
      requires Reflects(file, trace) && id in file.apps
      modifies `file, `trace
      ensures Reflects(file, trace) && trace == old(trace) + [Forgot(id)]
      ensures file == old(file).(apps := old(file.apps) - {id})
    {
      ghost var was, before := file, trace;
      file := file.(apps := file.apps - {id});
      trace := trace + [Forgot(id)];
      ForgetReflects(was, before, id, file);
    }

    /** Looks at every app of the sweep that is of this kind. */
    method Look(kind: Kind, observations: seq<Observation>, now: int) returns (seen: set<Id>, changed: bool)
      requires Reflects(file, trace)
      modifies `file, `trace
      ensures Reflects(file, trace) && trace == Swept(old(trace), kind, observations, now)
      ensures seen == Seen(kind, observations) && (!changed ==> file == old(file))
    {
      seen, changed := {}, false;
      for n := 0 to |observations|
        invariant Reflects(file, trace) && trace == Swept(old(trace), kind, observations[..n], now)
        invariant seen == Seen(kind, observations[..n]) && (!changed ==> file == old(file))
      {
        SeenMore(kind, observations, n);
        assert observations[..n + 1][..n] == observations[..n];
        if observations[n].app.kind == kind {
          seen := seen + {IdOf(observations[n].app)};
          var one := Observe(observations[n], now);
          changed := changed || one;
        }
      }
      assert observations[..|observations|] == observations;
    }

    /** Forgets the apps of this kind that the sweep did not hold. */
    method ForgetUnseen(kind: Kind, seen: set<Id>) returns (changed: bool)
      requires Reflects(file, trace)
      modifies `file, `trace
      ensures Reflects(file, trace) && old(trace) <= trace && OnlyForgets(trace, |old(trace)|, kind, seen)
      ensures forall id :: id in file.apps <==> id in old(file.apps) && (KindOf(id) == kind ==> id in seen)
      ensures !changed ==> file == old(file)
    {
      changed := false;
      var gone := set id | id in file.apps && file.apps[id].app.kind == kind && id !in seen;
      assert forall id :: id in gone <==> id in file.apps && KindOf(id) == kind && id !in seen by {
        assert forall id :: id in file.apps ==> Agrees(file, trace, id);
      }
      while gone != {}
        invariant Reflects(file, trace) && old(trace) <= trace && OnlyForgets(trace, |old(trace)|, kind, seen)
        invariant forall id :: id in gone ==> id in file.apps && KindOf(id) == kind && id !in seen
        invariant forall id :: id in file.apps <==> id in old(file.apps) && (KindOf(id) == kind && id !in seen ==> id in gone)
        invariant !changed ==> file == old(file)
        decreases |gone|
      {
        var id :| id in gone;
        Forget(id);
        gone, changed := gone - {id}, true;
      }
    }

    /** Puts the file in place of the one there, whole, or fails and leaves that one. */
    method Save() returns (ok: bool)
      modifies `saved
      ensures saved == if ok then old(saved) + [file] else old(saved)
    {
      var fails: bool := *;
      ok := !fails;
      if ok { saved := saved + [file]; }
    }

    /** Looks at the apps of this kind that the sweep holds, and forgets the others of the kind. */
    method Sweep(kind: Kind, observations: seq<Observation>, now: int) returns (changed: bool)
      requires Reflects(file, trace)
      modifies `file, `trace
      ensures Reflects(file, trace) && old(trace) <= trace && Told(old(trace)) <= Told(trace)
      ensures var looked := Swept(old(trace), kind, observations, now);
              looked <= trace && OnlyForgets(trace, |looked|, kind, Seen(kind, observations))
      ensures forall id :: Known(trace, id) <==> if KindOf(id) == kind then id in Seen(kind, observations) else Known(old(trace), id)
      ensures !changed ==> file == old(file)
    {
      ghost var before := trace;
      var seen, looked := Look(kind, observations, now);
      ghost var swept, found := trace, file;
      var forgot := ForgetUnseen(kind, seen);
      changed := looked || forgot;
      TellsOnlyMore(before, trace);
      forall id ensures Known(trace, id) <==> if KindOf(id) == kind then id in Seen(kind, observations) else Known(before, id) {
        SweptKnown(before, kind, observations, now, id);
        assert Agrees(found, swept, id) && Agrees(file, trace, id);
        SeenKind(kind, observations, id);
      }
    }

    /**
      One sweep of this kind's apps. It looks at each and tells what is due, then forgets the others of the kind without a
      word. A failed save leaves the disk behind the memory, and only a later change is saved again.
     */
    method Record(kind: Kind, observations: seq<Observation>, now: int) returns (ok: bool)
      requires Valid()
      modifies this
      ensures Valid() && old(trace) <= trace && Told(old(trace)) <= Told(trace)
      ensures var looked := Swept(old(trace), kind, observations, now);
              looked <= trace && OnlyForgets(trace, |looked|, kind, Seen(kind, observations))
      ensures forall id :: Known(trace, id) <==> if KindOf(id) == kind then id in Seen(kind, observations) else Known(old(trace), id)
      ensures ok ==> saved == old(saved) + [file] || (file == old(file) && saved == old(saved))
      ensures !ok ==> saved == old(saved)
      ensures account == Entered(old(account), old(trace), trace, saved != old(saved))
    {
      ghost var before, was, had := trace, saved, file;
      var changed := Sweep(kind, observations, now);
      ok := true;
      if changed { ok := Save(); }
      SweepSound(had, was, before, account, file, trace, saved != was);
      account := Entered(account, before, trace, saved != was);
    }

    /**
      A new process knows what was saved last; or, after a power loss that undid renames no sync of the directory had made
      durable, what some earlier version of the file says.
     */
    method Reopen(version: nat)
      requires Valid() && version < |saved|
      modifies this
      ensures Valid() && version < |old(account).versions| && account == WentBack(old(account), version)
      ensures file == old(saved)[version] && trace == old(account).versions[version] && saved == old(saved)[..version + 1]
      ensures trace <= old(trace) && Told(trace) <= Told(old(trace))
    {
      ReturnSound(file, saved, trace, account, version);
      file, saved, trace, account := saved[version], saved[..version + 1], account.versions[version], WentBack(account, version);
    }

    /** The index of the first kept event after the cursor; `dropped` events came before those kept. */
    method Search(after: Number, ghost dropped: nat) returns (i: nat)
      requires NumberedFrom(file.events, dropped)
      ensures i == FirstAfter(dropped, |file.events|, after)
    {
      i := 0;
      var j := |file.events|;
      while i < j
        invariant i <= FirstAfter(dropped, |file.events|, after) <= j <= |file.events|
      {
        var h := (i + j) / 2;
        if file.events[h].number > after { j := h; } else { i := h + 1; }
      }
    }

    /** The events from `first` on, while there are some and the page has room. */
    method Take(first: nat, limit: int) returns (found: seq<Event>)
      requires first <= |file.events|
      ensures found == file.events[first..Limited(first, limit, |file.events|)]
    {
      var i := first;
      found := [];
      while i < |file.events| && |found| < limit
        invariant first <= i <= |file.events| && found == file.events[first..i]
        invariant i > first ==> |found| <= limit
      {
        found := found + [file.events[i]];
        i := i + 1;
      }
    }

    /** At most `limit` events after the cursor, oldest first. */
    method Events(after: Number, limit: int) returns (page: Page)
      requires Valid() && |Told(trace)| < NUMBERS
      ensures page == PageOf(Told(trace), after, limit)
    {
      EventsOf(file, trace);
      page := Find(after, limit, Told(trace));
    }

    method Find(after: Number, limit: int, ghost all: seq<Event>) returns (page: Page)
      requires |all| < NUMBERS && NumberedFrom(all, 0) && file.last == |all| && file.events == LastOf(all)
      ensures page == PageOf(all, after, limit)
    {
      KeptNumbers(all);
      var first := Search(after, Dropped(all));
      var found := Take(first, limit);
      page := Page(file.last, found, file.events != [] && (after + 1) % NUMBERS < file.events[0].number);
      PageFound(all, file.events, after, limit, first);
    }
  }

  lemma SeenKind(kind: Kind, observations: seq<Observation>, id: Id)
    ensures id in Seen(kind, observations) ==> KindOf(id) == kind
  {
  }

  // ----- reading the events by number -----

  /** The newest number there is, the events of the page, and whether the reader has lost some. */
  datatype Page = Page(last: Number, events: seq<Event>, truncated: bool)

  /** The events are numbered without a gap, after `n` others. */
  predicate NumberedFrom(events: seq<Event>, n: nat) {
    forall i :: 0 <= i < |events| ==> events[i].number == n + i + 1
  }

  lemma NextNumber(trace: seq<Step>, s: Step)
    requires StepOk(trace, s) && NumberedFrom(Told(trace), 0) && |Told(trace)| + 1 < NUMBERS
    ensures NumberedFrom(Told(trace) + ToldBy(s), 0)
  {
    Below(|Told(trace)| + 1);
  }

  lemma {:induction false} Numbers(trace: seq<Step>)
    requires Faithful(trace) && |Told(trace)| < NUMBERS
    ensures NumberedFrom(Told(trace), 0)
  {
    if trace != [] {
      var n := |trace| - 1;
      Numbers(trace[..n]);
      if ToldBy(trace[n]) != [] { NextNumber(trace[..n], trace[n]); }
    }
  }

  lemma EventsOf(file: File, trace: seq<Step>)
    requires Reflects(file, trace) && |Told(trace)| < NUMBERS
    ensures NumberedFrom(Told(trace), 0) && file.last == |Told(trace)| && file.events == LastOf(Told(trace))
  {
    Numbers(trace);
    Below(|Told(trace)|);
  }

  lemma Below(n: nat)
    requires n < NUMBERS
    ensures n % NUMBERS == n
  {
  }

  lemma KeptNumbers(all: seq<Event>)
    requires NumberedFrom(all, 0)
    ensures NumberedFrom(LastOf(all), Dropped(all))
  {
    assert forall i :: 0 <= i < |LastOf(all)| ==> LastOf(all)[i] == all[Dropped(all) + i];
  }

  function Min(a: int, b: int): int {
    if a < b then a else b
  }

  function Limited(start: nat, limit: int, length: nat): int {
    if limit <= 0 then start else Min(start + limit, length)
  }

  function FirstAfter(dropped: nat, length: nat, after: nat): nat {
    if after < dropped then 0 else Min(after - dropped, length)
  }

  /** How many events are no longer kept. */
  function Dropped(all: seq<Event>): nat {
    |all| - |LastOf(all)|
  }

  /**
    The events numbered after the cursor, from the first one still kept, and at most `limit` of them. At the greatest cursor
    of all the sum in the check wraps, and every page says that events were lost.
   */
  function PageOf(all: seq<Event>, after: Number, limit: int): Page
    requires |all| < NUMBERS
  {
    var start := Dropped(all) + FirstAfter(Dropped(all), |LastOf(all)|, after);
    Page(|all|, all[start..Limited(start, limit, |all|)], after < Dropped(all) || (after == NUMBERS - 1 && all != []))
  }

  /** A page says that events were lost exactly when one past the cursor was, save at the greatest cursor. */
  lemma TruncatedIff(all: seq<Event>, after: Number, limit: int)
    requires |all| < NUMBERS && NumberedFrom(all, 0)
    ensures (PageOf(all, after, limit).truncated <==> exists i :: 0 <= i < Dropped(all) && all[i].number > after)
            <==> after < NUMBERS - 1 || all == []
  {
    if after < Dropped(all) { assert all[after].number > after; }
  }

  /** What the search and the loop after it find in the kept events is the page. */
  lemma PageFound(all: seq<Event>, kept: seq<Event>, after: Number, limit: int, first: nat)
    requires |all| < NUMBERS && kept == LastOf(all) && first == FirstAfter(Dropped(all), |kept|, after)
    requires all != [] ==> kept != [] && kept[0].number == Dropped(all) + 1
    ensures PageOf(all, after, limit)
            == Page(|all|, kept[first..Limited(first, limit, |kept|)], kept != [] && (after + 1) % NUMBERS < kept[0].number)
  {
    var d := Dropped(all);
    SamePage(all, kept, d, first, limit);
    Wraps(after, d);
  }

  lemma SamePage(all: seq<Event>, kept: seq<Event>, d: nat, first: nat, limit: int)
    requires d <= |all| && kept == all[d..] && first <= |kept|
    ensures first <= Limited(first, limit, |kept|) <= |kept| && Limited(d + first, limit, |all|) == d + Limited(first, limit, |kept|)
    ensures kept[first..Limited(first, limit, |kept|)] == all[d + first..Limited(d + first, limit, |all|)]
  {
    SliceOfRest(all, d, first, Limited(first, limit, |kept|));
  }

  lemma SliceOfRest<T>(s: seq<T>, d: nat, a: nat, b: nat)
    requires a <= b && d + b <= |s|
    ensures s[d..][a..b] == s[d + a..d + b]
  {
  }

  /** The check of the oldest kept number against the one after the cursor. */
  lemma Wraps(after: Number, d: nat)
    ensures (after + 1) % NUMBERS < d + 1 <==> after < d || after == NUMBERS - 1
  {
    if after < NUMBERS - 1 { Below(after + 1); }
  }

  /** A reader's pages so far: each read finds the events of its time and asks from the last number it has. */
  datatype Reading = Reading(events: seq<Event>, cursor: Number, truncated: bool)
  datatype Ask = Ask(all: seq<Event>, limit: int)

  /** The events only grow from one read to the next. */
  predicate Growing(asks: seq<Ask>) {
    && (forall k :: 0 <= k < |asks| ==> |asks[k].all| < NUMBERS && NumberedFrom(asks[k].all, 0))
    && forall i, j :: 0 <= i < j < |asks| ==> asks[i].all <= asks[j].all
  }

  function ReadOn(r: Reading, ask: Ask): Reading
    requires |ask.all| < NUMBERS
  {
    var page := PageOf(ask.all, r.cursor, ask.limit);
    Reading(r.events + page.events, if page.events == [] then r.cursor else page.events[|page.events| - 1].number,
            r.truncated || page.truncated)
  }

  function ReadAll(asks: seq<Ask>, cursor: Number): Reading
    requires forall k :: 0 <= k < |asks| ==> |asks[k].all| < NUMBERS
  {
    if asks == [] then Reading([], cursor, false) else ReadOn(ReadAll(asks[..|asks| - 1], cursor), asks[|asks| - 1])
  }

  /** One more read from a cursor that is not ahead of the events. */
  lemma ReadOnce(r: Reading, ask: Ask)
    requires |ask.all| < NUMBERS && NumberedFrom(ask.all, 0) && r.cursor <= |ask.all|
    ensures var next, page := ReadOn(r, ask), PageOf(ask.all, r.cursor, ask.limit);
            && r.cursor <= next.cursor <= |ask.all| && (page.events == [] <==> ask.limit <= 0 || r.cursor == |ask.all|)
            && next.cursor >= |page.events| && page.events == ask.all[next.cursor - |page.events|..next.cursor]
            && NumberedFrom(page.events, next.cursor - |page.events|) && r.cursor <= next.cursor - |page.events|
            && (!page.truncated ==> next.cursor - |page.events| == r.cursor)
  {
  }

  lemma ReadMore(r: Reading, ask: Ask, was: seq<Event>, cursor: Number)
    requires |ask.all| < NUMBERS && NumberedFrom(ask.all, 0) && was <= ask.all
    requires cursor <= r.cursor <= |was| && (!r.truncated ==> r.events == was[cursor..r.cursor])
    ensures var next := ReadOn(r, ask);
            cursor <= next.cursor <= |ask.all| && (!next.truncated ==> next.events == ask.all[cursor..next.cursor])
  {
    ReadOnce(r, ask);
    Joined(was, ask.all, cursor, r.cursor, ReadOn(r, ask).cursor);
  }

  lemma Joined(was: seq<Event>, all: seq<Event>, a: nat, b: nat, c: nat)
    requires was <= all && a <= b <= |was| && b <= c <= |all|
    ensures was[a..b] + all[b..c] == all[a..c]
  {
    assert was[a..b] == all[a..b];
  }

  /** However the watch goes on between the reads, pages that say nothing was lost hold each event once, in order, with no gap. */
  lemma {:induction false} ReadsEachOnce(asks: seq<Ask>, cursor: Number)
    requires asks != [] && Growing(asks) && cursor <= |asks[0].all|
    ensures var r, all := ReadAll(asks, cursor), asks[|asks| - 1].all;
            cursor <= r.cursor <= |all| && (!r.truncated ==> r.events == all[cursor..r.cursor])
  {
    var n := |asks| - 1;
    if n > 0 {
      ReadsEachOnce(asks[..n], cursor);
      ReadMore(ReadAll(asks[..n], cursor), asks[n], asks[n - 1].all, cursor);
    } else {
      ReadMore(Reading([], cursor, false), asks[0], asks[0].all, cursor);
    }
  }

  /** The events lie past the one cursor and up to the other, in the order of their numbers. */
  predicate Between(events: seq<Event>, cursor: nat, last: nat) {
    && (forall i :: 0 <= i < |events| ==> cursor < events[i].number <= last)
    && forall i, j :: 0 <= i < j < |events| ==> events[i].number < events[j].number
  }

  lemma BetweenMore(events: seq<Event>, cursor: nat, last: nat, page: seq<Event>, next: nat)
    requires Between(events, cursor, last) && cursor <= last <= next - |page| && NumberedFrom(page, next - |page|)
    ensures Between(events + page, cursor, next)
  {
  }

  /** And no event is ever read twice, whatever was lost. */
  lemma {:induction false} ReadsNoneTwice(asks: seq<Ask>, cursor: Number)
    requires Growing(asks) && (asks != [] ==> cursor <= |asks[0].all|)
    ensures Between(ReadAll(asks, cursor).events, cursor, ReadAll(asks, cursor).cursor)
  {
    if asks != [] {
      var n := |asks| - 1;
      var before := ReadAll(asks[..n], cursor);
      ReadsNoneTwice(asks[..n], cursor);
      if n > 0 {
        ReadsEachOnce(asks[..n], cursor);
        assert asks[n - 1].all <= asks[n].all;
      }
      ReadOnce(before, asks[n]);
      BetweenMore(before.events, cursor, before.cursor, PageOf(asks[n].all, before.cursor, asks[n].limit).events,
                  ReadOn(before, asks[n]).cursor);
    }
  }
}
