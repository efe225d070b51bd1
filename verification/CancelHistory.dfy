/**
  Whether a claimed cancel took effect, as the run's ledger proves it.
 */
module CancelHistory {
  import opened Results

  /** `shape` stands for the fields a cancelled transition must have empty or current; `rest` for the payload no rule reads. */
  datatype Event = Event(id: string, kind: string, project: string, plan: string, run: string, attempt: string,
                         stateFrom: string, stateTo: string, actor: string, source: string, shape: bool,
                         state: string, operation: string, ownerLease: string, requestEvent: string, rest: string)

  datatype Receipt = Receipt(operation: string, run: string, attempt: string, expectedState: string, transition: string,
                             ownerLease: string, rest: string)
  datatype Claim = Claim(event: string, timestamp: string)

  /** The read model's events of the run, and whether it has ended. */
  datatype Snapshot = Snapshot(events: seq<Event>, terminal: bool)

  datatype State = Unresolved | Applied | NotApplied
  datatype Proof = Proof(request: string, transition: string, state: State)

  /** How the request event's fields beyond the ones read here are written. */
  type Payload = (Receipt, Claim) -> string

  const SOURCES := {"authority-validator", "governed-runner", "ralphex-adapter", "governance-controller", "acceptance-controller"}

  // ----- the events that matter -----

  predicate AdmittedShape(e: Event, receipt: Receipt) {
    && e.run == receipt.run && e.attempt == receipt.attempt
    && (e.stateFrom == "" ==> e.kind == "RUN_CREATED" && receipt.expectedState == "RUN_CREATED" && e.state == "RUN_CREATED")
    && (e.stateFrom != "" ==> e.stateTo == receipt.expectedState)
  }

  function RequestEvent(payload: Payload, receipt: Receipt, claim: Claim, admitted: Event): Event {
    Event(claim.event, "API_CANCEL_REQUESTED", admitted.project, admitted.plan, receipt.run, receipt.attempt, "", "",
          "control-plane", "service-action-watcher", true, "", receipt.operation, receipt.ownerLease, "", payload(receipt, claim))
  }

  predicate References(e: Event, receipt: Receipt, claim: Claim) {
    e.id != claim.event && (e.operation == receipt.operation || e.requestEvent == claim.event)
  }

  predicate CancelledTransition(e: Event, request: Event, receipt: Receipt, claim: Claim) {
    && e.shape && e.id != "" && e.project == request.project && e.plan == request.plan
    && e.run == receipt.run && e.attempt == receipt.attempt && e.kind == "STATE_TRANSITION"
    && e.stateFrom == receipt.expectedState && e.stateTo == "CANCELLED" && e.actor == "control-plane" && e.source in SOURCES
    && e.operation == receipt.operation && e.ownerLease == receipt.ownerLease && e.requestEvent == claim.event
  }

  // ----- the admitted transition -----

  /** The one event with the admitted identity, if there is exactly one and it has the admitted shape. */
  function Admitted(events: seq<Event>, receipt: Receipt): Result<Option<Event>, ()> {
    if events == [] then Ok(None) else
      var e := events[|events| - 1];
      match Admitted(events[..|events| - 1], receipt)
      case Err(_) => Err(())
      case Ok(found) =>
        if e.id != receipt.transition then Ok(found)
        else if found.Some? || !AdmittedShape(e, receipt) then Err(())
        else Ok(Some(e))
  }

  method ExactAdmittedTransition(events: seq<Event>, receipt: Receipt) returns (r: Result<Option<Event>, ()>)
    ensures r == Admitted(events, receipt)
  {
    var admitted: Option<Event> := None;
    for index := 0 to |events|
      invariant Admitted(events[..index], receipt) == Ok(admitted)
    {
      assert events[..index + 1][..index] == events[..index];
      if events[index].id == receipt.transition {
        if admitted.Some? || !AdmittedShape(events[index], receipt) {
          AdmittedStops(events, receipt, index + 1);
          return Err(());
        }
        admitted := Some(events[index]);
      }
    }
    assert events[..|events|] == events;
    return Ok(admitted);
  }

  lemma {:induction false} AdmittedStops(events: seq<Event>, receipt: Receipt, k: nat)
    requires k <= |events| && Admitted(events[..k], receipt).Err?
    ensures Admitted(events, receipt).Err?
  {
    if k == |events| {
      assert events[..k] == events;
    } else {
      var init := events[..|events| - 1];
      assert init[..k] == events[..k];
      AdmittedStops(init, receipt, k);
    }
  }

  // ----- the request and the transition -----

  /** Where the request and the transition that answers it were found. */
  datatype Found = Found(request: Option<nat>, transition: Option<nat>)

  /** One more event: a second, conflicting or foreign candidate is an integrity failure. */
  function FindNext(e: Event, index: nat, found: Found, request: Event, receipt: Receipt, claim: Claim): Option<Found> {
    if e.id == claim.event then
      if found.request.Some? || e != request then None else Some(found.(request := Some(index)))
    else if References(e, receipt, claim) then
      if found.transition.Some? || !CancelledTransition(e, request, receipt, claim) then None
      else Some(found.(transition := Some(index)))
    else Some(found)
  }

  function Find(events: seq<Event>, request: Event, receipt: Receipt, claim: Claim): Option<Found> {
    if events == [] then Some(Found(None, None)) else
      match Find(events[..|events| - 1], request, receipt, claim)
      case None => None
      case Some(found) => FindNext(events[|events| - 1], |events| - 1, found, request, receipt, claim)
  }

  method FindCandidates(events: seq<Event>, request: Event, receipt: Receipt, claim: Claim) returns (r: Option<Found>)
    ensures r == Find(events, request, receipt, claim)
  {
    var found := Found(None, None);
    for index := 0 to |events|
      invariant Find(events[..index], request, receipt, claim) == Some(found)
    {
      assert events[..index + 1][..index] == events[..index];
      var next := FindNext(events[index], index, found, request, receipt, claim);
      if next == None {
        FindStops(events, request, receipt, claim, index + 1);
        return None;
      }
      found := next.value;
    }
    assert events[..|events|] == events;
    return Some(found);
  }

  lemma {:induction false} FindStops(events: seq<Event>, request: Event, receipt: Receipt, claim: Claim, k: nat)
    requires k <= |events| && Find(events[..k], request, receipt, claim) == None
    ensures Find(events, request, receipt, claim) == None
  {
    if k == |events| {
      assert events[..k] == events;
    } else {
      var init := events[..|events| - 1];
      assert init[..k] == events[..k];
      FindStops(init, request, receipt, claim, k);
    }
  }

  function FirstWith(events: seq<Event>, id: string): (k: nat)
    ensures k <= |events| && (k < |events| ==> events[k].id == id)
    ensures forall i :: 0 <= i < k ==> events[i].id != id
  {
    if events == [] then 0 else
      var k := FirstWith(events[..|events| - 1], id);
      if k < |events| - 1 || events[|events| - 1].id == id then k else |events|
  }

  method FirstIndex(events: seq<Event>, id: string) returns (k: nat)
    ensures k == FirstWith(events, id)
  {
    k := 0;
    while k < |events| && events[k].id != id
      invariant k <= |events| && forall i :: 0 <= i < k ==> events[i].id != id
    {
      k := k + 1;
    }
  }

  /** No event strictly between the two changes state. */
  predicate QuietBetween(events: seq<Event>, low: nat, high: nat)
    requires high <= |events|
  {
    forall i :: low < i < high ==> events[i].stateFrom == ""
  }

  method Quiet(events: seq<Event>, low: nat, high: nat) returns (ok: bool)
    requires high <= |events|
    ensures ok == QuietBetween(events, low, high)
  {
    var index := low + 1;
    while index < high
      invariant low < index && forall i :: low < i < index && i < high ==> events[i].stateFrom == ""
    {
      if events[index].stateFrom != "" { return false; }
      index := index + 1;
    }
    return true;
  }

  // ----- the answer -----

  /** The answer once both candidates are located. */
  function Judge(snapshot: Snapshot, receipt: Receipt, claim: Claim, found: Found): Result<Proof, ()>
    requires found.request.Some? ==> found.request.value < |snapshot.events|
    requires found.transition.Some? ==> found.transition.value < |snapshot.events|
  {
    var events, admitted := snapshot.events, FirstWith(snapshot.events, receipt.transition);
    if found.request.Some?
       && (admitted == |events| || admitted >= found.request.value || !QuietBetween(events, admitted, found.request.value)) then Err(())
    else if found.transition.Some? then
      if found.request == None || found.request.value >= found.transition.value
         || !QuietBetween(events, found.request.value, found.transition.value) then Err(())
      else Ok(Proof(claim.event, events[found.transition.value].id, Applied))
    else if found.request == None then Ok(Proof("", "", NotApplied))
    else Ok(Proof(claim.event, "", if snapshot.terminal then NotApplied else Unresolved))
  }

  lemma {:induction false} FoundInside(events: seq<Event>, request: Event, receipt: Receipt, claim: Claim)
    requires Find(events, request, receipt, claim).Some?
    ensures var found := Find(events, request, receipt, claim).value;
            && (found.request.Some? ==> found.request.value < |events|)
            && (found.transition.Some? ==> found.transition.value < |events|)
  {
    if events != [] { FoundInside(events[..|events| - 1], request, receipt, claim); }
  }

  function Reconcile(payload: Payload, snapshot: Snapshot, receipt: Receipt, claim: Option<Claim>): Result<Proof, ()> {
    if claim == None then Ok(Proof("", "", NotApplied)) else
      match Admitted(snapshot.events, receipt)
      case Err(_) => Err(())
      case Ok(None) => Err(())
      case Ok(Some(admitted)) =>
        var request := RequestEvent(payload, receipt, claim.value, admitted);
        match Find(snapshot.events, request, receipt, claim.value)
        case None => Err(())
        case Some(found) =>
          FoundInside(snapshot.events, request, receipt, claim.value);
          Judge(snapshot, receipt, claim.value, found)
  }

  method ReconcileCancelHistory(payload: Payload, snapshot: Snapshot, receipt: Receipt, claim: Option<Claim>) returns (r: Result<Proof, ()>)
    ensures r == Reconcile(payload, snapshot, receipt, claim)
  {
    if claim == None { return Ok(Proof("", "", NotApplied)); }
    var events := snapshot.events;
    var admitted := ExactAdmittedTransition(events, receipt);
    if admitted.Err? || admitted.value == None { return Err(()); }
    var request := RequestEvent(payload, receipt, claim.value, admitted.value.value);
    var candidates := FindCandidates(events, request, receipt, claim.value);
    if candidates == None { return Err(()); }
    var found := candidates.value;
    FoundInside(events, request, receipt, claim.value);
    var admittedIndex := FirstIndex(events, receipt.transition);
    if found.request.Some? {
      if admittedIndex == |events| || admittedIndex >= found.request.value { return Err(()); }
      var quiet := Quiet(events, admittedIndex, found.request.value);
      if !quiet { return Err(()); }
    }
    if found.transition.Some? {
      if found.request == None || found.request.value >= found.transition.value { return Err(()); }
      var quiet := Quiet(events, found.request.value, found.transition.value);
      if !quiet { return Err(()); }
      return Ok(Proof(claim.value.event, events[found.transition.value].id, Applied));
    }
    if found.request == None { return Ok(Proof("", "", NotApplied)); }
    return Ok(Proof(claim.value.event, "", if snapshot.terminal then NotApplied else Unresolved));
  }

  // ----- sound and complete -----

  /** One admitted transition at `a`, of the admitted shape. */
  predicate AdmittedAt(events: seq<Event>, receipt: Receipt, a: nat) {
    && a < |events| && events[a].id == receipt.transition && AdmittedShape(events[a], receipt)
    && forall i :: 0 <= i < |events| && events[i].id == receipt.transition ==> i == a
  }

  /** One event with the request's identity, at `r`, and it is the request. */
  predicate RequestAt(events: seq<Event>, request: Event, claim: Claim, r: nat) {
    && r < |events| && events[r] == request
    && forall i :: 0 <= i < |events| && events[i].id == claim.event ==> i == r
  }

  /** One event that refers to the operation, at `t`, and it is the cancelled transition. */
  predicate TransitionAt(events: seq<Event>, request: Event, receipt: Receipt, claim: Claim, t: nat) {
    && t < |events| && References(events[t], receipt, claim) && CancelledTransition(events[t], request, receipt, claim)
    && forall i :: 0 <= i < |events| && References(events[i], receipt, claim) ==> i == t
  }

  /** The cancel took effect: admitted, then requested, then cancelled, and no other state change between. */
  ghost predicate Evidence(payload: Payload, events: seq<Event>, receipt: Receipt, claim: Claim, a: nat, r: nat, t: nat) {
    && AdmittedAt(events, receipt, a)
    && var request := RequestEvent(payload, receipt, claim, events[a]);
       && RequestAt(events, request, claim, r) && TransitionAt(events, request, receipt, claim, t)
       && a < r < t && QuietBetween(events, a, r) && QuietBetween(events, r, t)
  }

  /** An event with the admitted identity and the wrong shape, or two of them. */
  ghost predicate AdmittedSpoiled(events: seq<Event>, receipt: Receipt) {
    || (exists i :: 0 <= i < |events| && events[i].id == receipt.transition && !AdmittedShape(events[i], receipt))
    || (exists i, j :: 0 <= i < j < |events| && events[i].id == receipt.transition && events[j].id == receipt.transition)
  }

  lemma {:induction false} AdmittedMeans(events: seq<Event>, receipt: Receipt)
    ensures match Admitted(events, receipt)
            case Err(_) => AdmittedSpoiled(events, receipt)
            case Ok(None) => forall i :: 0 <= i < |events| ==> events[i].id != receipt.transition
            case Ok(Some(e)) => exists a: nat :: AdmittedAt(events, receipt, a) && events[a] == e
  {
    if events != [] {
      var n := |events| - 1;
      var init := events[..n];
      AdmittedMeans(init, receipt);
      match Admitted(init, receipt)
      case Err(_) => SpoiledOn(init, events, receipt);
      case Ok(None) =>
        if events[n].id == receipt.transition && AdmittedShape(events[n], receipt) { assert AdmittedAt(events, receipt, n); }
      case Ok(Some(e)) =>
        var a: nat :| AdmittedAt(init, receipt, a) && init[a] == e;
        assert events[a] == e && (events[n].id != receipt.transition ==> AdmittedAt(events, receipt, a));
    }
  }

  lemma SpoiledOn(init: seq<Event>, events: seq<Event>, receipt: Receipt)
    requires init <= events && AdmittedSpoiled(init, receipt)
    ensures AdmittedSpoiled(events, receipt)
  {
    if i :| 0 <= i < |init| && init[i].id == receipt.transition && !AdmittedShape(init[i], receipt) {
      assert events[i] == init[i];
    } else {
      var i, j :| 0 <= i < j < |init| && init[i].id == receipt.transition && init[j].id == receipt.transition;
      assert events[i] == init[i] && events[j] == init[j];
    }
  }

  /** What the candidates found say of the events read so far. */
  ghost predicate FoundMeans(events: seq<Event>, request: Event, receipt: Receipt, claim: Claim, found: Found) {
    && (match found.request
        case None => forall i :: 0 <= i < |events| ==> events[i].id != claim.event
        case Some(r) => RequestAt(events, request, claim, r))
    && (match found.transition
        case None => forall i :: 0 <= i < |events| ==> !References(events[i], receipt, claim)
        case Some(t) => TransitionAt(events, request, receipt, claim, t))
  }

  /** A candidate that is not the one event it has to be, or a second of its kind. */
  ghost predicate CandidatesSpoiled(events: seq<Event>, request: Event, receipt: Receipt, claim: Claim) {
    || (exists i :: 0 <= i < |events| && events[i].id == claim.event && events[i] != request)
    || (exists i, j :: 0 <= i < j < |events| && events[i].id == claim.event && events[j].id == claim.event)
    || (exists i :: 0 <= i < |events| && References(events[i], receipt, claim) && !CancelledTransition(events[i], request, receipt, claim))
    || (exists i, j :: 0 <= i < j < |events| && References(events[i], receipt, claim) && References(events[j], receipt, claim))
  }

  lemma CandidatesSpoiledOn(init: seq<Event>, events: seq<Event>, request: Event, receipt: Receipt, claim: Claim)
    requires init <= events && CandidatesSpoiled(init, request, receipt, claim)
    ensures CandidatesSpoiled(events, request, receipt, claim)
  {
    assert forall i :: 0 <= i < |init| ==> events[i] == init[i];
    if i, j :| 0 <= i < j < |init| && References(init[i], receipt, claim) && References(init[j], receipt, claim) {
      assert References(events[i], receipt, claim) && References(events[j], receipt, claim);
    } else if i, j :| 0 <= i < j < |init| && init[i].id == claim.event && init[j].id == claim.event {
      assert events[i].id == claim.event && events[j].id == claim.event;
    } else if i :| 0 <= i < |init| && init[i].id == claim.event && init[i] != request {
      assert events[i].id == claim.event;
    } else {
      var i :| 0 <= i < |init| && References(init[i], receipt, claim) && !CancelledTransition(init[i], request, receipt, claim);
      assert References(events[i], receipt, claim);
    }
  }

  ghost predicate Tells(events: seq<Event>, request: Event, receipt: Receipt, claim: Claim, r: Option<Found>) {
    match r
    case None => CandidatesSpoiled(events, request, receipt, claim)
    case Some(found) => FoundMeans(events, request, receipt, claim, found)
  }

  lemma FindStep(init: seq<Event>, e: Event, request: Event, receipt: Receipt, claim: Claim, r: Option<Found>)
    requires Tells(init, request, receipt, claim, r)
    ensures Tells(init + [e], request, receipt, claim,
                  match r case None => None case Some(found) => FindNext(e, |init|, found, request, receipt, claim))
  {
    match r
    case None => CandidatesSpoiledOn(init, init + [e], request, receipt, claim);
    case Some(found) => FindNextMeans(init, e, request, receipt, claim, found);
  }

  lemma {:induction false} FindMeans(events: seq<Event>, request: Event, receipt: Receipt, claim: Claim)
    ensures Tells(events, request, receipt, claim, Find(events, request, receipt, claim))
  {
    if events != [] {
      var n := |events| - 1;
      FindMeans(events[..n], request, receipt, claim);
      FindStep(events[..n], events[n], request, receipt, claim, Find(events[..n], request, receipt, claim));
      assert events[..n] + [events[n]] == events;
    }
  }

  lemma FindNextMeans(init: seq<Event>, e: Event, request: Event, receipt: Receipt, claim: Claim, found: Found)
    requires FoundMeans(init, request, receipt, claim, found)
    ensures match FindNext(e, |init|, found, request, receipt, claim)
            case None => CandidatesSpoiled(init + [e], request, receipt, claim)
            case Some(next) => FoundMeans(init + [e], request, receipt, claim, next)
  {
    var events := init + [e];
    assert events[|init|] == e && forall i :: 0 <= i < |init| ==> events[i] == init[i];
    if found.request.Some? { assert events[found.request.value].id == claim.event || request.id != claim.event; }
    if found.transition.Some? { assert References(events[found.transition.value], receipt, claim); }
  }

  lemma FirstIs(events: seq<Event>, receipt: Receipt, a: nat)
    requires AdmittedAt(events, receipt, a)
    ensures FirstWith(events, receipt.transition) == a
  {
    var k := FirstWith(events, receipt.transition);
    assert k < |events| ==> k == a;
    assert events[a].id == receipt.transition;
  }

  /** The answer is that the cancel was applied if and only if the ledger holds the evidence, and it names its events. */
  lemma AppliedIff(payload: Payload, snapshot: Snapshot, receipt: Receipt, claim: Claim, p: Proof)
    ensures Reconcile(payload, snapshot, receipt, Some(claim)) == Ok(p) && p.state == Applied
            <==> p.state == Applied && p.request == claim.event
                 && exists a: nat, r: nat, t: nat :: Evidence(payload, snapshot.events, receipt, claim, a, r, t)
                                                       && p.transition == snapshot.events[t].id
  {
    var events := snapshot.events;
    if exists a: nat, r: nat, t: nat :: Evidence(payload, events, receipt, claim, a, r, t) {
      var a: nat, r: nat, t: nat :| Evidence(payload, events, receipt, claim, a, r, t);
      EvidenceAccepted(payload, snapshot, receipt, claim, a, r, t);
      forall b: nat, q: nat, u: nat | Evidence(payload, events, receipt, claim, b, q, u) ensures u == t {
        EvidenceUnique(payload, events, receipt, claim, a, r, t, b, q, u);
      }
    } else if Reconcile(payload, snapshot, receipt, Some(claim)) == Ok(p) && p.state == Applied {
      AcceptedHasEvidence(payload, snapshot, receipt, claim);
    }
  }

  lemma EvidenceUnique(payload: Payload, events: seq<Event>, receipt: Receipt, claim: Claim, a: nat, r: nat, t: nat,
                       b: nat, q: nat, u: nat)
    requires Evidence(payload, events, receipt, claim, a, r, t) && Evidence(payload, events, receipt, claim, b, q, u)
    ensures a == b && r == q && t == u
  {
  }

  lemma EvidenceAccepted(payload: Payload, snapshot: Snapshot, receipt: Receipt, claim: Claim, a: nat, r: nat, t: nat)
    requires Evidence(payload, snapshot.events, receipt, claim, a, r, t)
    ensures Reconcile(payload, snapshot, receipt, Some(claim)) == Ok(Proof(claim.event, snapshot.events[t].id, Applied))
  {
    var events := snapshot.events;
    AdmittedMeans(events, receipt);
    NotSpoiled(events, receipt, a);
    FirstIs(events, receipt, a);
    var request := RequestEvent(payload, receipt, claim, events[a]);
    FindMeans(events, request, receipt, claim);
    CandidatesSound(events, request, receipt, claim, r, t);
    var found := Find(events, request, receipt, claim).value;
    assert events[r].id == claim.event && References(events[t], receipt, claim);
    assert found == Found(Some(r), Some(t));
  }

  lemma NotSpoiled(events: seq<Event>, receipt: Receipt, a: nat)
    requires AdmittedAt(events, receipt, a)
    ensures !AdmittedSpoiled(events, receipt)
    ensures Admitted(events, receipt) == Ok(Some(events[a]))
  {
    AdmittedMeans(events, receipt);
  }

  lemma CandidatesSound(events: seq<Event>, request: Event, receipt: Receipt, claim: Claim, r: nat, t: nat)
    requires RequestAt(events, request, claim, r) && TransitionAt(events, request, receipt, claim, t)
    ensures !CandidatesSpoiled(events, request, receipt, claim)
  {
  }

  lemma AcceptedHasEvidence(payload: Payload, snapshot: Snapshot, receipt: Receipt, claim: Claim)
    requires var answer := Reconcile(payload, snapshot, receipt, Some(claim)); answer.Ok? && answer.value.state == Applied
    ensures exists a: nat, r: nat, t: nat :: Evidence(payload, snapshot.events, receipt, claim, a, r, t)
              && Reconcile(payload, snapshot, receipt, Some(claim)) == Ok(Proof(claim.event, snapshot.events[t].id, Applied))
  {
    var events := snapshot.events;
    AdmittedMeans(events, receipt);
    var a: nat :| AdmittedAt(events, receipt, a) && Admitted(events, receipt) == Ok(Some(events[a]));
    FirstIs(events, receipt, a);
    var request := RequestEvent(payload, receipt, claim, events[a]);
    FindMeans(events, request, receipt, claim);
    FoundInside(events, request, receipt, claim);
    var found := Find(events, request, receipt, claim).value;
    assert Evidence(payload, events, receipt, claim, a, found.request.value, found.transition.value);
  }

  // ----- what later events can change -----

  /** An event no rule about this cancel looks at. */
  predicate Unrelated(e: Event, receipt: Receipt, claim: Claim) {
    e.id != receipt.transition && e.id != claim.event && !References(e, receipt, claim)
  }

  predicate AllUnrelated(events: seq<Event>, receipt: Receipt, claim: Claim) {
    forall i :: 0 <= i < |events| ==> Unrelated(events[i], receipt, claim)
  }

  lemma {:induction false} AdmittedIgnores(events: seq<Event>, more: seq<Event>, receipt: Receipt, claim: Claim)
    requires AllUnrelated(more, receipt, claim)
    ensures Admitted(events + more, receipt) == Admitted(events, receipt)
  {
    if more == [] {
      assert events + more == events;
    } else {
      var init, last := more[..|more| - 1], more[|more| - 1];
      assert (events + more)[..|events + more| - 1] == events + init;
      assert (events + more)[|events + more| - 1] == last && Unrelated(last, receipt, claim);
      AdmittedIgnores(events, init, receipt, claim);
    }
  }

  lemma {:induction false} FindIgnores(events: seq<Event>, more: seq<Event>, request: Event, receipt: Receipt, claim: Claim)
    requires AllUnrelated(more, receipt, claim)
    ensures Find(events + more, request, receipt, claim) == Find(events, request, receipt, claim)
  {
    if more == [] {
      assert events + more == events;
    } else {
      var init, last := more[..|more| - 1], more[|more| - 1];
      assert (events + more)[..|events + more| - 1] == events + init;
      assert (events + more)[|events + more| - 1] == last && Unrelated(last, receipt, claim);
      FindIgnores(events, init, request, receipt, claim);
    }
  }

  lemma FirstOn(events: seq<Event>, more: seq<Event>, receipt: Receipt, claim: Claim)
    requires AllUnrelated(more, receipt, claim)
    ensures var k := FirstWith(events, receipt.transition);
            FirstWith(events + more, receipt.transition) == if k < |events| then k else |events + more|
  {
    var all := events + more;
    var k, j := FirstWith(events, receipt.transition), FirstWith(all, receipt.transition);
    assert forall i :: 0 <= i < |events| ==> all[i] == events[i];
    assert forall i :: |events| <= i < |all| ==> Unrelated(all[i], receipt, claim) by {
      forall i | |events| <= i < |all| ensures Unrelated(all[i], receipt, claim) { assert all[i] == more[i - |events|]; }
    }
    assert j < |all| ==> j < |events|;
  }

  lemma JudgeOn(snapshot: Snapshot, later: Snapshot, more: seq<Event>, receipt: Receipt, claim: Claim, found: Found)
    requires later.events == snapshot.events + more && AllUnrelated(more, receipt, claim)
    requires found.request.Some? ==> found.request.value < |snapshot.events|
    requires found.transition.Some? ==> found.transition.value < |snapshot.events|
    ensures var was, now := Judge(snapshot, receipt, claim, found), Judge(later, receipt, claim, found);
            && (was.Err? <==> now.Err?)
            && (was.Ok? ==> now.value.request == was.value.request && now.value.transition == was.value.transition)
            && (was.Ok? && (was.value.state == Applied || later.terminal == snapshot.terminal) ==> now == was)
  {
    FirstOn(snapshot.events, more, receipt, claim);
    forall i, j: nat | j <= |snapshot.events| ensures QuietBetween(later.events, i, j) == QuietBetween(snapshot.events, i, j) {
      assert forall k :: 0 <= k < j ==> later.events[k] == snapshot.events[k];
    }
  }

  /** Later events that have nothing to do with the cancel change no answer, except that the run's end settles an open one. */
  lemma StableUnderUnrelated(payload: Payload, snapshot: Snapshot, later: Snapshot, more: seq<Event>, receipt: Receipt, claim: Claim)
    requires later.events == snapshot.events + more && AllUnrelated(more, receipt, claim)
    ensures var was, now := Reconcile(payload, snapshot, receipt, Some(claim)), Reconcile(payload, later, receipt, Some(claim));
            && (was.Err? <==> now.Err?)
            && (was.Ok? ==> now.value.request == was.value.request && now.value.transition == was.value.transition)
            && (was.Ok? && (was.value.state == Applied || later.terminal == snapshot.terminal) ==> now == was)
  {
    AdmittedIgnores(snapshot.events, more, receipt, claim);
    match Admitted(snapshot.events, receipt)
    case Ok(Some(admitted)) =>
      var request := RequestEvent(payload, receipt, claim, admitted);
      FindIgnores(snapshot.events, more, request, receipt, claim);
      match Find(snapshot.events, request, receipt, claim) {
        case Some(found) =>
          FoundInside(snapshot.events, request, receipt, claim);
          JudgeOn(snapshot, later, more, receipt, claim, found);
        case None =>
      }
    case _ =>
  }
}
