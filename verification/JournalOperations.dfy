/**
  The operations a scanned journal holds: every history it can give one, the uniqueness of its keys, and the three
  operations that append to it.
 */
module JournalOperations {
  import opened Results
  import opened ByteLines
  import opened Journal
  import opened JournalTheorems

  // ----- histories -----

  predicate Statuses(outcomes: seq<Outcome>, statuses: seq<Status>) {
    |outcomes| == |statuses| && forall i :: 0 <= i < |outcomes| ==> outcomes[i].status == statuses[i]
  }

  /** Received, rejected, claimed, applied, reconciliation required, or that and one reconciled outcome. */
  predicate KnownHistory(claimed: bool, outcomes: seq<Outcome>) {
    if !claimed then Statuses(outcomes, []) || Statuses(outcomes, [Rejected])
    else
      || Statuses(outcomes, [])
      || Statuses(outcomes, [Applied])
      || Statuses(outcomes, [ReconciliationRequired])
      || Statuses(outcomes, [ReconciliationRequired, ReconciledApplied])
      || Statuses(outcomes, [ReconciliationRequired, ReconciledNotApplied])
  }

  lemma {:induction false} ProgressHistory(claimed: bool, outcomes: seq<Outcome>)
    ensures var reached := Progress(if claimed then Claimed else Received, outcomes);
            && (reached.Some? <==> KnownHistory(claimed, outcomes))
            && (reached.Some? && outcomes != [] ==> reached.value == outcomes[|outcomes| - 1].status)
    decreases |outcomes|
  {
    if outcomes != [] {
      var init := outcomes[..|outcomes| - 1];
      assert forall i :: 0 <= i < |init| ==> init[i] == outcomes[i];
      ProgressHistory(claimed, init);
    }
  }

  // ----- uniqueness -----

  /** Keys name their values, claims repeat what their receipt froze, and no two operations share a lookup or a decision. */
  predicate Sound(c: Codec, s: State) {
    && s.sequence == s.total
    && (forall id :: id in s.operations ==> OperationSound(c, s, id))
    && (forall l :: l in s.lookups ==> s.lookups[l] in s.operations && s.operations[s.lookups[l]].receipt.lookup == l)
  }

  predicate OperationSound(c: Codec, s: State, id: string)
    requires id in s.operations
  {
    var op := s.operations[id];
    && op.receipt.operation == id
    && op.receipt.lookup == c.lookupKey(op.receipt.principal, op.receipt.request)
    && op.receipt.lookup in s.lookups && s.lookups[op.receipt.lookup] == id
    && (op.receipt.action.Decision? ==> op.receipt.action.request in s.decisions && s.decisions[op.receipt.action.request] == id)
    && (op.claim.Some? ==> op.claim.value.operation == id && op.claim.value.transition == op.receipt.transition
                           && op.claim.value.ownerLease == op.receipt.ownerLease)
    && forall i :: 0 <= i < |op.outcomes| ==> op.outcomes[i].operation == id
  }

  lemma ReceiptSound(c: Codec, s: State, receipt: Receipt)
    requires Sound(c, s) && ApplyDecoded(c, s, ReceiptBody(receipt)).Some?
    ensures Sound(c, ApplyDecoded(c, s, ReceiptBody(receipt)).value)
  {
    var t := ApplyDecoded(c, s, ReceiptBody(receipt)).value;
    forall id | id in t.operations ensures OperationSound(c, t, id) {
      if id != receipt.operation { assert OperationSound(c, s, id); }
    }
  }

  lemma ApplySound(c: Codec, s: State, body: Body)
    requires Sound(c, s) && ApplyDecoded(c, s, body).Some?
    ensures Sound(c, ApplyDecoded(c, s, body).value)
  {
    var t := ApplyDecoded(c, s, body).value;
    if body.ReceiptBody? {
      ReceiptSound(c, s, body.receipt);
    } else {
      forall id | id in t.operations ensures OperationSound(c, t, id) {
        assert OperationSound(c, s, id);
      }
    }
  }

  lemma {:induction false} FoldSound(c: Codec, epoch: nat, records: seq<Record>, s: State)
    requires Sound(c, s) && FoldRecords(c, epoch, records, s).Some?
    ensures Sound(c, FoldRecords(c, epoch, records, s).value)
  {
    if records != [] {
      var n := |records| - 1;
      FoldSound(c, epoch, records[..n], s);
      var t := FoldRecords(c, epoch, records[..n], s).value;
      ApplySound(c, t.(sequence := records[n].sequence, total := t.total + 1), records[n].body);
    }
  }

  lemma {:induction false} ScanSound(c: Codec, files: seq<seq<byte>>)
    requires ScanSegments(c, files).Some?
    ensures Sound(c, ScanSegments(c, files).value)
  {
    if files != [] {
      var n := |files| - 1;
      ScanSound(c, files[..n]);
      FoldSound(c, n + 1, SegmentContents(c, files[n]).value.1, ScanSegments(c, files[..n]).value);
    }
  }

  /** Every accepted journal: known histories only, rejected means never claimed, one operation per decision and per lookup. */
  lemma ScannedJournal(c: Codec, files: seq<seq<byte>>, s: State)
    requires ScanFiles(c, files) == Some(s)
    ensures Sound(c, s)
    ensures forall id :: id in s.operations ==> KnownHistory(s.operations[id].claim.Some?, s.operations[id].outcomes)
    ensures forall id :: id in s.operations && s.operations[id].Status() == Rejected ==> s.operations[id].claim == None
    ensures forall a, b :: a in s.operations && b in s.operations && a != b ==>
              && s.operations[a].receipt.lookup != s.operations[b].receipt.lookup
              && (s.operations[a].receipt.action.Decision? ==> s.operations[a].receipt.action != s.operations[b].receipt.action)
  {
    ScanSound(c, files);
    forall id | id in s.operations
      ensures KnownHistory(s.operations[id].claim.Some?, s.operations[id].outcomes)
      ensures s.operations[id].Status() == Rejected ==> s.operations[id].claim == None
    {
      ProgressHistory(s.operations[id].claim.Some?, s.operations[id].outcomes);
    }
    forall a, b | a in s.operations && b in s.operations && a != b
      ensures s.operations[a].receipt.lookup != s.operations[b].receipt.lookup
      ensures s.operations[a].receipt.action.Decision? ==> s.operations[a].receipt.action != s.operations[b].receipt.action
    {
      assert OperationSound(c, s, a) && OperationSound(c, s, b);
    }
  }

  // ----- the appending operations -----

  datatype CallError = NotFound | Conflict | DecisionExists | Corrupt

  /** Answered from the journal, a new record to append, or refused. */
  datatype Reply<+T> = Existing(value: T) | Fresh(body: Body) | Refused(error: CallError)

  function CreateReceipt(s: State, receipt: Receipt): Reply<Receipt> {
    if receipt.lookup in s.lookups then Refused(Corrupt)
    else if receipt.action.Decision? && receipt.action.request in s.decisions then Refused(DecisionExists)
    else if receipt.operation in s.operations then Refused(Corrupt)
    else Fresh(ReceiptBody(receipt))
  }

  /** `event` is the deterministic event identity of the caller's domain. */
  function CreateClaim(s: State, run: string, operation: string, ownerLease: string, event: string, now: string): Reply<Claim> {
    if operation !in s.operations || s.operations[operation].receipt.run != run then Refused(NotFound) else
      var op := s.operations[operation];
      if op.claim.Some? then
        var existing := op.claim.value;
        if existing.ownerLease != ownerLease || existing.transition != op.receipt.transition || existing.event != event
        then Refused(Corrupt) else Existing(existing)
      else if op.Status() != Received then Refused(Conflict)
      else Fresh(ClaimBody(Claim(operation, op.receipt.transition, ownerLease, event, now)))
  }

  function AppendOutcome(s: State, run: string, operation: string, status: Status, events: seq<string>, reason: string,
                         now: string): Reply<Outcome>
  {
    if operation !in s.operations || s.operations[operation].receipt.run != run then Refused(NotFound) else
      var op := s.operations[operation];
      if Terminal(op.Status()) then
        if op.outcomes == [] then Refused(Corrupt) else
          var existing := op.outcomes[|op.outcomes| - 1];
          if existing.status == status && existing.events == events && existing.reason == reason
          then Existing(existing) else Refused(Conflict)
      else
        var outcome := Outcome(operation, status, events, reason, now);
        if ValidProgress(op.(outcomes := op.outcomes + [outcome])) then Fresh(OutcomeBody(outcome)) else Refused(Corrupt)
  }

  /** A new receipt whose lookup is the digest of its principal and request is always admitted. */
  lemma ReceiptAdmitted(c: Codec, s: State, receipt: Receipt)
    requires AllProgress(s) && CreateReceipt(s, receipt).Fresh?
    ensures Admits(c, s, CreateReceipt(s, receipt).body) <==> receipt.lookup == c.lookupKey(receipt.principal, receipt.request)
  {
  }

  /** A new claim is admitted exactly when its owner lease is the receipt's, which the call itself never checks. */
  lemma ClaimAdmitted(c: Codec, s: State, run: string, operation: string, ownerLease: string, event: string, now: string)
    requires AllProgress(s) && CreateClaim(s, run, operation, ownerLease, event, now).Fresh?
    ensures Admits(c, s, CreateClaim(s, run, operation, ownerLease, event, now).body)
            <==> ownerLease == s.operations[operation].receipt.ownerLease
  {
    var op := s.operations[operation];
    assert op.outcomes != [] ==> ValidProgress(op);
    ProgressHistory(false, op.outcomes);
    assert op.outcomes == [];
  }

  lemma OutcomeAdmitted(c: Codec, s: State, run: string, operation: string, status: Status, events: seq<string>, reason: string,
                        now: string)
    requires AllProgress(s) && AppendOutcome(s, run, operation, status, events, reason, now).Fresh?
    ensures Admits(c, s, AppendOutcome(s, run, operation, status, events, reason, now).body)
  {
  }

  /** A settled operation takes no further record, whatever is asked of it. */
  lemma TerminalAbsorbs(s: State, operation: string)
    requires operation in s.operations && ValidProgress(s.operations[operation]) && Terminal(s.operations[operation].Status())
    ensures forall run, lease, event, now :: !CreateClaim(s, run, operation, lease, event, now).Fresh?
    ensures forall run, status, events, reason, now :: !AppendOutcome(s, run, operation, status, events, reason, now).Fresh?
  {
    var op := s.operations[operation];
    ProgressHistory(op.claim.Some?, op.outcomes);
  }

  function Target(body: Body): string {
    match body
    case ReceiptBody(receipt) => receipt.operation
    case ClaimBody(claim) => claim.operation
    case OutcomeBody(outcome) => outcome.operation
  }

  /** A record moves only its own operation. */
  lemma OthersUnchanged(c: Codec, s: State, body: Body)
    requires ApplyDecoded(c, s, body).Some?
    ensures ApplyDecoded(c, s, body).value.operations
            == s.operations[Target(body) := ApplyDecoded(c, s, body).value.operations[Target(body)]]
  {
  }

  /** An admitted record starts an operation, claims a received one, or takes an unsettled one a step further. */
  lemma OneStep(c: Codec, s: State, body: Body)
    requires AllProgress(s) && Admits(c, s, body)
    ensures var after := ApplyDecoded(c, s, body).value.operations[Target(body)];
            if Target(body) !in s.operations then body == ReceiptBody(after.receipt) && after.Status() == Received
            else
              var before := s.operations[Target(body)];
              && after.receipt == before.receipt
              && if body.ClaimBody? then before.Status() == Received && after.Status() == Claimed
                 else Step(before.Status(), after.Status()) && after.claim == before.claim
  {
    if body.OutcomeBody? {
      var before := s.operations[body.outcome.operation];
      var outcomes := before.outcomes + [body.outcome];
      assert ApplyDecoded(c, s, body).value.operations[body.outcome.operation].outcomes == outcomes;
      LastStep(before.claim.Some?, before.outcomes, body.outcome);
    }
  }

  lemma LastStep(claimed: bool, outcomes: seq<Outcome>, next: Outcome)
    requires KnownHistory(claimed, outcomes) || Progress(if claimed then Claimed else Received, outcomes).Some?
    requires Progress(if claimed then Claimed else Received, outcomes + [next]).Some?
    ensures Step(if outcomes == [] then if claimed then Claimed else Received else outcomes[|outcomes| - 1].status, next.status)
  {
    assert (outcomes + [next])[..|outcomes|] == outcomes;
    ProgressHistory(claimed, outcomes);
  }
}
