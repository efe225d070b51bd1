/**
  Admitting requests across the request index and the run journals: an identity is issued once for a lookup key, and its
  receipt is appended to its run's journal, at once or when a later call finds it missing. Issuing, confirming and
  appending may each be the last thing that happens before a failure or a crash.
 */
module Admission {
  import opened Results
  import opened Journal
  import opened JournalTheorems
  import opened AppendTheorems

  /**
    `issued` leads from a lookup key to the frozen identity, which is the receipt without its envelope; `sure` are the keys
    whose identity no crash takes back. `journals` are the contents of the runs' journals.
   */
  datatype World = World(issued: map<string, Receipt>, sure: set<string>, journals: map<string, Contents>)

  const NO_CONTENTS := ContentsOf(EMPTY_STATE)

  function JournalOf(w: World, run: string): Contents {
    if run in w.journals then w.journals[run] else NO_CONTENTS
  }

  /** `operationOf` is the digest that makes an operation's id of a lookup key; no two keys have one. */
  datatype Naming = Naming(codec: Codec, operationOf: string -> string)

  ghost predicate Unique(n: Naming) {
    forall a, b: string {:trigger n.operationOf(a), n.operationOf(b)} :: n.operationOf(a) == n.operationOf(b) ==> a == b
  }

  /** The receipt is named as its principal and request say. */
  predicate Named(n: Naming, r: Receipt) {
    r.lookup == n.codec.lookupKey(r.principal, r.request) && r.operation == n.operationOf(r.lookup)
  }

  datatype Step = Issue(r: Receipt)              // a new request's identity goes into the index
                | Confirm(lookup: string)        // and is there for good
                | TakeBack(lookup: string)       // a crash brings the index back as it was before
                | Materialise(lookup: string)    // the identity's receipt goes into its run's journal
                | Advance(run: string, body: Body) // a claim or an outcome

  predicate Receipted(w: World, r: Receipt) {
    r.operation in JournalOf(w, r.run).operations
  }

  /** What each call checks before it does this. */
  predicate Enabled(n: Naming, w: World, step: Step) {
    match step
    case Issue(r) => Named(n, r) && r.lookup !in w.issued && r.lookup !in JournalOf(w, r.run).lookups && !Receipted(w, r)
    case Confirm(l) => l in w.issued
    case TakeBack(l) => l in w.issued && l !in w.sure
    case Materialise(l) =>
      && l in w.issued && l in w.sure && !Receipted(w, w.issued[l])
      && Folded(n.codec, JournalOf(w, w.issued[l].run), ReceiptBody(w.issued[l])).Some?
    case Advance(run, body) => !body.ReceiptBody? && Folded(n.codec, JournalOf(w, run), body).Some?
  }

  function Do(n: Naming, w: World, step: Step): World
    requires Enabled(n, w, step)
  {
    match step
    case Issue(r) => w.(issued := w.issued[r.lookup := r])
    case Confirm(l) => w.(sure := w.sure + {l})
    case TakeBack(l) => w.(issued := w.issued - {l})
    case Materialise(l) =>
      var r := w.issued[l];
      w.(journals := w.journals[r.run := Folded(n.codec, JournalOf(w, r.run), ReceiptBody(r)).value])
    case Advance(run, body) => w.(journals := w.journals[run := Folded(n.codec, JournalOf(w, run), body).value])
  }

  // ----- what every step keeps -----

  /** The operation is its identity's, in its identity's run, and found by its identity's lookup key. */
  predicate OperationOk(w: World, run: string, id: string)
    requires id in JournalOf(w, run).operations
  {
    var r := JournalOf(w, run).operations[id].receipt;
    && id == r.operation && r.run == run && r.lookup in w.sure && r.lookup in w.issued && w.issued[r.lookup] == r
    && r.lookup in JournalOf(w, run).lookups
  }

  predicate LookupOk(w: World, run: string, lookup: string)
    requires lookup in JournalOf(w, run).lookups
  {
    var id := JournalOf(w, run).lookups[lookup];
    id in JournalOf(w, run).operations && JournalOf(w, run).operations[id].receipt.lookup == lookup
  }

  ghost predicate JournalOk(w: World, run: string) {
    && (forall id :: id in JournalOf(w, run).operations ==> OperationOk(w, run, id))
    && forall l :: l in JournalOf(w, run).lookups ==> LookupOk(w, run, l)
  }

  ghost predicate Sound(n: Naming, w: World) {
    && w.sure <= w.issued.Keys
    && (forall l :: l in w.issued ==> w.issued[l].lookup == l && Named(n, w.issued[l]))
    && forall run {:trigger JournalOk(w, run)} :: JournalOk(w, run)
  }

  lemma IndexSteps(n: Naming, w: World, step: Step)
    requires Sound(n, w) && Enabled(n, w, step) && (step.Issue? || step.Confirm? || step.TakeBack?)
    ensures Sound(n, Do(n, w, step))
  {
    var v := Do(n, w, step);
    forall run ensures JournalOk(v, run) {
      assert JournalOk(w, run);
      forall id | id in JournalOf(v, run).operations ensures OperationOk(v, run, id) {
        assert OperationOk(w, run, id);
      }
      forall l | l in JournalOf(v, run).lookups ensures LookupOk(v, run, l) {
        assert LookupOk(w, run, l);
      }
    }
  }

  /** A journal other than the one written to is as it was. */
  lemma OtherRun(w: World, run: string, c: Contents, other: string)
    requires other != run && JournalOk(w, other)
    ensures JournalOk(w.(journals := w.journals[run := c]), other)
  {
    var v := w.(journals := w.journals[run := c]);
    forall id | id in JournalOf(v, other).operations ensures OperationOk(v, other, id) {
      assert OperationOk(w, other, id);
    }
    forall l | l in JournalOf(v, other).lookups ensures LookupOk(v, other, l) {
      assert LookupOk(w, other, l);
    }
  }

  /** What a receipt adds to its journal. */
  lemma ReceiptAdds(c: Codec, x: Contents, r: Receipt)
    requires Folded(c, x, ReceiptBody(r)).Some?
    ensures r.operation !in x.operations && r.lookup !in x.lookups
    ensures Folded(c, x, ReceiptBody(r)).value.operations == x.operations[r.operation := Operation(r, None, [])]
    ensures Folded(c, x, ReceiptBody(r)).value.lookups == x.lookups[r.lookup := r.operation]
  {
  }

  lemma MaterialiseKeeps(n: Naming, w: World, l: string)
    requires Sound(n, w) && Enabled(n, w, Materialise(l))
    ensures JournalOk(Do(n, w, Materialise(l)), w.issued[l].run)
  {
    var r, v := w.issued[l], Do(n, w, Materialise(l));
    ReceiptAdds(n.codec, JournalOf(w, r.run), r);
    assert JournalOk(w, r.run);
    forall id | id in JournalOf(v, r.run).operations ensures OperationOk(v, r.run, id) {
      if id != r.operation { assert OperationOk(w, r.run, id); }
    }
    forall k | k in JournalOf(v, r.run).lookups ensures LookupOk(v, r.run, k) {
      if k != l { assert LookupOk(w, r.run, k); }
    }
  }

  lemma AdvanceKeeps(n: Naming, w: World, run: string, body: Body)
    requires Sound(n, w) && Enabled(n, w, Advance(run, body))
    ensures JournalOk(Do(n, w, Advance(run, body)), run)
  {
    var v := Do(n, w, Advance(run, body));
    assert JournalOk(w, run);
    forall id | id in JournalOf(v, run).operations ensures OperationOk(v, run, id) {
      assert OperationOk(w, run, id);
    }
    forall k | k in JournalOf(v, run).lookups ensures LookupOk(v, run, k) {
      assert LookupOk(w, run, k);
    }
  }

  lemma StepKeeps(n: Naming, w: World, step: Step)
    requires Sound(n, w) && Enabled(n, w, step)
    ensures Sound(n, Do(n, w, step))
  {
    if step.Materialise? || step.Advance? {
      var v, run := Do(n, w, step), if step.Materialise? then w.issued[step.lookup].run else step.run;
      if step.Materialise? { MaterialiseKeeps(n, w, step.lookup); } else { AdvanceKeeps(n, w, run, step.body); }
      forall other ensures JournalOk(v, other) {
        if other != run {
          assert JournalOk(w, other);
          OtherRun(w, run, JournalOf(v, run), other);
        }
      }
    } else {
      IndexSteps(n, w, step);
    }
  }

  // ----- every run -----

  const NEW_WORLD := World(map[], {}, map[])

  predicate Follows(n: Naming, worlds: seq<World>, steps: seq<Step>, i: nat)
    requires |worlds| == |steps| + 1 && i < |steps|
  {
    Enabled(n, worlds[i], steps[i]) && worlds[i + 1] == Do(n, worlds[i], steps[i])
  }

  /** A run from nothing, as many steps as there are, through these worlds. */
  ghost predicate Run(n: Naming, worlds: seq<World>, steps: seq<Step>) {
    && |worlds| == |steps| + 1 && worlds[0] == NEW_WORLD
    && forall i {:trigger Follows(n, worlds, steps, i)} :: 0 <= i < |steps| ==> Follows(n, worlds, steps, i)
  }

  lemma {:induction false} AlwaysSound(n: Naming, worlds: seq<World>, steps: seq<Step>, k: nat)
    requires Run(n, worlds, steps) && k < |worlds|
    ensures Sound(n, worlds[k])
  {
    if k == 0 {
      forall run ensures JournalOk(NEW_WORLD, run) { assert JournalOf(NEW_WORLD, run) == NO_CONTENTS; }
    } else {
      AlwaysSound(n, worlds, steps, k - 1);
      assert Follows(n, worlds, steps, k - 1);
      StepKeeps(n, worlds[k - 1], steps[k - 1]);
    }
  }

  /** No other operation has this lookup key. */
  ghost predicate OnlyPlace(w: World, run: string, id: string, lookup: string) {
    forall other, o :: o in JournalOf(w, other).operations && JournalOf(w, other).operations[o].receipt.lookup == lookup
                       ==> other == run && o == id
  }

  /**
    Whatever failed or crashed: every receipt in any journal has its identity in the index for good, with the same contents;
    and a lookup key has a receipt in one run at most, and one operation there.
   */
  lemma ReceiptsHaveIdentities(n: Naming, worlds: seq<World>, steps: seq<Step>, k: nat, run: string, id: string)
    requires Run(n, worlds, steps) && k < |worlds| && id in JournalOf(worlds[k], run).operations
    ensures var w := worlds[k];
            var r := JournalOf(w, run).operations[id].receipt;
            && r.lookup in w.sure && r.lookup in w.issued && w.issued[r.lookup] == r && r.run == run && r.operation == id
            && OnlyPlace(w, run, id, r.lookup)
  {
    var w := worlds[k];
    AlwaysSound(n, worlds, steps, k);
    assert JournalOk(w, run) && OperationOk(w, run, id);
    var r := JournalOf(w, run).operations[id].receipt;
    forall other, o | o in JournalOf(w, other).operations && JournalOf(w, other).operations[o].receipt.lookup == r.lookup
      ensures other == run && o == id
    {
      assert JournalOk(w, other) && OperationOk(w, other, o);
    }
  }

  /** An operation under the identity's id is the identity's own. */
  lemma OperationIsOwn(n: Naming, w: World, l: string)
    requires Unique(n) && Sound(n, w) && l in w.issued
    ensures Receipted(w, w.issued[l]) ==> l in JournalOf(w, w.issued[l].run).lookups
  {
    var r := w.issued[l];
    if Receipted(w, r) {
      assert JournalOk(w, r.run) && OperationOk(w, r.run, r.operation);
      var other := JournalOf(w, r.run).operations[r.operation].receipt;
      assert Named(n, other) && Named(n, r) && n.operationOf(other.lookup) == n.operationOf(l);
    }
  }

  /**
    An identity whose receipt is missing can be given it later if and only if no other receipt of the run has taken its
    decision request meanwhile: nothing else the journal holds can stand in its way, its bounds on size and number apart.
   */
  lemma MaterialisesIff(n: Naming, worlds: seq<World>, steps: seq<Step>, k: nat, l: string)
    requires Unique(n) && Run(n, worlds, steps) && k < |worlds| && l in worlds[k].sure && l in worlds[k].issued
    requires l !in JournalOf(worlds[k], worlds[k].issued[l].run).lookups
    ensures var w, r := worlds[k], worlds[k].issued[l];
            Enabled(n, w, Materialise(l)) <==> r.action.Cancel? || r.action.request !in JournalOf(w, r.run).decisions
  {
    AlwaysSound(n, worlds, steps, k);
    OperationIsOwn(n, worlds[k], l);
    assert Named(n, worlds[k].issued[l]);
  }

  /** Once there, a receipt stays, and so does what it says. */
  lemma {:induction false} ReceiptsStay(n: Naming, worlds: seq<World>, steps: seq<Step>, j: nat, k: nat, run: string, id: string)
    requires Run(n, worlds, steps) && j <= k < |worlds| && id in JournalOf(worlds[j], run).operations
    ensures id in JournalOf(worlds[k], run).operations
    ensures JournalOf(worlds[k], run).operations[id].receipt == JournalOf(worlds[j], run).operations[id].receipt
  {
    if j < k {
      ReceiptsStay(n, worlds, steps, j, k - 1, run, id);
      assert Follows(n, worlds, steps, k - 1);
      ReceiptStays(n, worlds[k - 1], steps[k - 1], run, id);
    }
  }

  lemma ReceiptStays(n: Naming, w: World, step: Step, run: string, id: string)
    requires Enabled(n, w, step) && id in JournalOf(w, run).operations
    ensures id in JournalOf(Do(n, w, step), run).operations
    ensures JournalOf(Do(n, w, step), run).operations[id].receipt == JournalOf(w, run).operations[id].receipt
  {
  }

  // ----- an identity that never gets its receipt -----

  /** The identity is issued for good, and another receipt of its run has its decision request. */
  predicate Forestalled(w: World, l: string, r: Receipt) {
    && l in w.sure && l in w.issued && w.issued[l] == r && r.action.Decision?
    && r.action.request in JournalOf(w, r.run).decisions && l !in JournalOf(w, r.run).lookups
  }

  lemma StaysForestalled(n: Naming, w: World, step: Step, l: string, r: Receipt)
    requires Sound(n, w) && Enabled(n, w, step) && Forestalled(w, l, r)
    ensures Forestalled(Do(n, w, step), l, r)
  {
    if step.Materialise? {
      var other := w.issued[step.lookup];
      ReceiptAdds(n.codec, JournalOf(w, other.run), other);
    }
  }

  /** Then it never gets its own, whatever happens. */
  lemma {:induction false} NeverMaterialises(n: Naming, worlds: seq<World>, steps: seq<Step>, j: nat, k: nat, l: string, r: Receipt)
    requires Run(n, worlds, steps) && j <= k < |worlds| && Forestalled(worlds[j], l, r)
    ensures Forestalled(worlds[k], l, r) && !Enabled(n, worlds[k], Materialise(l))
  {
    if j < k {
      NeverMaterialises(n, worlds, steps, j, k - 1, l, r);
      AlwaysSound(n, worlds, steps, k - 1);
      assert Follows(n, worlds, steps, k - 1);
      StaysForestalled(n, worlds[k - 1], steps[k - 1], l, r);
    }
  }

  /** Two requests answer one decision: the first is cut off after its identity is issued, the second goes through. */
  function SecondGoesThrough(a: Receipt, b: Receipt): seq<Step> {
    [Issue(a), Confirm(a.lookup), Issue(b), Confirm(b.lookup), Materialise(b.lookup)]
  }

  function Through(a: Receipt, b: Receipt): seq<World>
    requires b.action.Decision?
  {
    var issued := map[a.lookup := a];
    var both := issued[b.lookup := b];
    var journal := Contents(1, 1, map[b.operation := Operation(b, None, [])], map[b.lookup := b.operation],
                            map[b.action.request := b.operation]);
    [NEW_WORLD, World(issued, {}, map[]), World(issued, {a.lookup}, map[]), World(both, {a.lookup}, map[]),
     World(both, {a.lookup, b.lookup}, map[]), World(both, {a.lookup, b.lookup}, map[b.run := journal])]
  }

  lemma FirstIsForestalled(n: Naming, a: Receipt, b: Receipt)
    requires Unique(n) && Named(n, a) && Named(n, b) && a.lookup != b.lookup && a.run == b.run
    requires a.action.Decision? && b.action == a.action
    ensures Run(n, Through(a, b), SecondGoesThrough(a, b))
    ensures Forestalled(Through(a, b)[5], a.lookup, a)
  {
  }
}
