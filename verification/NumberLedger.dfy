/**
  The numbers a process gives to the events it tells, when it may start from a file that does not know of all told before.
 */
module NumberLedger {
  const NUMBERS := 0x1_0000_0000_0000_0000

  /**
    An event is told; the file is saved; a new process goes on from the version of the file with this number, the first
    being no file, or from the last one.
   */
  datatype Act = Tells | Saves | Returns(version: nat)

  /** The events the running process knows of, those each version of the file knows of, and the numbers given so far. */
  datatype Ledger = Ledger(told: nat, versions: seq<nat>, given: seq<nat>)

  function Acted(l: Ledger, act: Act): Ledger {
    match act
    case Tells => l.(told := l.told + 1, given := l.given + [l.told + 1])
    case Saves => l.(versions := l.versions + [l.told])
    case Returns(v) => if l.versions == [] then l else l.(told := l.versions[Chosen(l, v)], versions := l.versions[..Chosen(l, v) + 1])
  }

  function Chosen(l: Ledger, version: nat): (k: nat)
    requires l.versions != []
    ensures k < |l.versions|
  {
    if version < |l.versions| then version else |l.versions| - 1
  }

  function LedgerOf(acts: seq<Act>): Ledger {
    if acts == [] then Ledger(0, [0], []) else Acted(LedgerOf(acts[..|acts| - 1]), acts[|acts| - 1])
  }

  /** The process that starts does not know of some event told before. */
  predicate Forgets(l: Ledger, act: Act) {
    act.Returns? && l.versions != [] && l.versions[Chosen(l, act.version)] < l.told
  }

  predicate Loses(acts: seq<Act>, r: nat)
    requires r < |acts|
  {
    Forgets(LedgerOf(acts[..r]), acts[r])
  }

  predicate Distinct(numbers: seq<nat>) {
    forall i, j :: 0 <= i < j < |numbers| ==> numbers[i] != numbers[j]
  }

  predicate Lost(acts: seq<Act>) {
    exists r :: 0 <= r < |acts| && Loses(acts, r)
  }

  /** An event is told after a process started that did not know of all before. */
  predicate ToldAfterLoss(acts: seq<Act>) {
    exists r, j :: 0 <= r < j < |acts| && Loses(acts, r) && acts[j] == Tells
  }

  lemma LedgerMore(acts: seq<Act>, a: Act)
    ensures LedgerOf(acts + [a]) == Acted(LedgerOf(acts), a)
  {
    assert (acts + [a])[..|acts|] == acts;
  }

  lemma ActsMore(acts: seq<Act>, a: Act)
    ensures LedgerOf(acts + [a]) == Acted(LedgerOf(acts), a)
    ensures forall r :: 0 <= r < |acts| ==> (Loses(acts + [a], r) <==> Loses(acts, r))
    ensures Loses(acts + [a], |acts|) <==> Forgets(LedgerOf(acts), a)
  {
    var more := acts + [a];
    assert more[..|acts|] == acts;
    forall r | 0 <= r < |acts| ensures Loses(more, r) <==> Loses(acts, r) {
      assert more[..r] == acts[..r];
    }
  }

  lemma LossMore(acts: seq<Act>, a: Act)
    ensures Lost(acts + [a]) <==> Lost(acts) || Forgets(LedgerOf(acts), a)
    ensures ToldAfterLoss(acts + [a]) <==> ToldAfterLoss(acts) || (Lost(acts) && a == Tells)
  {
    ActsMore(acts, a);
    var more := acts + [a];
    if Lost(acts) {
      var r :| 0 <= r < |acts| && Loses(acts, r);
      assert Loses(more, r);
      assert more[|acts|] == a;
    }
    if Forgets(LedgerOf(acts), a) { assert Loses(more, |acts|); }
    if ToldAfterLoss(acts) {
      var r, j :| 0 <= r < j < |acts| && Loses(acts, r) && acts[j] == Tells;
      assert Loses(more, r) && more[j] == Tells;
    }
    if ToldAfterLoss(more) {
      var r, j :| 0 <= r < j < |more| && Loses(more, r) && more[j] == Tells;
      assert Loses(acts, r);
      assert j < |acts| ==> acts[j] == Tells;
    }
  }

  /** The versions know of ever more events, and the running process of all they know. */
  predicate Rising(l: Ledger) {
    && l.versions != [] && (forall i, j :: 0 <= i <= j < |l.versions| ==> l.versions[i] <= l.versions[j])
    && l.versions[|l.versions| - 1] <= l.told <= |l.given|
  }

  /** As long as no number was given twice, they are 1, 2, 3 and so on, and a process that knows of fewer has lost some. */
  predicate Counting(l: Ledger, lost: bool) {
    (forall i :: 0 <= i < |l.given| ==> l.given[i] == i + 1) && (lost <==> l.told < |l.given|)
  }

  lemma {:induction false} LedgerFacts(acts: seq<Act>)
    ensures Rising(LedgerOf(acts))
    ensures if ToldAfterLoss(acts) then !Distinct(LedgerOf(acts).given) else Counting(LedgerOf(acts), Lost(acts))
  {
    if acts != [] {
      var init, a := acts[..|acts| - 1], acts[|acts| - 1];
      assert acts == init + [a];
      LedgerFacts(init);
      LossMore(init, a);
      LedgerStep(LedgerOf(init), a);
      ActsMore(init, a);
      if ToldAfterLoss(init) {
        StaysRepeated(LedgerOf(init).given, LedgerOf(acts).given);
      } else {
        CountingStep(LedgerOf(init), Lost(init), a);
      }
    }
  }

  lemma LedgerStep(l: Ledger, a: Act)
    requires Rising(l)
    ensures Rising(Acted(l, a)) && l.given <= Acted(l, a).given
  {
  }

  lemma StaysRepeated(before: seq<nat>, after: seq<nat>)
    requires before <= after && !Distinct(before)
    ensures !Distinct(after)
  {
    var i, j :| 0 <= i < j < |before| && before[i] == before[j];
    assert after[i] == after[j];
  }

  lemma CountingStep(l: Ledger, lost: bool, a: Act)
    requires Rising(l) && Counting(l, lost)
    ensures if lost && a == Tells then !Distinct(Acted(l, a).given) else Counting(Acted(l, a), lost || Forgets(l, a))
  {
    if lost && a == Tells {
      var given := Acted(l, a).given;
      assert given[l.told] == given[|l.given|];
    }
  }

  /**
    Over all processes no two events were given one number, if and only if no event was told after a process had started
    from a version of the file that did not know of all told before.
   */
  lemma DistinctIff(acts: seq<Act>)
    ensures Distinct(LedgerOf(acts).given) <==> !ToldAfterLoss(acts)
  {
    LedgerFacts(acts);
  }

  /** A process that starts from the last version has lost an event exactly if the one before it told one and did not save then. */
  lemma LastVersionLoses(acts: seq<Act>, r: nat)
    requires r < |acts| && acts[r].Returns? && acts[r].version >= |LedgerOf(acts[..r]).versions| - 1
    ensures Loses(acts, r) <==> r > 0 && acts[r - 1] == Tells
  {
    LedgerFacts(acts[..r]);
    if r > 0 {
      assert acts[..r] == acts[..r - 1] + [acts[r - 1]];
      LedgerMore(acts[..r - 1], acts[r - 1]);
      LedgerFacts(acts[..r - 1]);
    }
  }

  /** Two events with one number: the first is told, its save fails, a new process starts, and the next event is told. */
  lemma GivenTwice()
    ensures LedgerOf([Tells, Returns(0), Tells]).given == [1, 1]
  {
    LedgerMore([], Tells);
    LedgerMore([Tells], Returns(0));
    LedgerMore([Tells, Returns(0)], Tells);
    assert [] + [Tells] == [Tells] && [Tells] + [Returns(0)] == [Tells, Returns(0)];
    assert [Tells, Returns(0)] + [Tells] == [Tells, Returns(0), Tells];
  }

  function Tellings(n: nat): (acts: seq<Act>)
    ensures |acts| == n
  {
    seq(n, _ => Tells)
  }

  function From(first: nat, n: nat): (numbers: seq<nat>)
    ensures |numbers| == n && forall i :: 0 <= i < n ==> numbers[i] == first + i
  {
    seq(n, i requires 0 <= i < n => first + i)
  }

  lemma OneMoreGiven(given: seq<nat>, first: nat, n: nat)
    ensures given + From(first, n) + [first + n] == given + From(first, n + 1)
  {
  }

  lemma OneMoreTelling(acts: seq<Act>, n: nat)
    ensures acts + Tellings(n) + [Tells] == acts + Tellings(n + 1)
  {
  }

  function Telling(l: Ledger, n: nat): Ledger {
    Ledger(l.told + n, l.versions, l.given + From(l.told + 1, n))
  }

  lemma OneMoreTold(l: Ledger, n: nat)
    ensures Acted(Telling(l, n), Tells) == Telling(l, n + 1)
  {
    OneMoreGiven(l.given, l.told + 1, n);
  }

  lemma {:induction false} TellsMore(acts: seq<Act>, n: nat)
    ensures LedgerOf(acts + Tellings(n)) == Telling(LedgerOf(acts), n)
  {
    var l := LedgerOf(acts);
    if n == 0 {
      assert acts + Tellings(0) == acts && l.given + From(l.told + 1, 0) == l.given;
    } else {
      TellsMore(acts, n - 1);
      OneMoreTelling(acts, n - 1);
      LedgerMore(acts + Tellings(n - 1), Tells);
      OneMoreTold(l, n - 1);
    }
  }

  /** The account of what was told, saved and gone back to, and of every number given, while fewer than 2^64 were. */
  predicate Accounts(told: nat, versions: seq<nat>, acts: seq<Act>, given: seq<nat>) {
    var l := LedgerOf(acts);
    && l.told == told && l.versions == versions && |given| == |l.given|
    && (|given| < NUMBERS ==> given == l.given)
  }

  lemma AccountsTold(told: nat, versions: seq<nat>, acts: seq<Act>, given: seq<nat>, numbers: seq<nat>)
    requires Accounts(told, versions, acts, given)
    requires told + |numbers| < NUMBERS ==> numbers == From(told + 1, |numbers|)
    ensures Accounts(told + |numbers|, versions, acts + Tellings(|numbers|), given + numbers)
  {
    TellsMore(acts, |numbers|);
    assert told <= |given| by { LedgerFacts(acts); }
  }

  lemma AccountsSaved(told: nat, versions: seq<nat>, acts: seq<Act>, given: seq<nat>)
    requires Accounts(told, versions, acts, given)
    ensures Accounts(told, versions + [told], acts + [Saves], given)
  {
    LedgerMore(acts, Saves);
  }

  lemma AccountsReturned(told: nat, versions: seq<nat>, acts: seq<Act>, given: seq<nat>, v: nat)
    requires Accounts(told, versions, acts, given) && v < |versions|
    ensures Accounts(versions[v], versions[..v + 1], acts + [Returns(v)], given)
  {
    LedgerMore(acts, Returns(v));
  }

  /** Over all processes no number was given twice, exactly as long as nothing was told after a loss. */
  lemma AccountsDistinct(told: nat, versions: seq<nat>, acts: seq<Act>, given: seq<nat>)
    requires Accounts(told, versions, acts, given) && |given| < NUMBERS
    ensures Distinct(given) <==> !ToldAfterLoss(acts)
  {
    DistinctIff(acts);
  }
}
