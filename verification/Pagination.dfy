/**
  Bounded collection of a provider's paged lists. What a page holds is the provider's choice; a successful collection is
  nevertheless exact, and no bound can be run into from the inside.
 */
module Pagination {
  import opened Results

  datatype Limits = Limits(maxSuites: nat, maxRuns: nat, maxStatuses: nat, itemsPerPage: nat, maxSuitePages: nat, maxRunPages: nat,
                           maxStatusPages: nat, maxCollectionRequests: nat)

  const PRODUCTION := Limits(256, 256, 256, 64, 4, 4, 5, 30)

  /** The counting limits are positive, and a list within its bound fits the pages it may take. */
  predicate Consistent(l: Limits) {
    && l.maxSuites > 0 && l.maxRuns > 0 && l.maxStatuses > 0 && l.itemsPerPage > 0
    && l.maxSuitePages > 0 && l.maxRunPages > 0 && l.maxStatusPages > 0 && l.maxCollectionRequests > 0
    && l.itemsPerPage <= l.maxSuites && l.itemsPerPage <= l.maxRuns && l.itemsPerPage <= l.maxStatuses
    && l.maxSuitePages * l.itemsPerPage >= l.maxSuites && l.maxRunPages * l.itemsPerPage >= l.maxRuns
    && (l.maxStatusPages - 1) * l.itemsPerPage >= l.maxStatuses
  }

  datatype Failure =
    | RequestLimit | Unavailable
    | Malformed | TotalTooLarge | TotalChanged | PageTooLarge | InvalidId | DuplicateInPage | DuplicateAcrossPages
    | ConflictingNode | RepeatedBody | RepeatedIdentity | BadItem
    | NextBeyondLimit | NextBeyondTotal | CountExceeded | ShortPage | PagesExhausted
    | StatusTotalTooLarge | SentinelNotEmpty

  /** An item's identifier and node; `sound` says that its head, its texts and its fields are as they have to be. */
  datatype Item = Item(id: int, node: string, sound: bool)

  /** A decoded page. `body` stands for the bytes it was decoded from. */
  datatype Page = Page(total: int, items: seq<Item>, next: bool, body: string)

  /** What the provider answers to each page asked for; None is a failed request or an undecodable answer. */
  type Provider = nat -> Option<Page>

  function Ids(items: seq<Item>): set<int> {
    set i | 0 <= i < |items| :: items[i].id
  }

  /** Positive identifiers, none of them twice. */
  predicate Distinct(items: seq<Item>) {
    && (forall i :: 0 <= i < |items| ==> items[i].id > 0)
    && forall i, j :: 0 <= i < j < |items| ==> items[i].id != items[j].id
  }

  lemma DistinctJoin(a: seq<Item>, b: seq<Item>)
    requires Distinct(a) && Distinct(b) && Ids(a) !! Ids(b)
    ensures Distinct(a + b) && Ids(a + b) == Ids(a) + Ids(b)
  {
    var c := a + b;
    forall x ensures x in Ids(c) <==> x in Ids(a) + Ids(b) {
      if x in Ids(a) { var i :| 0 <= i < |a| && a[i].id == x; assert c[i].id == x; }
      if x in Ids(b) { var i :| 0 <= i < |b| && b[i].id == x; assert c[|a| + i].id == x; }
    }
    forall i, j | 0 <= i < j < |c| ensures c[i].id != c[j].id {
      if i < |a| <= j { assert c[i].id in Ids(a) && c[j].id in Ids(b); }
    }
  }

  lemma IdsMore(items: seq<Item>, i: nat)
    requires i < |items|
    ensures Ids(items[..i + 1]) == Ids(items[..i]) + {items[i].id}
  {
    forall x ensures x in Ids(items[..i + 1]) <==> x in Ids(items[..i]) + {items[i].id} {
      if x in Ids(items[..i]) { var k :| 0 <= k < i && items[..i][k].id == x; assert items[..i + 1][k].id == x; }
      if x == items[i].id { assert items[..i + 1][i].id == x; }
    }
  }

  // ----- the tracker -----

  /** The item's node, where it has one and was seen before, had the item's identifier. */
  predicate NodeKept(nodes: map<string, int>, item: Item) {
    item.node == "" || item.node !in nodes || nodes[item.node] == item.id
  }

  function NodesAfter(nodes: map<string, int>, items: seq<Item>): map<string, int> {
    if items == [] then nodes else
      var before, item := NodesAfter(nodes, items[..|items| - 1]), items[|items| - 1];
      if item.node == "" then before else before[item.node := item.id]
  }

  lemma DistinctMore(items: seq<Item>, i: nat)
    requires i < |items| && Distinct(items[..i]) && items[i].id > 0 && items[i].id !in Ids(items[..i])
    ensures Distinct(items[..i + 1])
  {
    assert forall k :: 0 <= k < i ==> items[k].id in Ids(items[..i]) by {
      assert forall k :: 0 <= k < i ==> items[..i][k].id == items[k].id;
    }
  }

  /** What was seen on the pages taken so far. */
  datatype Sighted = Sighted(ids: set<int>, nodes: map<string, int>, bodies: set<string>, identities: set<set<int>>)

  const UNSIGHTED := Sighted({}, map[], {}, {})

  /** A page of new items, in bytes and with identifiers not seen on an earlier page, whose nodes keep their identifiers. */
  predicate Fits(s: Sighted, items: seq<Item>, body: string) {
    && Distinct(items) && Ids(items) !! s.ids && (forall i :: 0 <= i < |items| ==> NodeKept(s.nodes, items[i]))
    && (items != [] ==> body !in s.bodies && Ids(items) !in s.identities)
  }

  function SightedAfter(s: Sighted, items: seq<Item>, body: string): Sighted {
    Sighted(s.ids + Ids(items), NodesAfter(s.nodes, items), s.bodies + (if items == [] then {} else {body}),
            s.identities + (if items == [] then {} else {Ids(items)}))
  }

  /** The tracker: it keeps what it has seen. */
  class PageTracker {
    var ids: set<int>
    var nodes: map<string, int>
    var bodies: set<string>
    var identities: set<set<int>>

    function Seen(): Sighted
      reads this
    {
      Sighted(ids, nodes, bodies, identities)
    }

    constructor ()
      ensures Seen() == UNSIGHTED
    {
      ids, nodes, bodies, identities := {}, map[], {}, {};
    }

    /** The identifiers of a page whose items are all new. */
    method CheckItems(items: seq<Item>) returns (failed: Option<Failure>, seen: set<int>)
      ensures failed == None <==> Distinct(items) && Ids(items) !! ids && forall i :: 0 <= i < |items| ==> NodeKept(nodes, items[i])
      ensures failed == None ==> seen == Ids(items)
      ensures failed == None || failed.value in {InvalidId, DuplicateInPage, DuplicateAcrossPages, ConflictingNode}
    {
      seen := {};
      for i := 0 to |items|
        invariant seen == Ids(items[..i]) && Distinct(items[..i]) && seen !! ids
        invariant forall k :: 0 <= k < i ==> NodeKept(nodes, items[k])
      {
        var item := items[i];
        if item.id <= 0 { return Some(InvalidId), {}; }
        if item.id in seen { return Some(DuplicateInPage), {}; }
        if item.id in ids { assert item.id in Ids(items); return Some(DuplicateAcrossPages), {}; }
        if !NodeKept(nodes, item) { return Some(ConflictingNode), {}; }
        IdsMore(items, i);
        DistinctMore(items, i);
        seen := seen + {item.id};
      }
      assert items[..|items|] == items;
      failed := None;
    }

    /** Takes in a page that fits, and refuses every other; a refused page leaves nothing behind. */
    method CheckPage(items: seq<Item>, body: string) returns (failed: Option<Failure>)
      modifies this
      ensures failed == None <==> Fits(old(Seen()), items, body)
      ensures Seen() == if failed == None then SightedAfter(old(Seen()), items, body) else old(Seen())
      ensures failed == None || failed.value in {InvalidId, DuplicateInPage, DuplicateAcrossPages, ConflictingNode, RepeatedBody, RepeatedIdentity}
    {
      var seen;
      failed, seen := CheckItems(items);
      if failed.Some? { return; }
      if |items| > 0 {
        if body in bodies { return Some(RepeatedBody); }
        if seen in identities { return Some(RepeatedIdentity); }
        bodies, identities := bodies + {body}, identities + {seen};
      }
      var was := ids;
      for i := 0 to |items|
        invariant ids == was + Ids(items[..i]) && nodes == NodesAfter(old(nodes), items[..i])
        modifies `ids, `nodes
      {
        IdsMore(items, i);
        assert items[..i + 1][..i] == items[..i];
        ids := ids + {items[i].id};
        if items[i].node != "" { nodes := nodes[items[i].node := items[i].id]; }
      }
      assert items[..|items|] == items;
    }
  }

  // ----- one identifier for a node -----

  /** A page's items and its bytes. */
  datatype Sheet = Sheet(items: seq<Item>, body: string)

  function SightedOn(sheets: seq<Sheet>): Sighted {
    if sheets == [] then UNSIGHTED else
      SightedAfter(SightedOn(sheets[..|sheets| - 1]), sheets[|sheets| - 1].items, sheets[|sheets| - 1].body)
  }

  /** A new tracker takes these pages one after another. */
  predicate Accepted(sheets: seq<Sheet>) {
    sheets == [] || (Accepted(sheets[..|sheets| - 1])
                     && Fits(SightedOn(sheets[..|sheets| - 1]), sheets[|sheets| - 1].items, sheets[|sheets| - 1].body))
  }

  function AllItems(sheets: seq<Sheet>): seq<Item> {
    if sheets == [] then [] else AllItems(sheets[..|sheets| - 1]) + sheets[|sheets| - 1].items
  }

  /** No node is named under two identifiers. */
  predicate OneIdEach(items: seq<Item>) {
    forall i, j :: 0 <= i < j < |items| && items[i].node == items[j].node != "" ==> items[i].id == items[j].id
  }

  function Nodes(items: seq<Item>): set<string> {
    set i | 0 <= i < |items| && items[i].node != "" :: items[i].node
  }

  lemma NodesMore(a: seq<Item>, b: seq<Item>)
    ensures Nodes(a + b) == Nodes(a) + Nodes(b) && Ids(a + b) == Ids(a) + Ids(b)
  {
    var c := a + b;
    forall n ensures n in Nodes(c) <==> n in Nodes(a) + Nodes(b) {
      if n in Nodes(a) { var i :| 0 <= i < |a| && a[i].node == n; assert c[i] == a[i]; }
      if n in Nodes(b) { var i :| 0 <= i < |b| && b[i].node == n; assert c[|a| + i] == b[i]; }
    }
    forall x ensures x in Ids(c) <==> x in Ids(a) + Ids(b) {
      if x in Ids(a) { var i :| 0 <= i < |a| && a[i].id == x; assert c[i] == a[i]; }
      if x in Ids(b) { var i :| 0 <= i < |b| && b[i].id == x; assert c[|a| + i] == b[i]; }
    }
  }

  lemma {:induction false} NodesAfterIs(nodes: map<string, int>, items: seq<Item>)
    ensures NodesAfter(nodes, items).Keys == nodes.Keys + Nodes(items)
    ensures forall n :: n in NodesAfter(nodes, items) ==> NodesAfter(nodes, items)[n] in nodes.Values + Ids(items)
  {
    if items != [] {
      var init, last := items[..|items| - 1], items[|items| - 1];
      NodesAfterIs(nodes, init);
      NodesMore(init, [last]);
      assert items == init + [last] && [last][0] == last;
      assert last.id in Ids([last]) && Nodes([last]) == if last.node == "" then {} else {last.node};
    }
  }

  /** What a tracker knows after the pages it took: their identifiers, and for each node one of them. */
  lemma {:induction false} SightedIs(sheets: seq<Sheet>)
    ensures SightedOn(sheets).ids == Ids(AllItems(sheets)) && SightedOn(sheets).nodes.Keys == Nodes(AllItems(sheets))
    ensures forall n :: n in SightedOn(sheets).nodes ==> SightedOn(sheets).nodes[n] in SightedOn(sheets).ids
  {
    if sheets != [] {
      var init, last := sheets[..|sheets| - 1], sheets[|sheets| - 1];
      SightedIs(init);
      NodesMore(AllItems(init), last.items);
      NodesAfterIs(SightedOn(init).nodes, last.items);
    }
  }

  /** A node seen on one page is not on a page taken later: there its identifier would have to be an old one. */
  lemma NodesAreNew(init: seq<Sheet>, last: Sheet)
    requires Fits(SightedOn(init), last.items, last.body)
    ensures Nodes(AllItems(init)) !! Nodes(last.items)
  {
    SightedIs(init);
    forall n | n in Nodes(last.items) ensures n !in Nodes(AllItems(init)) {
      var i :| 0 <= i < |last.items| && last.items[i].node == n != "";
      assert NodeKept(SightedOn(init).nodes, last.items[i]) && last.items[i].id in Ids(last.items);
    }
  }

  lemma NodesApart(a: seq<Item>, b: seq<Item>)
    requires Nodes(a) !! Nodes(b)
    ensures forall i, j :: 0 <= i < |a| && 0 <= j < |b| && a[i].node != "" ==> a[i].node != b[j].node
  {
    forall i, j | 0 <= i < |a| && 0 <= j < |b| && a[i].node != "" ensures a[i].node != b[j].node {
      assert a[i].node in Nodes(a);
      if b[j].node != "" { assert b[j].node in Nodes(b); }
    }
  }

  lemma OneIdJoin(a: seq<Item>, b: seq<Item>)
    requires Nodes(a) !! Nodes(b)
    ensures OneIdEach(a + b) <==> OneIdEach(a) && OneIdEach(b)
  {
    var c := a + b;
    NodesApart(a, b);
    if OneIdEach(c) {
      forall i, j | 0 <= i < j < |a| && a[i].node == a[j].node != "" ensures a[i].id == a[j].id { assert c[i] == a[i] && c[j] == a[j]; }
      forall i, j | 0 <= i < j < |b| && b[i].node == b[j].node != "" ensures b[i].id == b[j].id {
        assert c[|a| + i] == b[i] && c[|a| + j] == b[j];
      }
    }
    if OneIdEach(a) && OneIdEach(b) {
      forall i, j | 0 <= i < j < |c| && c[i].node == c[j].node != "" ensures c[i].id == c[j].id {
        if j < |a| {
          assert c[i] == a[i] && c[j] == a[j];
        } else {
          assert c[j] == b[j - |a|] && (i < |a| ==> c[i] == a[i]) && (i >= |a| ==> c[i] == b[i - |a|]);
        }
      }
    }
  }

  predicate EachPageNamesOnce(sheets: seq<Sheet>) {
    forall k :: 0 <= k < |sheets| ==> OneIdEach(sheets[k].items)
  }

  /** Over the pages taken each node has one identifier, if and only if no page by itself names one under two. */
  lemma {:induction false} OneIdForEachNode(sheets: seq<Sheet>)
    requires Accepted(sheets)
    ensures OneIdEach(AllItems(sheets)) <==> EachPageNamesOnce(sheets)
  {
    if sheets != [] {
      var init, last := sheets[..|sheets| - 1], sheets[|sheets| - 1];
      OneIdForEachNode(init);
      NodesAreNew(init, last);
      OneIdJoin(AllItems(init), last.items);
      assert EachPageNamesOnce(sheets) <==> EachPageNamesOnce(init) && OneIdEach(last.items) by {
        assert forall k :: 0 <= k < |init| ==> sheets[k] == init[k];
      }
    }
  }

  lemma AcceptedMore(sheets: seq<Sheet>, sheet: Sheet)
    ensures Accepted(sheets + [sheet]) <==> Accepted(sheets) && Fits(SightedOn(sheets), sheet.items, sheet.body)
    ensures SightedOn(sheets + [sheet]) == SightedAfter(SightedOn(sheets), sheet.items, sheet.body)
    ensures AllItems(sheets + [sheet]) == AllItems(sheets) + sheet.items
  {
    assert (sheets + [sheet])[..|sheets|] == sheets;
  }

  /** A new tracker takes a page that names one node under two identifiers. */
  lemma TwoIdsTaken(node: string, body: string)
    requires node != ""
    ensures var sheet := Sheet([Item(1, node, true), Item(2, node, true)], body);
            Accepted([sheet]) && !OneIdEach(AllItems([sheet]))
  {
    var items := [Item(1, node, true), Item(2, node, true)];
    TwoItemsFit(items, body);
    AcceptedMore([], Sheet(items, body));
    assert [] + [Sheet(items, body)] == [Sheet(items, body)] && AllItems([]) + items == items;
    assert items[0].node == items[1].node != "" && items[0].id != items[1].id;
  }

  lemma TwoItemsFit(items: seq<Item>, body: string)
    requires |items| == 2 && items[0].id == 1 && items[1].id == 2
    ensures Fits(UNSIGHTED, items, body)
  {
  }

  // ----- whole lists -----

  /** The items of the first `n` pages, in order; pages are numbered from 1. */
  function Gathered(provider: Provider, n: nat): seq<Item> {
    if n == 0 || provider(n) == None then [] else Gathered(provider, n - 1) + provider(n).value.items
  }

  function SheetOf(page: Page): Sheet {
    Sheet(page.items, page.body)
  }

  /** They are the provider's pages, from the first on. */
  predicate PagesOf(provider: Provider, sheets: seq<Sheet>) {
    forall p {:trigger provider(p)} :: 1 <= p <= |sheets| ==> provider(p).Some? && sheets[p - 1] == SheetOf(provider(p).value)
  }

  /** The list is the items of the provider's first pages, which a tracker took one after another. */
  predicate Lists(provider: Provider, sheets: seq<Sheet>, items: seq<Item>) {
    PagesOf(provider, sheets) && Accepted(sheets) && AllItems(sheets) == items
  }

  predicate Tracks(provider: Provider, sheets: seq<Sheet>, seen: Sighted, items: seq<Item>) {
    Lists(provider, sheets, items) && seen == SightedOn(sheets)
  }

  lemma TracksMore(provider: Provider, sheets: seq<Sheet>, seen: Sighted, items: seq<Item>, page: Page)
    requires Tracks(provider, sheets, seen, items) && Fits(seen, page.items, page.body) && provider(|sheets| + 1) == Some(page)
    ensures Tracks(provider, sheets + [SheetOf(page)], SightedAfter(seen, page.items, page.body), items + page.items)
  {
    AcceptedMore(sheets, SheetOf(page));
    PagesMore(provider, sheets, page);
  }

  lemma PagesMore(provider: Provider, sheets: seq<Sheet>, page: Page)
    requires PagesOf(provider, sheets) && provider(|sheets| + 1) == Some(page)
    ensures PagesOf(provider, sheets + [SheetOf(page)])
  {
  }

  /** In a list that was collected each node has one identifier, exactly if each page names it under one. */
  lemma ListNamesOnce(provider: Provider, sheets: seq<Sheet>, items: seq<Item>)
    requires Lists(provider, sheets, items)
    ensures OneIdEach(items) <==> EachPageNamesOnce(sheets)
  {
    OneIdForEachNode(sheets);
  }

  /** The first `n` pages all answer, each full, each declaring the same total. */
  ghost predicate FullPages(provider: Provider, n: nat, perPage: nat, total: int) {
    forall p {:trigger provider(p)} :: 1 <= p <= n ==> provider(p).Some? && provider(p).value.total == total && |provider(p).value.items| == perPage
  }

  /** One more full page. */
  lemma FullMore(provider: Provider, n: nat, perPage: nat, total: int)
    requires FullPages(provider, n, perPage, total)
    requires provider(n + 1).Some? && provider(n + 1).value.total == total && |provider(n + 1).value.items| == perPage
    ensures FullPages(provider, n + 1, perPage, total)
    ensures Gathered(provider, n + 1) == Gathered(provider, n) + provider(n + 1).value.items
    ensures n * perPage + perPage == (n + 1) * perPage
  {
  }

  /** A counted list is complete: it is pages 1 to `n`, all but the last full, and as long as every page said it would be. */
  ghost predicate Complete(provider: Provider, n: nat, perPage: nat, items: seq<Item>) {
    && n >= 1 && FullPages(provider, n - 1, perPage, |items|)
    && provider(n).Some? && provider(n).value.total == |items| && !provider(n).value.next
    && items == Gathered(provider, n) && Distinct(items)
  }

  /** Pages 1 to `page` - 1 were full and fell short of the total they all declared. */
  ghost predicate SoFar(provider: Provider, page: nat, perPage: nat, observed: seq<Item>, declared: int, maximum: nat) {
    && page >= 1 && FullPages(provider, page - 1, perPage, declared)
    && observed == Gathered(provider, page - 1) && |observed| == (page - 1) * perPage && Distinct(observed)
    && if page == 1 then declared < 0 else |observed| < declared <= maximum
  }

  lemma SoFarMore(provider: Provider, page: nat, perPage: nat, observed: seq<Item>, declared: int, maximum: nat, total: int)
    requires SoFar(provider, page, perPage, observed, declared, maximum) && provider(page).Some?
    requires provider(page).value.total == total <= maximum && (declared >= 0 ==> total == declared)
    requires |provider(page).value.items| == perPage && Distinct(observed + provider(page).value.items)
    requires |observed + provider(page).value.items| < total
    ensures SoFar(provider, page + 1, perPage, observed + provider(page).value.items, total, maximum)
  {
    FullMore(provider, page - 1, perPage, total);
  }

  lemma SoFarDone(provider: Provider, page: nat, perPage: nat, observed: seq<Item>, declared: int, maximum: nat, total: int)
    requires SoFar(provider, page, perPage, observed, declared, maximum) && provider(page).Some?
    requires provider(page).value.total == total && (declared >= 0 ==> total == declared) && !provider(page).value.next
    requires Distinct(observed + provider(page).value.items) && |observed + provider(page).value.items| == total
    ensures Complete(provider, page, perPage, observed + provider(page).value.items)
  {
  }

  /** Full pages up to the last allowed one would already hold more than any total may declare. */
  lemma NeverExhausted(provider: Provider, page: nat, perPage: nat, observed: seq<Item>, declared: int, maximum: nat, maxPages: nat)
    requires SoFar(provider, page, perPage, observed, declared, maximum) && maxPages * perPage >= maximum && maxPages > 0
    ensures page != maxPages + 1
  {
  }

  /** One collection's requests to the provider, counted against their budget. */
  class RequestSession {
    const limits: Limits
    var requests: nat

    constructor (limits: Limits)
      ensures this.limits == limits && requests == 0
    {
      this.limits := limits;
      requests := 0;
    }

    /** Sends one request, unless the budget is spent. */
    method Get(provider: Provider, page: nat) returns (r: Result<Page, Failure>)
      modifies this
      ensures old(requests) >= limits.maxCollectionRequests ==> r == Err(RequestLimit) && requests == old(requests)
      ensures old(requests) < limits.maxCollectionRequests ==> r != Err(RequestLimit) && requests <= old(requests) + 1
      ensures r.Ok? ==> provider(page) == Some(r.value)
      ensures r.Err? ==> r.error == RequestLimit || r.error == Unavailable
    {
      if requests >= limits.maxCollectionRequests { return Err(RequestLimit); }
      var counted: bool := *;
      var answered := provider(page);
      if answered.Some? || counted { requests := requests + 1; }
      r := match answered case None => Err(Unavailable) case Some(p) => Ok(p);
    }

    /** Takes one page into a counted list; None asks for the next page. */
    method TakePage(tracker: PageTracker, page: Page, declared: int, maximum: nat, observed: seq<Item>, ghost provider: Provider,
                    ghost sheets: seq<Sheet>)
      returns (r: Result<Option<seq<Item>>, Failure>, total: int)
      requires Tracks(provider, sheets, tracker.Seen(), observed) && provider(|sheets| + 1) == Some(page)
      requires Distinct(observed) && tracker.ids == Ids(observed) && (declared < 0 ==> observed == []) && (declared >= 0 ==> |observed| < declared)
      modifies tracker
      ensures r.Ok? ==> page.total == total <= maximum && (declared >= 0 ==> total == declared)
      ensures r.Ok? ==> Distinct(observed + page.items) && tracker.ids == Ids(observed + page.items)
      ensures r.Ok? ==> Tracks(provider, sheets + [SheetOf(page)], tracker.Seen(), observed + page.items)
      ensures r.Ok? && r.value.Some? ==> r.value.value == observed + page.items && |observed + page.items| == total && !page.next
      ensures r.Ok? && r.value == None ==> |page.items| == limits.itemsPerPage && |observed + page.items| < total
      ensures r.Err? ==> r.error != PagesExhausted && r.error != RequestLimit
    {
      total := declared;
      if page.total < 0 { return Err(Malformed), total; }
      if page.total > maximum { return Err(TotalTooLarge), total; }
      if declared < 0 {
        total := page.total;
      } else if declared != page.total {
        return Err(TotalChanged), total;
      }
      if |page.items| > limits.itemsPerPage { return Err(PageTooLarge), total; }
      var failed := tracker.CheckPage(page.items, page.body);
      if failed.Some? { return Err(failed.value), total; }
      TracksMore(provider, sheets, old(tracker.Seen()), observed, page);
      DistinctJoin(observed, page.items);
      if exists i :: 0 <= i < |page.items| && !page.items[i].sound { return Err(BadItem), total; }
      var items := observed + page.items;
      if |items| == total {
        if page.next { return Err(if |items| == maximum then NextBeyondLimit else NextBeyondTotal), total; }
        return Ok(Some(items)), total;
      }
      if |items| > total { return Err(CountExceeded), total; }
      if |page.items| < limits.itemsPerPage { return Err(ShortPage), total; }
      return Ok(None), total;
    }

    /** A counted list so far, its pages and its tracker. */
    ghost predicate Counting(provider: Provider, page: nat, seen: Sighted, observed: seq<Item>, declared: int, maximum: nat,
                             sheets: seq<Sheet>)
    {
      && SoFar(provider, page, limits.itemsPerPage, observed, declared, maximum) && seen.ids == Ids(observed)
      && |sheets| == page - 1 && Tracks(provider, sheets, seen, observed)
    }

    ghost predicate CountedList(provider: Provider, n: nat, maximum: nat, items: seq<Item>, sheets: seq<Sheet>) {
      && Complete(provider, n, limits.itemsPerPage, items) && |items| <= maximum
      && |sheets| == n && Lists(provider, sheets, items)
    }

    /** Takes one page of the list; None asks for the next page. */
    method NextCounted(tracker: PageTracker, provider: Provider, page: nat, declared: int, maximum: nat, observed: seq<Item>,
                       ghost sheets: seq<Sheet>)
      returns (r: Option<Result<seq<Item>, Failure>>, more: seq<Item>, total: int, ghost grown: seq<Sheet>)
      requires limits.itemsPerPage > 0 && Counting(provider, page, tracker.Seen(), observed, declared, maximum, sheets)
      modifies this, tracker
      ensures requests <= old(requests) + 1 && (old(requests) < limits.maxCollectionRequests ==> r != Some(Err(RequestLimit)))
      ensures r != Some(Err(PagesExhausted))
      ensures r == None ==> Counting(provider, page + 1, tracker.Seen(), more, total, maximum, grown)
      ensures r.Some? && r.value.Ok? ==> CountedList(provider, page, maximum, r.value.value, grown)
    {
      more, total, grown := observed, declared, sheets;
      var response := Get(provider, page);
      if response.Err? { return Some(Err(response.error)), more, total, grown; }
      var taken;
      taken, total := TakePage(tracker, response.value, declared, maximum, observed, provider, sheets);
      if taken.Err? { return Some(Err(taken.error)), more, total, grown; }
      more, grown := observed + response.value.items, sheets + [SheetOf(response.value)];
      if taken.value.Some? {
        SoFarDone(provider, page, limits.itemsPerPage, observed, declared, maximum, total);
        r := Some(Ok(more));
      } else {
        SoFarMore(provider, page, limits.itemsPerPage, observed, declared, maximum, total);
        r := None;
      }
    }

    /** Check suites or check runs: a list that declares its length. `n` is the last page asked for. */
    method Counted(provider: Provider, maximum: nat, maxPages: nat) returns (r: Result<seq<Item>, Failure>, ghost n: nat, ghost sheets: seq<Sheet>)
      requires limits.itemsPerPage > 0 && maxPages * limits.itemsPerPage >= maximum && maxPages > 0
      modifies this
      ensures r.Ok? ==> n <= maxPages && CountedList(provider, n, maximum, r.value, sheets)
      ensures r != Err(PagesExhausted) && requests <= old(requests) + maxPages
      ensures old(requests) + maxPages <= limits.maxCollectionRequests ==> r != Err(RequestLimit)
    {
      var tracker := new PageTracker();
      var observed, declared := [], -1;
      r, n, sheets := Err(PagesExhausted), 0, [];
      var page := 1;
      var done := false;
      while page <= maxPages && !done
        invariant 1 <= page <= maxPages + 1 && fresh(tracker)
        invariant requests <= old(requests) + page - (if done then 0 else 1)
        invariant !done ==> Counting(provider, page, tracker.Seen(), observed, declared, maximum, sheets)
        invariant if done then r != Err(PagesExhausted) && page <= maxPages else r == Err(PagesExhausted)
        invariant r.Ok? ==> n <= maxPages && CountedList(provider, n, maximum, r.value, sheets)
        invariant old(requests) + maxPages <= limits.maxCollectionRequests ==> r != Err(RequestLimit)
        decreases maxPages - page, !done
      {
        var answer;
        answer, observed, declared, sheets := NextCounted(tracker, provider, page, declared, maximum, observed, sheets);
        if answer.Some? {
          r, done, n := answer.value, true, page;
        } else {
          page := page + 1;
          NeverExhausted(provider, page, limits.itemsPerPage, observed, declared, maximum, maxPages);
        }
      }
    }

    /** Takes one page of statuses; the list's length is not declared, only bounded. */
    method TakeStatuses(tracker: PageTracker, page: Page, observed: seq<Item>, ghost provider: Provider,
                    ghost sheets: seq<Sheet>)
      returns (failed: Option<Failure>)
      requires Tracks(provider, sheets, tracker.Seen(), observed) && provider(|sheets| + 1) == Some(page)
      requires Distinct(observed) && tracker.ids == Ids(observed) && |observed| <= limits.maxStatuses
      modifies tracker
      ensures failed == None ==> Distinct(observed + page.items) && tracker.ids == Ids(observed + page.items)
      ensures failed == None ==> Tracks(provider, sheets + [SheetOf(page)], tracker.Seen(), observed + page.items)
      ensures failed == None ==> |page.items| <= limits.itemsPerPage && |observed + page.items| <= limits.maxStatuses
      ensures failed.Some? ==> failed.value != RequestLimit
    {
      if |page.items| > limits.itemsPerPage { return Some(PageTooLarge); }
      failed := tracker.CheckPage(page.items, page.body);
      if failed.Some? { return; }
      TracksMore(provider, sheets, old(tracker.Seen()), observed, page);
      DistinctJoin(observed, page.items);
      var i := 0;
      while i < |page.items|
        invariant 0 <= i <= |page.items| && |observed| + i <= limits.maxStatuses
        modifies {}
      {
        if !page.items[i].sound { return Some(BadItem); }
        i := i + 1;
        if |observed| + i > limits.maxStatuses { return Some(StatusTotalTooLarge); }
      }
    }

    /** Pages 1 to `page` - 1 were taken, and the list goes on. */
    ghost predicate StatusesSoFar(provider: Provider, page: nat, seen: Sighted, observed: seq<Item>, sheets: seq<Sheet>) {
      && 1 <= page <= limits.maxStatusPages && |sheets| == page - 1
      && observed == Gathered(provider, page - 1) && Distinct(observed) && seen.ids == Ids(observed) && |observed| <= limits.maxStatuses
      && Tracks(provider, sheets, seen, observed)
    }

    /** The whole list: pages 1 to `n`, up to a short one, or up to the last allowed one, which is empty. */
    ghost predicate StatusList(provider: Provider, n: nat, items: seq<Item>, sheets: seq<Sheet>) {
      && 1 <= n <= limits.maxStatusPages && provider(n).Some? && !provider(n).value.next
      && items == Gathered(provider, n) && Distinct(items) && |items| <= limits.maxStatuses
      && |sheets| == n && Lists(provider, sheets, items)
      && if n == limits.maxStatusPages then provider(n).value.items == [] else |provider(n).value.items| < limits.itemsPerPage
    }

    /** Takes one page of the list; None asks for the next page. */
    method NextStatuses(tracker: PageTracker, provider: Provider, page: nat, observed: seq<Item>, ghost sheets: seq<Sheet>)
      returns (r: Option<Result<seq<Item>, Failure>>, more: seq<Item>, ghost grown: seq<Sheet>)
      requires StatusesSoFar(provider, page, tracker.Seen(), observed, sheets)
      modifies this, tracker
      ensures requests <= old(requests) + 1 && (old(requests) < limits.maxCollectionRequests ==> r != Some(Err(RequestLimit)))
      ensures r == None ==> StatusesSoFar(provider, page + 1, tracker.Seen(), more, grown)
      ensures r.Some? && r.value.Ok? ==> StatusList(provider, page, r.value.value, grown)
    {
      more, grown := observed, sheets;
      var response := Get(provider, page);
      if response.Err? { return Some(Err(response.error)), more, grown; }
      var failed := TakeStatuses(tracker, response.value, observed, provider, sheets);
      if failed.Some? { return Some(Err(failed.value)), more, grown; }
      more, grown := observed + response.value.items, sheets + [SheetOf(response.value)];
      if page == limits.maxStatusPages {
        r := Some(if |response.value.items| != 0 || response.value.next then Err(SentinelNotEmpty) else Ok(more));
      } else if |response.value.items| < limits.itemsPerPage && !response.value.next {
        r := Some(Ok(more));
      } else {
        r := None;
      }
    }

    /** Commit statuses, read until a page is short, or until the last allowed page proves to be empty. No list falls through. */
    method Statuses(provider: Provider) returns (r: Option<Result<seq<Item>, Failure>>, ghost n: nat, ghost sheets: seq<Sheet>)
      requires limits.maxStatusPages > 0
      modifies this
      ensures r.Some? && requests <= old(requests) + limits.maxStatusPages
      ensures r.Some? && r.value.Ok? ==> StatusList(provider, n, r.value.value, sheets)
      ensures old(requests) + limits.maxStatusPages <= limits.maxCollectionRequests ==> r != Some(Err(RequestLimit))
    {
      var tracker := new PageTracker();
      var observed := [];
      r, n, sheets := None, 0, [];
      var page := 1;
      while page <= limits.maxStatusPages && r == None
        invariant 1 <= page <= limits.maxStatusPages + 1 && fresh(tracker)
        invariant requests <= old(requests) + page - (if r.Some? then 0 else 1)
        invariant r == None ==> StatusesSoFar(provider, page, tracker.Seen(), observed, sheets)
        invariant r.Some? ==> page <= limits.maxStatusPages
        invariant r.Some? && r.value.Ok? ==> StatusList(provider, n, r.value.value, sheets)
        invariant old(requests) + limits.maxStatusPages <= limits.maxCollectionRequests ==> r != Some(Err(RequestLimit))
        decreases limits.maxStatusPages - page, r == None
      {
        r, observed, sheets := NextStatuses(tracker, provider, page, observed, sheets);
        n := page;
        if r == None { page := page + 1; }
      }
    }

    /** One sweep: suites, runs, statuses. */
    method Sweep(suites: Provider, runs: Provider, statuses: Provider) returns (failed: Option<Failure>)
      requires Consistent(limits)
      modifies this
      ensures requests <= old(requests) + limits.maxSuitePages + limits.maxRunPages + limits.maxStatusPages
      ensures old(requests) + limits.maxSuitePages + limits.maxRunPages + limits.maxStatusPages <= limits.maxCollectionRequests
              ==> failed != Some(RequestLimit)
    {
      var list, n, pages := Counted(suites, limits.maxSuites, limits.maxSuitePages);
      if list.Err? { return Some(list.error); }
      list, n, pages := Counted(runs, limits.maxRuns, limits.maxRunPages);
      if list.Err? { return Some(list.error); }
      var states, m, seen := Statuses(statuses);
      failed := if states.value.Err? then Some(states.value.error) else None;
    }

    /** A whole observation: the principal, then the head, a sweep, the head, a second sweep, the head. */
    method Observe(single: seq<Provider>, swept: seq<Provider>) returns (failed: Option<Failure>)
      requires Consistent(limits) && requests == 0 && |single| == 4 && |swept| == 6
      requires 4 + 2 * (limits.maxSuitePages + limits.maxRunPages + limits.maxStatusPages) <= limits.maxCollectionRequests
      modifies this
      ensures failed != Some(RequestLimit)
      ensures requests <= 4 + 2 * (limits.maxSuitePages + limits.maxRunPages + limits.maxStatusPages)
    {
      var answer := Get(single[0], 0);
      if answer.Err? { return Some(answer.error); }
      answer := Get(single[1], 0);
      if answer.Err? { return Some(answer.error); }
      failed := Sweep(swept[0], swept[1], swept[2]);
      if failed.Some? { return; }
      answer := Get(single[2], 0);
      if answer.Err? { return Some(answer.error); }
      failed := Sweep(swept[3], swept[4], swept[5]);
      if failed.Some? { return; }
      answer := Get(single[3], 0);
      failed := if answer.Err? then Some(answer.error) else None;
    }
  }

  /** The production limits are consistent, and an observation within its page bounds needs exactly the budget. */
  lemma ProductionBudget()
    ensures Consistent(PRODUCTION)
    ensures 4 + 2 * (PRODUCTION.maxSuitePages + PRODUCTION.maxRunPages + PRODUCTION.maxStatusPages) == PRODUCTION.maxCollectionRequests
  {
  }
}
