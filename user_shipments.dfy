// The caller's own shipment list ("My Shipments"): the owner-scoped listing
// newest first, the search and status-tab filter, and the status badge.
module UserShipments {
  import opened Common
  import opened Text
  import opened Records
  import opened AdminShipments
  import opened TrackingCodes

  // ---- The owner-scoped listing -------------------------------------------

  lemma HeadIsNewest(list: seq<Shipment>)
    requires NewestFirst(list) && list != []
    ensures forall y :: y in list[1..] ==> list[0].createdAt >= y.createdAt
  {
    forall y | y in list[1..] ensures list[0].createdAt >= y.createdAt {
      var j :| 0 <= j < |list[1..]| && list[1..][j] == y;
      assert list[j + 1] == y;
    }
  }

  lemma PrependNewest(x: Shipment, rest: seq<Shipment>)
    requires NewestFirst(rest)
    requires forall y :: y in rest ==> x.createdAt >= y.createdAt
    ensures NewestFirst([x] + rest)
  {
    forall i, j | 0 <= i < j < |[x] + rest|
      ensures ([x] + rest)[i].createdAt >= ([x] + rest)[j].createdAt
    {
      assert ([x] + rest)[j] == rest[j - 1];
      if i > 0 {
        assert ([x] + rest)[i] == rest[i - 1];
      }
    }
  }

  /** Puts `s` into a newest-first list after every entry at least as new. */
  function InsertByDate(list: seq<Shipment>, s: Shipment): (r: seq<Shipment>)
    requires NewestFirst(list)
    ensures |r| == |list| + 1
    ensures forall x :: x in r <==> x in list || x == s
    ensures multiset(r) == multiset(list) + multiset{s}
    ensures NewestFirst(r)
  {
    if list == [] then [s]
    else if list[0].createdAt >= s.createdAt then
      assert NewestFirst(list[1..]);
      var rest := InsertByDate(list[1..], s);
      assert list == [list[0]] + list[1..];
      HeadIsNewest(list);
      PrependNewest(list[0], rest);
      [list[0]] + rest
    else
      HeadIsNewest(list);
      PrependNewest(s, list);
      [s] + list
  }

  function SortNewestFirst(list: seq<Shipment>): (r: seq<Shipment>)
    ensures NewestFirst(r)
    ensures multiset(r) == multiset(list)
  {
    if list == [] then []
    else
      assert list == [list[0]] + list[1..];
      InsertByDate(SortNewestFirst(list[1..]), list[0])
  }

  /** What the query `where userId == uid orderBy createdAt desc` returns
      from the collection `docs`: exactly the caller's documents, each as
      often as it is stored, newest first. Among documents created at the
      same instant this model fixes one order; the store's own tie order is
      not modelled. */
  function OwnerListing(docs: seq<Shipment>, uid: string): (r: seq<Shipment>)
    ensures NewestFirst(r)
    ensures multiset(r) == multiset(Filter(docs, (s: Shipment) => s.userId == uid))
    ensures forall s :: s in r <==> s in docs && s.userId == uid
  {
    var mine := Filter(docs, (s: Shipment) => s.userId == uid);
    var r := SortNewestFirst(mine);
    assert forall s :: s in r <==> s in multiset(mine);
    r
  }

  // ---- The search, as written and as intended ------------------------------

  /** The page's search predicate as written: tracking id, package name,
      destination, recipient name, each lower-cased without a guard. A record
      without package details cannot be searched past its tracking id: the
      lower-casing of the missing name throws, which is None here. */
  function SearchMatchAsWritten(s: Shipment, query: string): (r: Option<bool>)
    ensures MatchesQuery(s.trackingId, query) ==> r == Some(true)
    ensures !MatchesQuery(s.trackingId, query) && s.details.None? ==> r.None?
    ensures r.Some? ==> r.value == AdminMatches(s, query)
  {
    if MatchesQuery(s.trackingId, query) then Some(true)
    else if s.details.None? then None
    else Some(AdminMatches(s, query))
  }

  /** The search filter as written: the first record whose test throws
      aborts the whole filter. */
  function SearchAsWritten(list: seq<Shipment>, query: string): (r: Option<seq<Shipment>>)
    ensures r.None? <==> exists i :: 0 <= i < |list| && SearchMatchAsWritten(list[i], query).None?
  {
    if list == [] then Some([])
    else
      match SearchMatchAsWritten(list[0], query)
      case None => None
      case Some(keep) =>
        var rest := SearchAsWritten(list[1..], query);
        assert forall i :: 1 <= i < |list| ==> list[i] == list[1..][i - 1];
        if rest.None? then
          var i :| 0 <= i < |list[1..]| && SearchMatchAsWritten(list[1..][i], query).None?;
          assert SearchMatchAsWritten(list[i + 1], query).None?;
          None
        else if keep then Some([list[0]] + rest.value)
        else rest
  }

  /** The intended search: a missing field matches nothing, as on the
      administrators' page. */
  function Search(list: seq<Shipment>, query: string): (r: seq<Shipment>)
    ensures forall s :: s in r <==> s in list && AdminMatches(s, query)
    ensures IsSubsequence(r, list)
  {
    FilterIsSubsequence(list, (s: Shipment) => AdminMatches(s, query));
    Filter(list, (s: Shipment) => AdminMatches(s, query))
  }

  /** Wherever the written filter does not throw, it computes the intended
      one; it throws on no list of records that all carry details. */
  lemma {:induction false} SearchAsWrittenAgrees(list: seq<Shipment>, query: string)
    ensures SearchAsWritten(list, query).Some? ==> SearchAsWritten(list, query).value == Search(list, query)
    ensures (forall i :: 0 <= i < |list| ==> list[i].details.Some?) ==> SearchAsWritten(list, query).Some?
  {
    if list != [] {
      SearchAsWrittenAgrees(list[1..], query);
    }
  }

  /** A tracking code holds, lower-cased, only 't', 'r', 'k' and digits: a
      query holding any other letter matches no code. */
  lemma CodeMissesLetter(code: string, query: string, c: char)
    requires WellFormedCode(code)
    requires c in Lower(query) && 'a' <= c <= 'z' && c != 't' && c != 'r' && c != 'k'
    ensures !MatchesQuery(code, query)
  {
    var low := Lower(code);
    forall i | 0 <= i < |low| ensures low[i] != c {
      if i < 3 {
        assert code[i] == code[..3][i];
      }
    }
    MissingCharExcludes(low, Lower(query), c);
  }

  /** A record stored by the payment button carries a tracking code and no
      package details. A query holding a letter other than t, r and k (such
      as "box") makes the written search throw on it, where the intended
      search simply leaves it out. */
  lemma SearchThrowsOnBareRecord(bare: Shipment, query: string, c: char)
    requires bare.details.None? && WellFormedCode(bare.trackingId)
    requires c in Lower(query) && 'a' <= c <= 'z' && c != 't' && c != 'r' && c != 'k'
    ensures SearchAsWritten([bare], query).None?
    ensures Search([bare], query) == []
  {
    CodeMissesLetter(bare.trackingId, query, c);
    assert SearchMatchAsWritten(bare, query).None?;
  }

  // ---- The status tab ------------------------------------------------------

  /** The tab test: "pending", "in_transit" and "delivered" keep exact
      matches; "all" and any other tab keep everything. */
  predicate TabKeeps(tab: string, s: Shipment) {
    tab in {Pending, InTransit, Delivered} ==> s.status == tab
  }

  /** The filter effect with the intended search. */
  function FilterMine(list: seq<Shipment>, query: string, tab: string): (r: seq<Shipment>)
    ensures forall s :: s in r <==> s in list && (query == "" || AdminMatches(s, query)) && TabKeeps(tab, s)
    ensures query == "" && tab !in {Pending, InTransit, Delivered} ==> r == list
  {
    var bySearch := if query != "" then Search(list, query) else list;
    var keeps := (s: Shipment) => TabKeeps(tab, s);
    if tab == "all" then bySearch
    else if tab !in {Pending, InTransit, Delivered} then
      FilterAll(bySearch, keeps);
      Filter(bySearch, keeps)
    else Filter(bySearch, keeps)
  }

  lemma FilterMineKeepsOrder(list: seq<Shipment>, query: string, tab: string)
    ensures IsSubsequence(FilterMine(list, query, tab), list)
  {
    var bySearch := if query != "" then Search(list, query) else list;
    if query == "" {
      SubsequenceRefl(list);
    }
    if tab != "all" {
      FilterIsSubsequence(bySearch, (s: Shipment) => TabKeeps(tab, s));
      SubsequenceTrans(Filter(bySearch, (s: Shipment) => TabKeeps(tab, s)), bySearch, list);
    }
  }

  /** The filter keeps the listing's newest-first order. */
  lemma FilterMineNewestFirst(list: seq<Shipment>, query: string, tab: string)
    requires NewestFirst(list)
    ensures NewestFirst(FilterMine(list, query, tab))
  {
    FilterMineKeepsOrder(list, query, tab);
    SubsequenceNewestFirst(FilterMine(list, query, tab), list);
  }

  lemma {:induction false} SubsequenceNewestFirst(r: seq<Shipment>, list: seq<Shipment>)
    requires IsSubsequence(r, list) && NewestFirst(list)
    ensures NewestFirst(r)
    decreases |list|
  {
    if r != [] && list != [] {
      if r[0] == list[0] && IsSubsequence(r[1..], list[1..]) {
        SubsequenceNewestFirst(r[1..], list[1..]);
        SubsequenceMembers(r[1..], list[1..]);
        forall j | 0 < j < |r| ensures r[0].createdAt >= r[j].createdAt {
          assert r[1..][j - 1] in list[1..];
        }
      } else {
        SubsequenceNewestFirst(r, list[1..]);
      }
    }
  }

  lemma {:induction false} SubsequenceMembers(r: seq<Shipment>, list: seq<Shipment>)
    requires IsSubsequence(r, list)
    ensures forall x :: x in r ==> x in list
    decreases |list|
  {
    if r != [] && list != [] {
      if r[0] == list[0] && IsSubsequence(r[1..], list[1..]) {
        SubsequenceMembers(r[1..], list[1..]);
        assert forall x :: x in r ==> x == r[0] || x in r[1..];
      } else {
        SubsequenceMembers(r, list[1..]);
      }
    }
  }

  class MyShipmentsPage {
    var shipments: seq<Shipment>
    var filtered: seq<Shipment>
    var searchQuery: string
    var activeTab: string
    var loading: bool

    ghost predicate Valid()
      reads this
    {
      filtered == FilterMine(shipments, searchQuery, activeTab)
    }

    constructor ()
      ensures Valid() && shipments == [] && searchQuery == "" && activeTab == "all" && loading
    {
      shipments, filtered, searchQuery, activeTab, loading := [], [], "", "all", true;
    }

    /** The mount-time read of the caller's shipments from the collection
        `docs`; without a signed-in user nothing happens and the page keeps
        loading. `readFails` says whether the query rejects, which leaves the
        lists as they were. */
    method FetchShipments(user: Option<string>, docs: seq<Shipment>, readFails: bool)
      requires Valid()
      modifies this`shipments, this`filtered, this`loading
      ensures Valid()
      ensures user.None? ==> shipments == old(shipments) && loading == old(loading)
      ensures user.Some? ==> !loading
      ensures user.Some? && readFails ==> shipments == old(shipments) && filtered == old(filtered)
      ensures user.Some? && !readFails ==> shipments == OwnerListing(docs, user.value) && NewestFirst(filtered)
    {
      if user.None? {
        return;
      }
      if !readFails {
        shipments := OwnerListing(docs, user.value);
        filtered := FilterMine(shipments, searchQuery, activeTab);
        FilterMineNewestFirst(shipments, searchQuery, activeTab);
      }
      loading := false;
    }

    method SetSearchQuery(q: string)
      requires Valid()
      modifies this`searchQuery, this`filtered
      ensures Valid() && searchQuery == q
      ensures IsSubsequence(filtered, shipments)
    {
      searchQuery := q;
      filtered := FilterMine(shipments, searchQuery, activeTab);
      FilterMineKeepsOrder(shipments, searchQuery, activeTab);
    }

    method SetActiveTab(tab: string)
      requires Valid()
      modifies this`activeTab, this`filtered
      ensures Valid() && activeTab == tab
      ensures IsSubsequence(filtered, shipments)
    {
      activeTab := tab;
      filtered := FilterMine(shipments, searchQuery, activeTab);
      FilterMineKeepsOrder(shipments, searchQuery, activeTab);
    }
  }
}
