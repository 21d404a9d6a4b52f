// The dashboard overview: the four status counters computed over the
// caller's shipments, the five most recent shipments, and the status labels.
module Dashboard {
  import opened Common
  import opened Records
  import opened UserShipments

  /** The number of shipments in `list` whose status is `status`. */
  function CountStatus(list: seq<Shipment>, status: string): (n: nat)
    ensures n <= |list|
  {
    if list == [] then 0
    else (if list[0].status == status then 1 else 0) + CountStatus(list[1..], status)
  }

  lemma {:induction false} CountStatusSnoc(list: seq<Shipment>, s: Shipment, status: string)
    ensures CountStatus(list + [s], status) == CountStatus(list, status) + (if s.status == status then 1 else 0)
  {
    if list != [] {
      assert (list + [s])[1..] == list[1..] + [s];
      CountStatusSnoc(list[1..], s, status);
    }
  }

  /** The counter of a status is the size of the list filtered to it. */
  lemma {:induction false} CountStatusIsFilterSize(list: seq<Shipment>, status: string)
    ensures CountStatus(list, status) == |Filter(list, (s: Shipment) => s.status == status)|
  {
    if list != [] {
      CountStatusIsFilterSize(list[1..], status);
    }
  }

  datatype Stats = Stats(total: nat, pending: nat, inTransit: nat, delivered: nat)

  /** The counters of a list, as the overview states them. */
  function StatsOf(list: seq<Shipment>): (st: Stats)
    ensures st.total == |list|
    ensures st.pending <= st.total && st.inTransit <= st.total && st.delivered <= st.total
  {
    Stats(|list|, CountStatus(list, Pending), CountStatus(list, InTransit), CountStatus(list, Delivered))
  }

  /** Every shipment is counted at most once among the three statuses, and
      exactly once when its status is one of them. */
  lemma {:induction false} CountersBound(list: seq<Shipment>)
    ensures var st := StatsOf(list);
            && st.pending + st.inTransit + st.delivered <= st.total
            && (st.pending + st.inTransit + st.delivered == st.total
                <==> forall i :: 0 <= i < |list| ==> list[i].status in {Pending, InTransit, Delivered})
  {
    if list != [] {
      CountersBound(list[1..]);
      assert forall i :: 1 <= i < |list| ==> list[i] == list[1..][i - 1];
    }
  }

  /** The counting loop: one pass over the documents, one increment of the
      total per document and one of at most one status counter. */
  method CountStats(docs: seq<Shipment>) returns (st: Stats)
    ensures st == StatsOf(docs)
  {
    var total, pending, inTransit, delivered := 0, 0, 0, 0;
    var i := 0;
    while i < |docs|
      invariant 0 <= i <= |docs|
      invariant Stats(total, pending, inTransit, delivered) == StatsOf(docs[..i])
    {
      var s := docs[i];
      assert docs[..i + 1] == docs[..i] + [s];
      CountStatusSnoc(docs[..i], s, Pending);
      CountStatusSnoc(docs[..i], s, InTransit);
      CountStatusSnoc(docs[..i], s, Delivered);
      total := total + 1;
      if s.status == Pending { pending := pending + 1; }
      if s.status == InTransit { inTransit := inTransit + 1; }
      if s.status == Delivered { delivered := delivered + 1; }
      i := i + 1;
    }
    assert docs[..i] == docs;
    st := Stats(total, pending, inTransit, delivered);
  }

  const RecentLimit := 5

  /** The recent list: the caller's listing newest first, cut at five. */
  function Recent(docs: seq<Shipment>, uid: string): (r: seq<Shipment>)
    ensures var all := OwnerListing(docs, uid);
            && |r| == (if |all| < RecentLimit then |all| else RecentLimit)
            && r == all[..|r|]
    ensures NewestFirst(r)
    ensures forall s :: s in r ==> s in docs && s.userId == uid
  {
    var all := OwnerListing(docs, uid);
    var r := if |all| <= RecentLimit then all else all[..RecentLimit];
    assert forall s :: s in r ==> s in all;
    r
  }

  /** No shipment of the caller left out of the recent list is newer than
      one shown in it. */
  lemma RecentAreNewest(docs: seq<Shipment>, uid: string)
    ensures forall i, j :: 0 <= i < |Recent(docs, uid)| <= j < |OwnerListing(docs, uid)| ==>
              Recent(docs, uid)[i].createdAt >= OwnerListing(docs, uid)[j].createdAt
  {
  }

  /** The badge colour classes of the overview; gray for any other status. */
  function StatusColor(status: string): (classes: string)
    ensures status == Pending ==> classes == "bg-yellow-100 text-yellow-800"
    ensures status == InTransit ==> classes == "bg-blue-100 text-blue-800"
    ensures status == Delivered ==> classes == "bg-green-100 text-green-800"
    ensures classes == "bg-gray-100 text-gray-800" <==> status !in {Pending, InTransit, Delivered}
  {
    if status == Pending then "bg-yellow-100 text-yellow-800"
    else if status == InTransit then "bg-blue-100 text-blue-800"
    else if status == Delivered then "bg-green-100 text-green-800"
    else "bg-gray-100 text-gray-800"
  }

  /** The colour and the label agree on which statuses are known. */
  lemma ColorMatchesText(status: string)
    ensures StatusColor(status) == "bg-gray-100 text-gray-800" <==> StatusText(status) == "Unknown"
  {
  }

  class DashboardPage {
    var stats: Stats
    var recent: seq<Shipment>
    var loading: bool

    constructor ()
      ensures stats == Stats(0, 0, 0, 0) && recent == [] && loading
    {
      stats, recent, loading := Stats(0, 0, 0, 0), [], true;
    }

    /** The page load from the collection `docs`; without a signed-in user
        nothing happens and the page keeps loading. The counts come from the
        owner query and the recent list from a second, ordered and limited
        query.
        `statsReadFails` and `recentReadFails` say whether either read
        rejects; a rejection keeps what the page already showed. */
    method FetchDashboardData(user: Option<string>, docs: seq<Shipment>,
                              statsReadFails: bool, recentReadFails: bool)
      modifies this
      ensures user.None? ==> stats == old(stats) && recent == old(recent) && loading == old(loading)
      ensures user.Some? ==> !loading
      ensures user.Some? && statsReadFails ==> stats == old(stats) && recent == old(recent)
      ensures user.Some? && !statsReadFails ==>
                && stats == StatsOf(Filter(docs, (s: Shipment) => s.userId == user.value))
                && recent == (if recentReadFails then old(recent) else Recent(docs, user.value))
    {
      if user.None? {
        return;
      }
      var uid := user.value;
      if !statsReadFails {
        stats := CountStats(Filter(docs, (s: Shipment) => s.userId == uid));
        if !recentReadFails {
          recent := Recent(docs, uid);
        }
      }
      loading := false;
    }
  }
}
