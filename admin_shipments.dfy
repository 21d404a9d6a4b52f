// The administrators' shipment page: the role-gated load, the search and
// status-tab filter, the update dialog and the update itself, which writes
// the stored document and rewrites the page's list.
module AdminShipments {
  import opened Common
  import opened Text
  import opened Records
  import opened Lifecycle
  import opened Access

  /** The query matches one of tracking id, package name, destination or
      recipient name; a field the record lacks matches nothing. */
  predicate AdminMatches(s: Shipment, query: string) {
    || MatchesQuery(s.trackingId, query)
    || (s.details.Some? && MatchesQuery(s.details.value.packageName, query))
    || (s.details.Some? && MatchesQuery(s.details.value.destination, query))
    || (s.details.Some? && MatchesQuery(s.details.value.recipientName, query))
  }

  /** The test a listed shipment passes to be shown: an empty query keeps
      everything, then the tab keeps exact status matches unless it is
      "all". */
  predicate Shown(s: Shipment, query: string, tab: string) {
    (query == "" || AdminMatches(s, query)) && (tab == "all" || s.status == tab)
  }

  /** The list effect: the listed shipments that are shown, in list order. */
  function FilterShipments(list: seq<Shipment>, query: string, tab: string): (r: seq<Shipment>)
    ensures forall x :: x in r <==> x in list && Shown(x, query, tab)
    ensures |r| <= |list|
    ensures query == "" && tab == "all" ==> r == list
  {
    if list == [] then []
    else
      var rest := FilterShipments(list[1..], query, tab);
      assert list == [list[0]] + list[1..];
      if Shown(list[0], query, tab) then [list[0]] + rest else rest
  }

  lemma {:induction false} FilterShipmentsKeepsOrder(list: seq<Shipment>, query: string, tab: string)
    ensures IsSubsequence(FilterShipments(list, query, tab), list)
  {
    if list != [] {
      FilterShipmentsKeepsOrder(list[1..], query, tab);
    }
  }

  /** Every listed shipment is the stored document with its id. */
  predicate SyncedWith(list: seq<Shipment>, store: map<string, Shipment>) {
    forall i :: 0 <= i < |list| ==> list[i].id in store && store[list[i].id] == list[i]
  }

  /** `list` is a full read of `store`: every entry is stored as listed, every
      stored shipment is listed, and no document is listed twice. */
  predicate ShipmentsCollection(list: seq<Shipment>, store: map<string, Shipment>) {
    && SyncedWith(list, store)
    && (forall id :: id in store ==> exists i :: 0 <= i < |list| && list[i].id == id)
    && (forall i, j :: 0 <= i < j < |list| ==> list[i].id != list[j].id)
  }

  /** An update made from a current selection leaves the store and the page's
      list in agreement: the store's patch and the list's rewrite coincide. */
  lemma {:induction false} UpdateKeepsSynced(list: seq<Shipment>, store: map<string, Shipment>,
                                             sel: Shipment, status: string, driver: string, now: nat)
    requires SyncedWith(list, store) && sel in list
    ensures sel.id in store
    ensures SyncedWith(RewriteEntry(list, sel.id, status, driver, now),
                       store[sel.id := PatchFrom(store[sel.id], sel, status, driver, now)])
  {
    var st := store[sel.id := PatchFrom(store[sel.id], sel, status, driver, now)];
    var l := RewriteEntry(list, sel.id, status, driver, now);
    assert store[sel.id] == sel;
    PatchAgreesWithList(sel, status, driver, now);
    forall i | 0 <= i < |l|
      ensures l[i].id in st && st[l[i].id] == l[i]
    {
      if list[i].id == sel.id {
        assert list[i] == sel;
      }
    }
  }

  datatype UpdateResult = NothingSelected | Updated | StoreError

  class AdminShipmentsPage {
    /** The `shipments` collection, by document id. */
    var store: map<string, Shipment>
    var shipments: seq<Shipment>
    var filtered: seq<Shipment>
    var drivers: seq<Driver>
    var searchQuery: string
    var activeTab: string
    var selected: Option<Shipment>
    var selectedDriver: string
    var selectedStatus: string
    var dialogOpen: bool
    var isUpdating: bool
    var loading: bool

    ghost predicate Synced()
      reads this
    {
      SyncedWith(shipments, store)
    }

    ghost predicate SelectionCurrent()
      reads this
    {
      selected.Some? ==> selected.value in shipments
    }

    ghost predicate Valid()
      reads this
    {
      && Synced()
      && filtered == FilterShipments(shipments, searchQuery, activeTab)
      && (dialogOpen ==> selected.Some? && SelectionCurrent())
      && !isUpdating
    }

    constructor (store: map<string, Shipment>)
      ensures Valid()
      ensures this.store == store && shipments == [] && filtered == [] && drivers == []
      ensures searchQuery == "" && activeTab == "all" && selected == None
      ensures !dialogOpen && !isUpdating && loading
    {
      this.store := store;
      shipments, filtered, drivers := [], [], [];
      searchQuery, activeTab := "", "all";
      selected, selectedDriver, selectedStatus := None, "", "";
      dialogOpen, isUpdating, loading := false, false, true;
    }

    /** The page load, run once on mount while the dialog is closed.
        `snapshot` is what the store's query `orderBy createdAt desc` returns
        (every stored shipment once, newest first) and `driverSnapshot` the
        drivers collection; `profileReadFails`, `shipmentsReadFails` and
        `driversReadFails` say whether the read of the caller's profile or
        either collection rejects, which only shows a toast. */
    method FetchData(user: Option<string>, users: map<string, UserDoc>, profileReadFails: bool,
                     snapshot: seq<Shipment>, driverSnapshot: seq<Driver>,
                     shipmentsReadFails: bool, driversReadFails: bool) returns (g: Gate)
      requires Valid() && !dialogOpen
      requires ShipmentsCollection(snapshot, store) && NewestFirst(snapshot)
      modifies this`shipments, this`filtered, this`drivers, this`loading
      ensures g == PageGate(user, users, profileReadFails)
      ensures Valid() && !loading
      ensures g == RedirectToLogin ==> shipments == old(shipments) && drivers == old(drivers)
      ensures g in {AccessDenied, ProfileUnreadable} ==> shipments == [] && filtered == [] && drivers == []
      ensures g == Granted && shipmentsReadFails ==> shipments == [] && filtered == [] && drivers == []
      ensures g == Granted && !shipmentsReadFails ==>
        && shipments == snapshot
        && ShipmentsCollection(shipments, store) && NewestFirst(shipments)
        && filtered == FilterShipments(snapshot, searchQuery, activeTab)
        && drivers == (if driversReadFails then [] else driverSnapshot)
    {
      g := PageGate(user, users, profileReadFails);
      if g == RedirectToLogin {
        loading := false;
        return;
      }
      shipments, filtered, drivers := [], [], [];
      if g == Granted && !shipmentsReadFails {
        shipments := snapshot;
        filtered := FilterShipments(shipments, searchQuery, activeTab);
        if !driversReadFails {
          drivers := driverSnapshot;
        }
      }
      loading := false;
    }

    method SetSearchQuery(q: string)
      requires Valid()
      modifies this`searchQuery, this`filtered
      ensures Valid() && searchQuery == q
      ensures filtered == FilterShipments(shipments, q, activeTab)
    {
      searchQuery := q;
      filtered := FilterShipments(shipments, searchQuery, activeTab);
    }

    method SetActiveTab(tab: string)
      requires Valid()
      modifies this`activeTab, this`filtered
      ensures Valid() && activeTab == tab
      ensures filtered == FilterShipments(shipments, searchQuery, tab)
    {
      activeTab := tab;
      filtered := FilterShipments(shipments, searchQuery, activeTab);
    }

    /** Opening the dialog on a listed shipment preselects its driver and its
        status, with "" and "pending" for missing values. */
    method HandleShipmentAction(s: Shipment)
      requires Valid() && s in filtered
      modifies this`selected, this`selectedDriver, this`selectedStatus, this`dialogOpen
      ensures Valid() && SelectionCurrent()
      ensures selected == Some(s) && dialogOpen
      ensures selectedDriver == DriverSelection(s) && selectedStatus == StatusSelection(s)
    {
      selected := Some(s);
      selectedDriver := DriverSelection(s);
      selectedStatus := StatusSelection(s);
      dialogOpen := true;
    }

    method SelectStatus(status: string)
      modifies this`selectedStatus
      ensures selectedStatus == status
    {
      selectedStatus := status;
    }

    method SelectDriver(driver: string)
      modifies this`selectedDriver
      ensures selectedDriver == driver
    {
      selectedDriver := driver;
    }

    /** The "Update" button. The store write fails when the document no
        longer exists; then nothing else changes and the dialog stays open. */
    method UpdateShipment(now: nat) returns (result: UpdateResult)
      requires Valid()
      modifies this`store, this`shipments, this`filtered, this`dialogOpen
      ensures result == NothingSelected <==> old(selected).None?
      ensures result == StoreError <==> old(selected).Some? && old(selected).value.id !in old(store)
      ensures result != Updated ==> store == old(store) && shipments == old(shipments) && dialogOpen == old(dialogOpen)
      ensures result == Updated ==>
        var id := old(selected).value.id;
        && store == old(store)[id := PatchFrom(old(store)[id], old(selected).value, old(selectedStatus), old(selectedDriver), now)]
        && shipments == RewriteEntry(old(shipments), id, old(selectedStatus), old(selectedDriver), now)
        && !dialogOpen
      ensures filtered == FilterShipments(shipments, searchQuery, activeTab)
      ensures old(SelectionCurrent()) ==> Valid()
    {
      if selected.None? {
        result := NothingSelected;
      } else if selected.value.id !in store {
        result := StoreError;
      } else {
        var sel := selected.value;
        if sel in shipments {
          UpdateKeepsSynced(shipments, store, sel, selectedStatus, selectedDriver, now);
        }
        var newList := RewriteEntry(shipments, sel.id, selectedStatus, selectedDriver, now);
        store := store[sel.id := PatchFrom(store[sel.id], sel, selectedStatus, selectedDriver, now)];
        shipments, filtered, dialogOpen := newList, FilterShipments(newList, searchQuery, activeTab), false;
        result := Updated;
      }
    }
  }
}
