// The administrators' driver page: the role-gated load, the search filter,
// the edit form and its defaults, and the add, update and delete handlers
// that write the drivers collection and replace the page's list.
module AdminDrivers {
  import opened Common
  import opened Text
  import opened Records
  import opened Access

  /** The query matches the name, email, phone or licence number. */
  predicate DriverMatches(d: Driver, query: string) {
    || MatchesQuery(d.info.name, query)
    || MatchesQuery(d.info.email, query)
    || MatchesQuery(d.info.phone, query)
    || MatchesQuery(d.info.licenseNumber, query)
  }

  /** The search effect: an empty query shows the whole list. */
  function FilterDrivers(list: seq<Driver>, query: string): (r: seq<Driver>)
    ensures query == "" ==> r == list
    ensures forall d :: d in r <==> d in list && (query == "" || DriverMatches(d, query))
    ensures |r| <= |list|
  {
    if query == "" then list else Filter(list, (d: Driver) => DriverMatches(d, query))
  }

  lemma FilterDriversKeepsOrder(list: seq<Driver>, query: string)
    ensures IsSubsequence(FilterDrivers(list, query), list)
  {
    if query == "" {
      SubsequenceRefl(list);
    } else {
      FilterIsSubsequence(list, (d: Driver) => DriverMatches(d, query));
    }
  }

  /** The form after `resetForm`, and as the page opens. */
  const BlankForm := DriverInfo("", "", "", "", "", "car", "available")

  /** The edit dialog's form: the driver's fields, with "" for the text
      fields, "car" for the vehicle and "available" for the status when the
      driver's value is missing or empty. */
  function EditForm(info: DriverInfo): (f: DriverInfo)
    ensures f.name == info.name && f.email == info.email && f.phone == info.phone
    ensures f.address == info.address && f.licenseNumber == info.licenseNumber
    ensures f.vehicleType == (if info.vehicleType == "" then "car" else info.vehicleType)
    ensures f.status == (if info.status == "" then "available" else info.status)
    ensures f.vehicleType != "" && f.status != ""
  {
    DriverInfo(OrElse(info.name, ""), OrElse(info.email, ""), OrElse(info.phone, ""),
               OrElse(info.address, ""), OrElse(info.licenseNumber, ""),
               OrElse(info.vehicleType, "car"), OrElse(info.status, "available"))
  }

  /** Editing is a fixed point on complete records, and the blank form is one. */
  lemma EditFormStable(info: DriverInfo)
    ensures EditForm(EditForm(info)) == EditForm(info)
    ensures info.vehicleType != "" && info.status != "" ==> EditForm(info) == info
    ensures EditForm(BlankForm) == BlankForm
  {
  }

  /** The list after an update: every entry with the id takes all seven form
      fields and the new `updatedAt`; its id and `createdAt` are kept, and
      every other entry is unchanged. */
  function UpdateDrivers(list: seq<Driver>, id: string, form: DriverInfo, now: nat): (r: seq<Driver>)
    ensures |r| == |list|
    ensures forall i :: 0 <= i < |list| && list[i].id != id ==> r[i] == list[i]
    ensures forall i :: 0 <= i < |list| && list[i].id == id ==>
              r[i].id == id && r[i].info == form && r[i].createdAt == list[i].createdAt && r[i].updatedAt == now
  {
    seq(|list|, i requires 0 <= i < |list| =>
      if list[i].id == id then list[i].(info := form, updatedAt := now) else list[i])
  }

  /** The list after a delete: exactly the entries with another id, in order. */
  function RemoveDriver(list: seq<Driver>, id: string): (r: seq<Driver>)
    ensures forall d :: d in r <==> d in list && d.id != id
    ensures forall i :: 0 <= i < |r| ==> r[i].id != id
  {
    Filter(list, (d: Driver) => d.id != id)
  }

  lemma RemoveDriverKeepsOrder(list: seq<Driver>, id: string)
    ensures IsSubsequence(RemoveDriver(list, id), list)
    ensures (forall i :: 0 <= i < |list| ==> list[i].id != id) ==> RemoveDriver(list, id) == list
  {
    FilterIsSubsequence(list, (d: Driver) => d.id != id);
    if forall i :: 0 <= i < |list| ==> list[i].id != id {
      FilterAll(list, (d: Driver) => d.id != id);
    }
  }

  /** The driver status badge. */
  function DriverStatusBadge(status: string): (b: Badge)
    ensures status == "available" ==> b.caption == "Available"
    ensures status == "busy" ==> b.caption == "Busy"
    ensures status == "offline" ==> b.caption == "Offline"
    ensures b.caption == "Unknown" <==> status !in {"available", "busy", "offline"}
    ensures b.classes == "" <==> b.caption == "Unknown"
    ensures status == "available" ==> b.classes == "bg-green-100 text-green-800 hover:bg-green-100"
    ensures status == "busy" ==> b.classes == "bg-yellow-100 text-yellow-800 hover:bg-yellow-100"
    ensures status == "offline" ==> b.classes == "bg-gray-100 text-gray-800 hover:bg-gray-100"
  {
    if status == "available" then Badge("Available", "bg-green-100 text-green-800 hover:bg-green-100")
    else if status == "busy" then Badge("Busy", "bg-yellow-100 text-yellow-800 hover:bg-yellow-100")
    else if status == "offline" then Badge("Offline", "bg-gray-100 text-gray-800 hover:bg-gray-100")
    else Badge("Unknown", "")
  }

  /** Every listed driver is the stored document with its id. */
  predicate DriversSyncedWith(list: seq<Driver>, store: map<string, Driver>) {
    forall i :: 0 <= i < |list| ==> list[i].id in store && store[list[i].id] == list[i]
  }

  /** `list` is a full listing of the collection `store`: every listed
      driver is stored, every stored driver is listed, and no id is listed
      twice. This is what reading the whole collection returns. */
  predicate DriversCollection(list: seq<Driver>, store: map<string, Driver>) {
    && DriversSyncedWith(list, store)
    && (forall id :: id in store ==> exists i :: 0 <= i < |list| && list[i].id == id)
    && (forall i, j :: 0 <= i < j < |list| ==> list[i].id != list[j].id)
  }

  /** A new document leaves a listing of the old collection in agreement
      with the new one. */
  lemma AddKeepsDriversSynced(list: seq<Driver>, store: map<string, Driver>, d: Driver)
    requires DriversSyncedWith(list, store) && d.id !in store
    ensures DriversSyncedWith(list, store[d.id := d])
  {
    forall i | 0 <= i < |list|
      ensures list[i].id in store[d.id := d] && store[d.id := d][list[i].id] == list[i]
    {
      assert list[i].id in store;
    }
  }

  /** A listing of the collection after an add shows the added driver. */
  lemma CollectionShowsAdded(list: seq<Driver>, store: map<string, Driver>, d: Driver)
    requires DriversCollection(list, store[d.id := d])
    ensures exists i :: 0 <= i < |list| && list[i] == d
  {
    var st := store[d.id := d];
    assert d.id in st;
    var i :| 0 <= i < |list| && list[i].id == d.id;
    assert st[list[i].id] == list[i];
  }

  /** The store's update and the list's rewrite agree. */
  lemma {:induction false} UpdateKeepsDriversSynced(list: seq<Driver>, store: map<string, Driver>,
                                                    id: string, form: DriverInfo, now: nat)
    requires DriversSyncedWith(list, store) && id in store
    ensures DriversSyncedWith(UpdateDrivers(list, id, form, now),
                              store[id := store[id].(info := form, updatedAt := now)])
  {
    var l := UpdateDrivers(list, id, form, now);
    var st := store[id := store[id].(info := form, updatedAt := now)];
    forall i | 0 <= i < |l|
      ensures l[i].id in st && st[l[i].id] == l[i]
    {
      if list[i].id == id {
        assert store[id] == list[i];
      }
    }
  }

  /** Deleting from both keeps them in agreement. */
  lemma RemoveKeepsDriversSynced(list: seq<Driver>, store: map<string, Driver>, id: string)
    requires DriversSyncedWith(list, store)
    ensures DriversSyncedWith(RemoveDriver(list, id), store - {id})
  {
    var r := RemoveDriver(list, id);
    forall i | 0 <= i < |r|
      ensures r[i].id in store && store[r[i].id] == r[i]
    {
      assert r[i] in list;
    }
  }

  class AdminDriversPage {
    /** The `drivers` collection, by document id. */
    var store: map<string, Driver>
    var drivers: seq<Driver>
    var filtered: seq<Driver>
    var searchQuery: string
    var form: DriverInfo
    var selected: Option<Driver>
    var addOpen: bool
    var editOpen: bool
    var deleteOpen: bool
    var isProcessing: bool
    var loading: bool

    ghost predicate Valid()
      reads this
    {
      && DriversSyncedWith(drivers, store)
      && filtered == FilterDrivers(drivers, searchQuery)
      && !isProcessing
    }

    constructor (store: map<string, Driver>)
      ensures Valid()
      ensures this.store == store && drivers == [] && filtered == [] && searchQuery == ""
      ensures form == BlankForm && selected.None? && !addOpen && !editOpen && !deleteOpen && loading
    {
      this.store := store;
      drivers, filtered, searchQuery := [], [], "";
      form, selected := BlankForm, None;
      addOpen, editOpen, deleteOpen, isProcessing, loading := false, false, false, false, true;
    }

    /** The page load. `snapshot` is the drivers collection as the store
        returns it; `profileReadFails` is a failed read of the caller's
        profile and `readFails` a failed read of the collection, each
        reported in a toast. */
    method FetchDrivers(user: Option<string>, users: map<string, UserDoc>, profileReadFails: bool,
                        snapshot: seq<Driver>, readFails: bool) returns (g: Gate)
      requires Valid() && DriversCollection(snapshot, store)
      modifies this`drivers, this`filtered, this`loading
      ensures Valid() && !loading
      ensures g == PageGate(user, users, profileReadFails)
      ensures g == RedirectToLogin ==> drivers == old(drivers)
      ensures g in {AccessDenied, ProfileUnreadable} || (g == Granted && readFails) ==> drivers == [] && filtered == []
      ensures g == Granted && !readFails ==> drivers == snapshot && DriversCollection(drivers, store)
    {
      g := PageGate(user, users, profileReadFails);
      if g != RedirectToLogin {
        drivers, filtered := [], [];
        if g == Granted && !readFails {
          drivers := snapshot;
          filtered := FilterDrivers(drivers, searchQuery);
        }
      }
      loading := false;
    }

    method SetSearchQuery(q: string)
      requires Valid()
      modifies this`searchQuery, this`filtered
      ensures Valid() && searchQuery == q && filtered == FilterDrivers(drivers, q)
    {
      searchQuery := q;
      filtered := FilterDrivers(drivers, q);
    }

    method ResetForm()
      modifies this`form
      ensures form == BlankForm
    {
      form := BlankForm;
    }

    method HandleEditDriver(d: Driver)
      modifies this`selected, this`form, this`editOpen
      ensures selected == Some(d) && form == EditForm(d.info) && editOpen
    {
      selected := Some(d);
      form := EditForm(d.info);
      editOpen := true;
    }

    method HandleDeleteDriver(d: Driver)
      modifies this`selected, this`deleteOpen
      ensures selected == Some(d) && deleteOpen
    {
      selected := Some(d);
      deleteOpen := true;
    }

    /** Save in the edit dialog. Without a selection nothing happens. The
        store write fails when the selected driver's document is gone, or
        when the store rejects it (`writeFails`, reported in a toast); then
        nothing changes either. */
    method HandleUpdateDriver(now: nat, writeFails: bool) returns (updated: bool)
      requires Valid()
      modifies this`store, this`drivers, this`filtered, this`editOpen, this`isProcessing
      ensures Valid()
      ensures updated <==> old(selected).Some? && old(selected).value.id in old(store) && !writeFails
      ensures !updated ==> store == old(store) && drivers == old(drivers) && editOpen == old(editOpen)
      ensures updated ==>
                var id := old(selected).value.id;
                && store == old(store)[id := old(store)[id].(info := form, updatedAt := now)]
                && drivers == UpdateDrivers(old(drivers), id, form, now)
                && !editOpen
    {
      if selected.None? {
        return false;
      }
      isProcessing := true;
      var id := selected.value.id;
      if id !in store || writeFails {
        isProcessing := false;
        return false;
      }
      UpdateKeepsDriversSynced(drivers, store, id, form, now);
      store := store[id := store[id].(info := form, updatedAt := now)];
      drivers := UpdateDrivers(drivers, id, form, now);
      filtered := FilterDrivers(drivers, searchQuery);
      editOpen := false;
      isProcessing := false;
      updated := true;
    }

    /** Confirm in the delete dialog; no-op without a selection. A delete the
        store rejects (`writeFails`, reported in a toast) changes nothing. */
    method ConfirmDeleteDriver(writeFails: bool) returns (deleted: bool)
      requires Valid()
      modifies this`store, this`drivers, this`filtered, this`deleteOpen, this`isProcessing
      ensures Valid()
      ensures deleted <==> old(selected).Some? && !writeFails
      ensures !deleted ==> store == old(store) && drivers == old(drivers) && deleteOpen == old(deleteOpen)
      ensures deleted ==>
                var id := old(selected).value.id;
                && store == old(store) - {id}
                && drivers == RemoveDriver(old(drivers), id)
                && !deleteOpen
    {
      if selected.None? || writeFails {
        return false;
      }
      isProcessing := true;
      var id := selected.value.id;
      RemoveKeepsDriversSynced(drivers, store, id);
      store := store - {id};
      drivers := RemoveDriver(drivers, id);
      filtered := FilterDrivers(drivers, searchQuery);
      deleteOpen := false;
      isProcessing := false;
      deleted := true;
    }

    /** Add in the add dialog: the form is stored under a new id, the list
        is reloaded from the store (`snapshot`, the whole collection after
        the add), the dialog closes and the form is reset. A write the store
        rejects (`writeFails`) changes nothing; a failed reload
        (`reloadFails`) leaves the stored driver in place but the list, the
        dialog and the form as they were. Both are reported in a toast. */
    method HandleAddDriver(newId: string, now: nat, snapshot: seq<Driver>, writeFails: bool, reloadFails: bool)
      returns (added: bool)
      requires Valid() && newId !in store
      requires DriversCollection(snapshot, store[newId := Driver(newId, form, now, now)])
      modifies this`store, this`drivers, this`filtered, this`addOpen, this`form, this`isProcessing
      ensures Valid()
      ensures added <==> !writeFails
      ensures writeFails ==> store == old(store)
      ensures !writeFails ==> store == old(store)[newId := Driver(newId, old(form), now, now)]
      ensures writeFails || reloadFails ==> drivers == old(drivers) && addOpen == old(addOpen) && form == old(form)
      ensures !writeFails && !reloadFails ==>
                && drivers == snapshot && DriversCollection(drivers, store)
                && (exists i :: 0 <= i < |drivers| && drivers[i] == Driver(newId, old(form), now, now))
                && !addOpen && form == BlankForm
    {
      if writeFails {
        return false;
      }
      isProcessing := true;
      var d := Driver(newId, form, now, now);
      AddKeepsDriversSynced(drivers, store, d);
      store := store[newId := d];
      added := true;
      if reloadFails {
        isProcessing := false;
        return;
      }
      CollectionShowsAdded(snapshot, old(store), d);
      drivers := snapshot;
      filtered := FilterDrivers(drivers, searchQuery);
      addOpen := false;
      form := BlankForm;
      isProcessing := false;
    }
  }
}
