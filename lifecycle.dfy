// The status update engine of the administrators' shipment page: the patch
// an update applies to one shipment, the rewrite of the in-memory list, the
// dialog defaults and the driver label. All pure; the page that drives them
// is AdminShipments.
module Lifecycle {
  import opened Common
  import opened Records

  /** `selectedDriver || null`: the empty selection clears the assignment;
      any other string, including the "Not Assigned" option's value "none",
      is stored as it is. */
  function DriverIdFor(selection: string): (d: Option<string>)
    ensures d.None? <==> selection == ""
    ensures d.Some? ==> d.value == selection
  {
    if selection == "" then None else Some(selection)
  }

  /** The update as the store receives it: status, driver and `updatedAt` are
      written; a stamp is added when the chosen status is `in_transit` /
      `delivered` and `basis` (the shipment as the dialog saw it) has none.
      Every field not written keeps the document's value. Since `basis`
      decides, a stamp another admin stored after this dialog was opened is
      overwritten with `now`. */
  function PatchFrom(doc: Shipment, basis: Shipment, status: string, driver: string, now: nat): (r: Shipment)
    ensures r.status == status && r.driverId == DriverIdFor(driver) && r.updatedAt == now
    ensures r.id == doc.id && r.userId == doc.userId && r.trackingId == doc.trackingId
    ensures r.details == doc.details && r.createdAt == doc.createdAt
    ensures r.transitDate != doc.transitDate ==> status == InTransit && basis.transitDate.None? && r.transitDate == Some(now)
    ensures r.deliveryDate != doc.deliveryDate ==> status == Delivered && basis.deliveryDate.None? && r.deliveryDate == Some(now)
    ensures status == InTransit ==> r.transitDate.Some? || (doc.transitDate.None? && basis.transitDate.Some?)
    ensures status == Delivered ==> r.deliveryDate.Some? || (doc.deliveryDate.None? && basis.deliveryDate.Some?)
    ensures status == InTransit && basis.transitDate.None? ==> r.transitDate == Some(now)
    ensures status == Delivered && basis.deliveryDate.None? ==> r.deliveryDate == Some(now)
  {
    doc.(status := status,
         driverId := DriverIdFor(driver),
         updatedAt := now,
         transitDate := if status == InTransit && basis.transitDate.None? then Some(now) else doc.transitDate,
         deliveryDate := if status == Delivered && basis.deliveryDate.None? then Some(now) else doc.deliveryDate)
  }

  /** The update applied to a list entry, whose own stamps decide. */
  function ApplyUpdate(s: Shipment, status: string, driver: string, now: nat): (r: Shipment)
    ensures r.status == status && r.driverId == DriverIdFor(driver) && r.updatedAt == now
    ensures r.id == s.id && r.userId == s.userId && r.trackingId == s.trackingId
    ensures r.details == s.details && r.createdAt == s.createdAt
    // a stamp, once present, is never overwritten nor cleared
    ensures s.transitDate.Some? ==> r.transitDate == s.transitDate
    ensures s.deliveryDate.Some? ==> r.deliveryDate == s.deliveryDate
    // a stamp appears only for the matching status, and then it is `now`
    ensures s.transitDate.None? ==> r.transitDate == (if status == InTransit then Some(now) else None)
    ensures s.deliveryDate.None? ==> r.deliveryDate == (if status == Delivered then Some(now) else None)
  {
    PatchFrom(s, s, status, driver, now)
  }

  /** The list after an update: the entries with the selected id are
      replaced by their updated form, the others are kept. */
  function RewriteEntry(list: seq<Shipment>, id: string, status: string, driver: string, now: nat): (r: seq<Shipment>)
    ensures |r| == |list|
    ensures forall i :: 0 <= i < |list| ==> r[i].id == list[i].id
    ensures forall i :: 0 <= i < |list| && list[i].id != id ==> r[i] == list[i]
    ensures forall i :: 0 <= i < |list| && list[i].id == id ==> r[i] == ApplyUpdate(list[i], status, driver, now)
  {
    seq(|list|, i requires 0 <= i < |list| =>
      if list[i].id == id then ApplyUpdate(list[i], status, driver, now) else list[i])
  }

  /** Every status the record is in carries the stamp of that status:
      the invariant the once-only stamping keeps. */
  predicate StampsCover(s: Shipment) {
    && (s.status == InTransit ==> s.transitDate.Some?)
    && (s.status == Delivered ==> s.deliveryDate.Some?)
  }

  /** Stamps and the last update lie between creation and `updatedAt`. */
  predicate Chronological(s: Shipment) {
    && s.createdAt <= s.updatedAt
    && (s.transitDate.Some? ==> s.createdAt <= s.transitDate.value <= s.updatedAt)
    && (s.deliveryDate.Some? ==> s.createdAt <= s.deliveryDate.value <= s.updatedAt)
  }

  predicate WellStamped(s: Shipment) {
    StampsCover(s) && Chronological(s)
  }

  /** An update keeps a well-stamped record well-stamped when the clock does
      not run backwards. */
  lemma UpdateKeepsWellStamped(s: Shipment, status: string, driver: string, now: nat)
    requires WellStamped(s) && s.updatedAt <= now
    ensures WellStamped(ApplyUpdate(s, status, driver, now))
  {
  }

  /** Choosing a status again never moves an existing stamp: a second update
      keeps the stamps of the first, and only `updatedAt` and the driver move. */
  lemma ReenteringKeepsStamps(s: Shipment, status: string, d1: string, d2: string, t1: nat, t2: nat)
    ensures var once := ApplyUpdate(s, status, d1, t1);
            var twice := ApplyUpdate(once, status, d2, t2);
            && twice.transitDate == once.transitDate
            && twice.deliveryDate == once.deliveryDate
            && twice.status == once.status
            && twice.updatedAt == t2
  {
  }

  /** Stamps survive any sequence of updates: after a list of (status,
      driver, time) choices, a stamp present at the start is unchanged. */
  function ApplyAll(s: Shipment, steps: seq<(string, string, nat)>): (r: Shipment)
    ensures r.id == s.id && r.trackingId == s.trackingId && r.userId == s.userId && r.createdAt == s.createdAt
    decreases |steps|
  {
    if steps == [] then s
    else ApplyAll(ApplyUpdate(s, steps[0].0, steps[0].1, steps[0].2), steps[1..])
  }

  lemma {:induction false} StampsArePermanent(s: Shipment, steps: seq<(string, string, nat)>)
    ensures s.transitDate.Some? ==> ApplyAll(s, steps).transitDate == s.transitDate
    ensures s.deliveryDate.Some? ==> ApplyAll(s, steps).deliveryDate == s.deliveryDate
    decreases |steps|
  {
    if steps != [] {
      StampsArePermanent(ApplyUpdate(s, steps[0].0, steps[0].1, steps[0].2), steps[1..]);
    }
  }

  /** Any number of updates with a clock that does not go back keep a record
      well-stamped. */
  predicate ClockFrom(t: nat, steps: seq<(string, string, nat)>) {
    && (forall i :: 0 <= i < |steps| ==> t <= steps[i].2)
    && (forall i, j :: 0 <= i < j < |steps| ==> steps[i].2 <= steps[j].2)
  }

  lemma {:induction false} UpdatesKeepWellStamped(s: Shipment, steps: seq<(string, string, nat)>)
    requires WellStamped(s) && ClockFrom(s.updatedAt, steps)
    ensures WellStamped(ApplyAll(s, steps))
    decreases |steps|
  {
    if steps != [] {
      var next := ApplyUpdate(s, steps[0].0, steps[0].1, steps[0].2);
      UpdateKeepsWellStamped(s, steps[0].0, steps[0].1, steps[0].2);
      assert ClockFrom(next.updatedAt, steps[1..]) by {
        forall i | 0 <= i < |steps[1..]|
          ensures next.updatedAt <= steps[1..][i].2
        {
          assert steps[1..][i] == steps[i + 1];
        }
      }
      UpdatesKeepWellStamped(next, steps[1..]);
    }
  }

  /** The administrators' selector is free-form: a shipment can be marked
      delivered straight from pending, so `transitDate` need not be set once
      a shipment is delivered, and a later return to `in_transit` stamps a
      transit time after the delivery time. */
  lemma PermissiveOverride(s: Shipment)
    requires s.status == Pending && s.transitDate.None? && s.deliveryDate.None?
    ensures var d := ApplyUpdate(s, Delivered, "", 5);
            var t := ApplyUpdate(d, InTransit, "", 9);
            && d.status == Delivered && d.transitDate.None?
            && t.transitDate == Some(9) && t.deliveryDate == Some(5)
            && t.deliveryDate.value < t.transitDate.value
  {
  }

  /** The store's patch and the list's rewrite agree whenever the dialog's
      copy of the shipment is the stored document. */
  lemma PatchAgreesWithList(doc: Shipment, status: string, driver: string, now: nat)
    ensures PatchFrom(doc, doc, status, driver, now) == ApplyUpdate(doc, status, driver, now)
  {
  }

  // ---- Dialog defaults and the driver column ----------------------------

  /** `shipment.driverId || ""`: the driver preselected in the dialog. */
  function DriverSelection(s: Shipment): (sel: string)
    ensures Present(s.driverId) ==> sel == s.driverId.value
    ensures !Present(s.driverId) ==> sel == ""
  {
    FieldOr(s.driverId, "")
  }

  /** `shipment.status || "pending"`: the status preselected in the dialog. */
  function StatusSelection(s: Shipment): (sel: string)
    ensures sel != ""
    ensures s.status != "" ==> sel == s.status
    ensures s.status == "" ==> sel == Pending
  {
    OrElse(s.status, Pending)
  }

  /** Reopening the dialog on an updated shipment preselects what was chosen;
      an emptied driver comes back as the empty selection. */
  lemma DialogRoundTrip(s: Shipment, status: string, driver: string, now: nat)
    requires status != ""
    ensures var u := ApplyUpdate(s, status, driver, now);
            StatusSelection(u) == status && DriverSelection(u) == driver
  {
  }

  /** The "Assigned Driver" column of the shipment list. */
  function DriverLabel(s: Shipment, drivers: seq<Driver>): (name: string)
    ensures !Present(s.driverId) ==> name == "Not Assigned"
    ensures Present(s.driverId) && FindDriver(drivers, s.driverId.value).Some?
            && FindDriver(drivers, s.driverId.value).value.info.name != ""
            ==> name == FindDriver(drivers, s.driverId.value).value.info.name
    ensures Present(s.driverId) && FindDriver(drivers, s.driverId.value).Some?
            && FindDriver(drivers, s.driverId.value).value.info.name == ""
            ==> name == "Unknown Driver"
    ensures Present(s.driverId) && (forall i :: 0 <= i < |drivers| ==> drivers[i].id != s.driverId.value)
            ==> name == "Unknown Driver"
  {
    if !Present(s.driverId) then "Not Assigned"
    else match FindDriver(drivers, s.driverId.value)
      case Some(d) => OrElse(d.info.name, "Unknown Driver")
      case None => "Unknown Driver"
  }
}
