// The public tracking page: lookup of a shipment by its tracking code, the
// driver join, the map's marker decision, and the status timeline.
module Tracking {
  import opened Common
  import opened Records

  const NotFound := "Shipment not found. Please check the tracking ID and try again."
  const PermissionMessage := "You do not have permission to access this shipment."
  const GenericMessage := "An error occurred while tracking the shipment. Please try again."
  const MapUnavailable := "Unable to load map location. Please try again later."
  const MapCrashed := "An error occurred while loading the map."

  /** The first document, in the store's order, carrying the code. */
  function FirstMatch(docs: seq<Shipment>, code: string): (r: Option<Shipment>)
    ensures r.None? <==> forall i :: 0 <= i < |docs| ==> docs[i].trackingId != code
    ensures r.Some? ==> exists i :: 0 <= i < |docs| && docs[i] == r.value
                                  && forall j :: 0 <= j < i ==> docs[j].trackingId != code
    ensures r.Some? ==> r.value.trackingId == code
  {
    if docs == [] then None
    else if docs[0].trackingId == code then Some(docs[0])
    else
      var r := FirstMatch(docs[1..], code);
      if r.Some? then
        var i :| 0 <= i < |docs[1..]| && docs[1..][i] == r.value
                 && forall j :: 0 <= j < i ==> docs[1..][j].trackingId != code;
        assert docs[i + 1] == r.value;
        r
      else
        assert forall i :: 1 <= i < |docs| ==> docs[i] == docs[1..][i - 1];
        r
  }

  /** A shipment carrying a code no other document carries is what the
      lookup of that code returns. */
  lemma {:induction false} UniqueCodeIsFound(docs: seq<Shipment>, k: nat)
    requires k < |docs|
    requires forall i :: 0 <= i < |docs| && i != k ==> docs[i].trackingId != docs[k].trackingId
    ensures FirstMatch(docs, docs[k].trackingId) == Some(docs[k])
  {
    var r := FirstMatch(docs, docs[k].trackingId);
    var i :| 0 <= i < |docs| && docs[i] == r.value
             && forall j :: 0 <= j < i ==> docs[j].trackingId != docs[k].trackingId;
    assert i == k;
  }

  /** The driver shown with the shipment: looked up only when `driverId` is
      truthy; an id with no driver document gives no driver, not an error. */
  function DriverJoin(s: Shipment, drivers: seq<Driver>): (d: Option<DriverInfo>)
    ensures d.Some? <==> Present(s.driverId) && exists i :: 0 <= i < |drivers| && drivers[i].id == s.driverId.value
    ensures d.Some? ==> exists i :: 0 <= i < |drivers| && drivers[i].id == s.driverId.value && drivers[i].info == d.value
  {
    if Present(s.driverId) then
      match FindDriver(drivers, s.driverId.value)
      case Some(driver) => Some(driver.info)
      case None => None
    else None
  }

  /** The admin's "Not Assigned" choice stores the literal "none", which is
      looked up like any id and joins nothing. */
  lemma NotAssignedJoinsNothing(s: Shipment, drivers: seq<Driver>)
    requires s.driverId == Some("none")
    requires forall i :: 0 <= i < |drivers| ==> drivers[i].id != "none"
    ensures DriverJoin(s, drivers).None?
  {
  }

  datatype Tracked = Tracked(shipment: Shipment, driver: Option<DriverInfo>)

  /** A failed store read: refused by the access rules, or anything else. */
  datatype Fault = PermissionDenied | OtherFault

  function FaultMessage(f: Fault): (m: string)
    ensures f == PermissionDenied <==> m == PermissionMessage
    ensures f == OtherFault <==> m == GenericMessage
  {
    match f
    case PermissionDenied => PermissionMessage
    case OtherFault => GenericMessage
  }

  /** Subtitle under the tracking code. */
  function StatusDescription(status: string): (d: string)
    ensures status == Pending ==> d == "Your shipment has been registered and is awaiting processing"
    ensures status == InTransit ==> d == "Your shipment is on its way to the destination"
    ensures status == Delivered ==> d == "Your shipment has been delivered successfully"
    ensures d == "" <==> status !in {Pending, InTransit, Delivered}
  {
    if status == Pending then "Your shipment has been registered and is awaiting processing"
    else if status == InTransit then "Your shipment is on its way to the destination"
    else if status == Delivered then "Your shipment has been delivered successfully"
    else ""
  }

  /** What the description and the status text agree on: a status has a
      description exactly when it has a known label. */
  lemma DescriptionMatchesText(status: string)
    ensures StatusDescription(status) == "" <==> StatusText(status) == "Unknown"
  {
  }

  /** How the geocoder answered for the destination address. */
  datatype Geocode = Located | NotLocated | Threw

  datatype MapView = NoMap | Message(text: string) | Markers(destination: bool, driver: bool)

  /** The geocoder's callback: a destination marker on success, with a
      driver marker beside it only for a shipment in transit; the fallback
      message otherwise. */
  function GeocodeView(status: string, g: Geocode): (v: MapView)
    ensures v.Markers? <==> g == Located
    ensures v.Markers? ==> v.destination && (v.driver <==> status == InTransit)
    ensures g == NotLocated ==> v == Message(MapUnavailable)
    ensures g == Threw ==> v == Message(MapCrashed)
  {
    match g
    case Located => Markers(true, status == InTransit)
    case NotLocated => Message(MapUnavailable)
    case Threw => Message(MapCrashed)
  }

  /** The map container is rendered only for a shipment in transit, and the
      map is initialised only once the maps script has loaded and the
      container exists. */
  function MapFor(s: Shipment, scriptLoaded: bool, g: Geocode): (v: MapView)
    ensures v != NoMap <==> scriptLoaded && s.status == InTransit
    ensures v != NoMap ==> v == GeocodeView(s.status, g)
  {
    if scriptLoaded && s.status == InTransit then GeocodeView(s.status, g) else NoMap
  }

  /** Because the container exists only in transit, every map that shows a
      destination also shows the driver. */
  lemma MapsShowDriver(s: Shipment, scriptLoaded: bool, g: Geocode)
    ensures MapFor(s, scriptLoaded, g).Markers? ==> MapFor(s, scriptLoaded, g).driver
  {
  }

  /** What a timeline step shows under its title. */
  datatype StepNote = Stamp(at: nat) | Caption(text: string)

  /** One timeline step: whether its icon is green, whether a connector
      line is drawn below it, and its note. */
  datatype Step = Step(complete: bool, connector: bool, note: StepNote)

  function CreatedStep(s: Shipment): (st: Step)
    ensures st.complete <==> s.status == InTransit || s.status == Delivered
    ensures st.connector <==> s.status != Pending
    ensures st.note == Stamp(s.createdAt)
  {
    Step(s.status == InTransit || s.status == Delivered, s.status != Pending, Stamp(s.createdAt))
  }

  function TransitStep(s: Shipment): (st: Step)
    ensures st.complete <==> s.status == InTransit || s.status == Delivered
    ensures st.connector <==> s.status == Delivered
    ensures st.complete && s.transitDate.Some? ==> st.note == Stamp(s.transitDate.value)
    ensures st.complete && s.transitDate.None? ==> st.note == Caption("Currently in transit")
    ensures !st.complete ==> st.note == Caption("Pending")
  {
    var complete := s.status == InTransit || s.status == Delivered;
    var note :=
      if !complete then Caption("Pending")
      else if s.transitDate.Some? then Stamp(s.transitDate.value)
      else Caption("Currently in transit");
    Step(complete, s.status == Delivered, note)
  }

  function DeliveredStep(s: Shipment): (st: Step)
    ensures st.complete <==> s.status == Delivered
    ensures !st.connector
    ensures st.complete && s.deliveryDate.Some? ==> st.note == Stamp(s.deliveryDate.value)
    ensures st.complete && s.deliveryDate.None? ==> st.note == Caption("Successfully delivered")
    ensures !st.complete ==> st.note == Caption("Pending")
  {
    var complete := s.status == Delivered;
    var note :=
      if !complete then Caption("Pending")
      else if s.deliveryDate.Some? then Stamp(s.deliveryDate.value)
      else Caption("Successfully delivered");
    Step(complete, false, note)
  }

  function Timeline(s: Shipment): (steps: seq<Step>)
    ensures |steps| == 3
    ensures forall k :: 0 < k < 3 && steps[k].complete ==> steps[k - 1].complete
  {
    [CreatedStep(s), TransitStep(s), DeliveredStep(s)]
  }

  /** A completed step never shows a date the record does not hold, and a
      shipment sent straight from pending to delivered shows its transit
      step as "Currently in transit". */
  lemma TimelineDates(s: Shipment)
    ensures forall k :: 0 <= k < 3 && Timeline(s)[k].note.Stamp? ==>
              Timeline(s)[k].note.at in {s.createdAt} + (if s.transitDate.Some? then {s.transitDate.value} else {})
                                                     + (if s.deliveryDate.Some? then {s.deliveryDate.value} else {})
    ensures s.status == Delivered && s.transitDate.None? ==> TransitStep(s).note == Caption("Currently in transit")
  {
  }

  class TrackingPage {
    var trackingId: string
    var shipment: Option<Tracked>
    var loading: bool
    var error: string

    /** The first render, with the code from the `id` query parameter or "".
        With a code given, the page's `[trackingId]` effect then runs the
        lookup at once; a caller models that mount by applying
        `TrackShipment`. */
    constructor (idParam: Option<string>)
      ensures trackingId == FieldOr(idParam, "") && shipment.None? && !loading && error == ""
    {
      trackingId := FieldOr(idParam, "");
      shipment, loading, error := None, false, "";
    }

    /** What the page shows once a lookup of the current code has finished:
        the read's failure, "not found", or the first stored shipment with the
        code joined with its driver. */
    ghost predicate ShowsLookup(docs: seq<Shipment>, drivers: seq<Driver>, fault: Option<Fault>)
      reads this
    {
      && !loading
      && (fault.Some? ==> shipment.None? && error == FaultMessage(fault.value))
      && (fault.None? && FirstMatch(docs, trackingId).None? ==> shipment.None? && error == NotFound)
      && (fault.None? && FirstMatch(docs, trackingId).Some? ==>
            var s := FirstMatch(docs, trackingId).value;
            shipment == Some(Tracked(s, DriverJoin(s, drivers))) && error == "")
    }

    /** The lookup. `docs` is the shipments collection in the store's
        order, `drivers` the drivers collection, `fault` a failed read. */
    method TrackShipment(docs: seq<Shipment>, drivers: seq<Driver>, fault: Option<Fault>)
      modifies this`shipment, this`loading, this`error
      ensures trackingId == "" ==> shipment == old(shipment) && loading == old(loading) && error == old(error)
      ensures trackingId != "" ==> ShowsLookup(docs, drivers, fault)
    {
      if trackingId == "" {
        return;
      }
      loading := true;
      error := "";
      shipment := None;
      if fault.Some? {
        error := FaultMessage(fault.value);
        loading := false;
        return;
      }
      var found := FirstMatch(docs, trackingId);
      if found.None? {
        error := NotFound;
        loading := false;
        return;
      }
      var data := Tracked(found.value, None);
      if Present(found.value.driverId) {
        var d := FindDriver(drivers, found.value.driverId.value);
        if d.Some? {
          data := data.(driver := Some(d.value.info));
        }
      }
      shipment := Some(data);
      loading := false;
    }

    /** Typing in the box: the page re-runs the lookup only when the code
        changes to a non-empty one; retyping the same code changes nothing. */
    method SetTrackingId(id: string, docs: seq<Shipment>, drivers: seq<Driver>, fault: Option<Fault>)
      modifies this
      ensures trackingId == id
      ensures id == "" || id == old(trackingId) ==>
                shipment == old(shipment) && loading == old(loading) && error == old(error)
      ensures id != "" && id != old(trackingId) ==> ShowsLookup(docs, drivers, fault)
      ensures id != "" && id != old(trackingId) && fault.None? ==>
                (shipment.Some? <==> exists i :: 0 <= i < |docs| && docs[i].trackingId == id)
    {
      if id == trackingId {
        return;
      }
      trackingId := id;
      TrackShipment(docs, drivers, fault);
    }

    /** The "Track" button is live only with a code typed and no lookup running. */
    function TrackEnabled(): (enabled: bool)
      reads this
      ensures enabled <==> trackingId != "" && !loading
    {
      !(loading || trackingId == "")
    }
  }
}
