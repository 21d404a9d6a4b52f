// The records the dashboard keeps in its document store, and the fixed
// status vocabulary the pages display.
module Records {
  import opened Common

  /** Status values the pages offer; stored data may hold any string. */
  const Pending := "pending"
  const InTransit := "in_transit"
  const Delivered := "delivered"

  /** The eleven descriptive fields a shipment is created with. */
  datatype PackageDetails = PackageDetails(
    packageName: string,
    packageDescription: string,
    weight: string,
    dimensions: string,
    origin: string,
    destination: string,
    recipientName: string,
    recipientPhone: string,
    recipientEmail: string,
    packageType: string,
    deliverySpeed: string)

  /** A shipment document. `details` is absent on records written by the
      payment button, which stores only owner, code, status and timestamps.
      Timestamps are abstract instants. */
  datatype Shipment = Shipment(
    id: string,
    userId: string,
    trackingId: string,
    details: Option<PackageDetails>,
    status: string,
    driverId: Option<string>,
    createdAt: nat,
    updatedAt: nat,
    transitDate: Option<nat>,
    deliveryDate: Option<nat>)

  /** The seven editable driver fields; a missing field reads as "". */
  datatype DriverInfo = DriverInfo(
    name: string,
    email: string,
    phone: string,
    address: string,
    licenseNumber: string,
    vehicleType: string,
    status: string)

  datatype Driver = Driver(id: string, info: DriverInfo, createdAt: nat, updatedAt: nat)

  /** A document of the `users` collection. */
  datatype UserDoc = UserDoc(
    email: Option<string>,
    name: string,
    phone: string,
    address: string,
    role: Option<string>,
    createdAt: nat,
    updatedAt: Option<nat>)

  /** Label shown for a shipment status (tracking page and dashboard). */
  function StatusText(status: string): (t: string)
    ensures status == Pending ==> t == "Pending"
    ensures status == InTransit ==> t == "In Transit"
    ensures status == Delivered ==> t == "Delivered"
    ensures status !in {Pending, InTransit, Delivered} ==> t == "Unknown"
  {
    if status == Pending then "Pending"
    else if status == InTransit then "In Transit"
    else if status == Delivered then "Delivered"
    else "Unknown"
  }

  datatype Badge = Badge(caption: string, classes: string)

  /** The status badge of the shipment lists. */
  function ShipmentBadge(status: string): (b: Badge)
    ensures b.caption == StatusText(status)
    ensures status !in {Pending, InTransit, Delivered} ==> b.classes == ""
    ensures status in {Pending, InTransit, Delivered} ==> b.classes != ""
    ensures status == Pending ==> b.classes == "bg-yellow-100 text-yellow-800 hover:bg-yellow-100"
    ensures status == InTransit ==> b.classes == "bg-blue-100 text-blue-800 hover:bg-blue-100"
    ensures status == Delivered ==> b.classes == "bg-green-100 text-green-800 hover:bg-green-100"
  {
    if status == Pending then Badge("Pending", "bg-yellow-100 text-yellow-800 hover:bg-yellow-100")
    else if status == InTransit then Badge("In Transit", "bg-blue-100 text-blue-800 hover:bg-blue-100")
    else if status == Delivered then Badge("Delivered", "bg-green-100 text-green-800 hover:bg-green-100")
    else Badge("Unknown", "")
  }

  /** The first driver in `drivers` with the given id, as `drivers.find`. */
  function FindDriver(drivers: seq<Driver>, id: string): (r: Option<Driver>)
    ensures r.Some? <==> exists i :: 0 <= i < |drivers| && drivers[i].id == id
    ensures r.Some? ==> r.value in drivers && r.value.id == id
    ensures r.Some? ==> exists i :: 0 <= i < |drivers| && drivers[i] == r.value
                                  && forall j :: 0 <= j < i ==> drivers[j].id != id
  {
    if drivers == [] then None
    else if drivers[0].id == id then Some(drivers[0])
    else
      var r := FindDriver(drivers[1..], id);
      if r.Some? then
        var i :| 0 <= i < |drivers[1..]| && drivers[1..][i] == r.value
                 && forall j :: 0 <= j < i ==> drivers[1..][j].id != id;
        assert drivers[i + 1] == r.value;
        r
      else
        r
  }

  /** Newest first: `createdAt` never increases along the list. */
  predicate NewestFirst(list: seq<Shipment>) {
    forall i, j :: 0 <= i < j < |list| ==> list[i].createdAt >= list[j].createdAt
  }
}
