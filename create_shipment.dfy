// The shipment creation form: its initial state, the field handlers, the
// payment gate, and the submission that stores a new `pending` shipment.
module CreateShipment {
  import opened Common
  import opened Records
  import opened Lifecycle
  import opened TrackingCodes

  const PaymentRequired := "Please complete the payment before submitting the form."
  const LoginRequired := "You must be logged in to create a shipment"
  const CreateFailed := "Failed to create shipment. Please try again."

  /** The form as the page opens it: everything empty, both selects "standard". */
  const InitialForm := PackageDetails("", "", "", "", "", "", "", "", "", "standard", "standard")

  /** The form field an input of the given `name` edits; None for any other
      name (the spread then adds a key the submission never reads). */
  function FieldValue(form: PackageDetails, name: string): Option<string> {
    match name
    case "packageName" => Some(form.packageName)
    case "packageDescription" => Some(form.packageDescription)
    case "weight" => Some(form.weight)
    case "dimensions" => Some(form.dimensions)
    case "origin" => Some(form.origin)
    case "destination" => Some(form.destination)
    case "recipientName" => Some(form.recipientName)
    case "recipientPhone" => Some(form.recipientPhone)
    case "recipientEmail" => Some(form.recipientEmail)
    case "packageType" => Some(form.packageType)
    case "deliverySpeed" => Some(form.deliverySpeed)
    case _ => None
  }

  /** `setFormData(prev => ({ ...prev, [name]: value }))`, shared by the
      input and select handlers. */
  function SetField(form: PackageDetails, name: string, value: string): (r: PackageDetails)
    ensures FieldValue(form, name).Some? ==> FieldValue(r, name) == Some(value)
    ensures forall other :: other != name ==> FieldValue(r, other) == FieldValue(form, other)
    ensures FieldValue(form, name).None? ==> r == form
  {
    match name
    case "packageName" => form.(packageName := value)
    case "packageDescription" => form.(packageDescription := value)
    case "weight" => form.(weight := value)
    case "dimensions" => form.(dimensions := value)
    case "origin" => form.(origin := value)
    case "destination" => form.(destination := value)
    case "recipientName" => form.(recipientName := value)
    case "recipientPhone" => form.(recipientPhone := value)
    case "recipientEmail" => form.(recipientEmail := value)
    case "packageType" => form.(packageType := value)
    case "deliverySpeed" => form.(deliverySpeed := value)
    case _ => form
  }

  lemma InitialFormDefaults()
    ensures FieldValue(InitialForm, "packageType") == Some("standard")
    ensures FieldValue(InitialForm, "deliverySpeed") == Some("standard")
    ensures forall name :: FieldValue(InitialForm, name).Some? && name !in {"packageType", "deliverySpeed"}
                           ==> FieldValue(InitialForm, name) == Some("")
  {
  }

  /** The record the form submission stores. */
  function NewShipment(id: string, uid: string, draw: nat, form: PackageDetails, now: nat): (s: Shipment)
    requires draw < CodeSpace
    ensures s.id == id && s.userId == uid && s.trackingId == TrackingCode(draw)
    ensures s.details == Some(form)
    ensures s.status == Pending && s.driverId.None? && s.transitDate.None? && s.deliveryDate.None?
    ensures s.createdAt == now && s.updatedAt == now
    ensures WellStamped(s)
  {
    Shipment(id, uid, TrackingCode(draw), Some(form), Pending, None, now, now, None, None)
  }

  /** The submit button is live only after payment and while not saving. */
  function SubmitEnabled(loading: bool, paymentDone: bool): (enabled: bool)
    ensures enabled <==> paymentDone && !loading
  {
    !(loading || !paymentDone)
  }

  datatype SubmitResult = PaymentMissing | NotLoggedIn | WriteRejected | Created(code: string)

  class CreateShipmentPage {
    /** The `shipments` collection, by document id. */
    var store: map<string, Shipment>
    var form: PackageDetails
    var paymentDone: bool
    var loading: bool
    var error: string
    var redirected: bool

    constructor (store: map<string, Shipment>)
      ensures this.store == store && form == InitialForm
      ensures !paymentDone && !loading && error == "" && !redirected
    {
      this.store := store;
      form := InitialForm;
      paymentDone, loading, error, redirected := false, false, "", false;
    }

    method HandleChange(name: string, value: string)
      modifies this`form
      ensures form == SetField(old(form), name, value)
    {
      form := SetField(form, name, value);
    }

    /** The payment processor's success callback. */
    method PaymentSucceeded()
      modifies this`paymentDone
      ensures paymentDone
    {
      paymentDone := true;
    }

    /** The form submission. `draw` is the random integer, `now` the clock,
        `newId` the id the store assigns to the new document, `writeFault`
        the message of the store's rejection of the write, if it rejects it. */
    method HandleSubmit(user: Option<string>, draw: nat, now: nat, newId: string, writeFault: Option<string>)
      returns (result: SubmitResult)
      requires draw < CodeSpace && newId !in store
      modifies this`store, this`loading, this`error, this`redirected
      ensures !old(paymentDone) ==> result == PaymentMissing && error == PaymentRequired
                                    && loading == old(loading) && store == old(store) && redirected == old(redirected)
      ensures old(paymentDone) && user.None? ==> result == NotLoggedIn && error == LoginRequired
                                                 && !loading && store == old(store) && redirected == old(redirected)
      ensures old(paymentDone) && user.Some? && writeFault.Some? ==>
                && result == WriteRejected && error == FieldOr(writeFault, CreateFailed) && error != ""
                && !loading && store == old(store) && redirected == old(redirected)
      ensures old(paymentDone) && user.Some? && writeFault.None? ==>
                && result == Created(TrackingCode(draw))
                && store == old(store)[newId := NewShipment(newId, user.value, draw, form, now)]
                && error == "" && !loading && redirected
    {
      if !paymentDone {
        error := PaymentRequired;
        return PaymentMissing;
      }
      loading := true;
      error := "";
      if user.None? {
        error := LoginRequired;
        loading := false;
        return NotLoggedIn;
      }
      var code := TrackingCode(draw);
      if writeFault.Some? {
        error := FieldOr(writeFault, CreateFailed);
        loading := false;
        return WriteRejected;
      }
      store := store[newId := NewShipment(newId, user.value, draw, form, now)];
      redirected := true;
      loading := false;
      result := Created(code);
    }
  }
}
