// The pay-and-create button: after a successful payment it stores a bare
// `pending` shipment carrying only owner, tracking code, status and
// timestamps, with the loading and error flags of its own.
module PaymentButton {
  import opened Common
  import opened Records
  import opened Lifecycle
  import opened TrackingCodes

  const LoginRequired := "You must be logged in to create a shipment"
  const CreateFailed := "Failed to create shipment. Please try again."

  /** The record the button stores: no package details, no driver, no stamps. */
  function BareShipment(id: string, uid: string, draw: nat, now: nat): (s: Shipment)
    requires draw < CodeSpace
    ensures s.id == id && s.userId == uid && s.trackingId == TrackingCode(draw)
    ensures s.details.None? && s.driverId.None?
    ensures s.status == Pending && s.transitDate.None? && s.deliveryDate.None?
    ensures s.createdAt == now && s.updatedAt == now
    ensures WellStamped(s)
  {
    Shipment(id, uid, TrackingCode(draw), None, Pending, None, now, now, None, None)
  }

  class PaymentButtonState {
    /** The `shipments` collection, by document id. */
    var store: map<string, Shipment>
    var loading: bool
    var error: string
    var redirected: bool

    constructor (store: map<string, Shipment>)
      ensures this.store == store && !loading && error == "" && !redirected
    {
      this.store := store;
      loading, error, redirected := false, "", false;
    }

    /** `handleSubmit`, run from the payment callback. The error is cleared
        first and `loading` is false again however it ends. `writeFault` is
        the message of the store's rejection of the write, if it rejects it. */
    method HandleSubmit(user: Option<string>, draw: nat, now: nat, newId: string, writeFault: Option<string>)
      returns (created: bool)
      requires draw < CodeSpace && newId !in store
      modifies this
      ensures !loading
      ensures created <==> user.Some? && writeFault.None?
      ensures user.None? ==> error == LoginRequired
      ensures user.Some? && writeFault.Some? ==> error == FieldOr(writeFault, CreateFailed) && error != ""
      ensures !created ==> store == old(store) && redirected == old(redirected)
      ensures created ==> error == "" && redirected
                          && store == old(store)[newId := BareShipment(newId, user.value, draw, now)]
    {
      loading := true;
      error := "";
      if user.None? {
        error := LoginRequired;
        loading := false;
        return false;
      }
      if writeFault.Some? {
        error := FieldOr(writeFault, CreateFailed);
        loading := false;
        return false;
      }
      store := store[newId := BareShipment(newId, user.value, draw, now)];
      redirected := true;
      loading := false;
      created := true;
    }

  }
}
