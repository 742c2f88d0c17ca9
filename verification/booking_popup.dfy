/** The booking form of src/app/client/BookingPopup.tsx: collects vehicle,
    purpose, size and labour needs, and inserts one order for the signed-in
    client. */
module BookingPopup {
  import opened Base

  /** A coordinate as the geolocation API reports it. */
  type Coord = real

  /** The record `handleSubmit` inserts into `orders`. */
  datatype OrderInsert = OrderInsert(
    clientId: string,
    pickupLocation: string,
    dropLocation: string,
    pickupLat: Option<Coord>,
    pickupLng: Option<Coord>,
    dropLat: Option<Coord>,
    dropLng: Option<Coord>,
    vehicle: string,
    purpose: string,
    size: string,
    labours: bool,
    noOfLabours: Option<int>,
    totalAmount: Option<int>,
    paidAmount: int,
    paymentStatus: string,
    status: string)

  /** A new order: unpriced, unpaid, pending; the labour count is recorded
      only when labours were asked for. */
  function NewOrder(clientId: string, pickup: string, drop: string,
                    pickupLat: Option<Coord>, pickupLng: Option<Coord>,
                    dropLat: Option<Coord>, dropLng: Option<Coord>,
                    vehicle: string, purpose: string, size: string,
                    labours: bool, noOfLabours: int): (r: OrderInsert)
    ensures r.status == "pending" && r.paymentStatus == "pending"
    ensures r.paidAmount == 0 && r.totalAmount == None
    ensures r.noOfLabours.Some? <==> labours
    ensures labours ==> r.noOfLabours == Some(noOfLabours)
    ensures r.clientId == clientId && r.pickupLocation == pickup && r.dropLocation == drop
    ensures r.vehicle == vehicle && r.purpose == purpose && r.size == size && r.labours == labours
    ensures r.pickupLat == pickupLat && r.pickupLng == pickupLng
    ensures r.dropLat == dropLat && r.dropLng == dropLng
  {
    OrderInsert(clientId, pickup, drop, pickupLat, pickupLng, dropLat, dropLng,
                vehicle, purpose, size, labours,
                if labours then Some(noOfLabours) else None,
                None, 0, "pending", "pending")
  }

  class BookingForm {
    const pickup: string
    const drop: string
    var vehicle: string
    var purpose: string
    var size: string
    var labours: bool
    var noOfLabours: int
    var loading: bool
    var clientId: Option<string>
    var pickupLat: Option<Coord>
    var pickupLng: Option<Coord>
    var dropLat: Option<Coord>
    var dropLng: Option<Coord>

    /** No reachable handler sets a coordinate: `getPickupLocation` is
        defined but never invoked, and nothing sets the drop coordinates, so
        all four stay null. */
    ghost predicate Valid()
      reads this
    {
      pickupLat == None && pickupLng == None && dropLat == None && dropLng == None
    }

    constructor (pickup: string, drop: string)
      ensures Valid()
      ensures this.pickup == pickup && this.drop == drop
      ensures vehicle == "Mini Truck" && purpose == "" && size == "" && !labours && noOfLabours == 0
      ensures !loading && clientId == None && pickupLat == None && pickupLng == None
    {
      this.pickup := pickup;
      this.drop := drop;
      vehicle := "Mini Truck";
      purpose := "";
      size := "";
      labours := false;
      noOfLabours := 0;
      loading := false;
      clientId := None;
      pickupLat := None;
      pickupLng := None;
      dropLat := None;
      dropLng := None;
    }

    /** `getUser`: records the signed-in client (the redirect otherwise is
        not modelled). */
    method GetUser(userId: Option<string>)
      requires Valid()
      modifies this`clientId
      ensures Valid()
      ensures clientId == (if userId.Some? then userId else old(clientId))
    {
      if userId.Some? {
        clientId := userId;
      }
    }

    /** The form inputs. The labour count is taken as typed: its 1 to 10
        bounds are only attributes of the input element. */
    method EditFields(vehicle': string, purpose': string, size': string, labours': bool, noOfLabours': int)
      requires Valid()
      modifies this`vehicle, this`purpose, this`size, this`labours, this`noOfLabours
      ensures Valid()
      ensures vehicle == vehicle' && purpose == purpose' && size == size'
      ensures labours == labours' && noOfLabours == noOfLabours'
    {
      vehicle, purpose, size, labours, noOfLabours := vehicle', purpose', size', labours', noOfLabours';
    }

    /** `handleSubmit`: without a client nothing is inserted. Otherwise the
        new order is inserted; `onClose` is requested only when the insert
        succeeded, and loading ends false either way. */
    method HandleSubmit(insertFails: bool) returns (inserted: Option<OrderInsert>, closeRequested: bool)
      requires Valid()
      modifies this`loading
      ensures Valid()
      ensures old(clientId).None? ==> inserted.None? && !closeRequested && loading == old(loading)
      ensures clientId.Some? ==>
        && inserted == Some(NewOrder(clientId.value, pickup, drop, pickupLat, pickupLng, dropLat, dropLng,
                                     vehicle, purpose, size, labours, noOfLabours))
        && !loading
        && (closeRequested <==> !insertFails)
      ensures inserted.Some? ==>
        && inserted.value.pickupLat == None && inserted.value.pickupLng == None
        && inserted.value.dropLat == None && inserted.value.dropLng == None
    {
      if clientId.None? {
        return None, false;
      }
      loading := true;
      inserted := Some(NewOrder(clientId.value, pickup, drop, pickupLat, pickupLng, dropLat, dropLng,
                                vehicle, purpose, size, labours, noOfLabours));
      loading := false;
      closeRequested := !insertFails;
    }
  }
}
