/** src/api/roomServiceApi.ts: the two menu fetches unwrap the envelope and
    throw on failure; ordering and reservations pass the envelope on. */
module RoomServiceApi {
  import opened Common
  import opened Types
  import opened ApiClient

  const MenuFallback: string := "Failed to fetch menu"
  const RestaurantMenuFallback: string := "Failed to fetch restaurant menu"

  /** `if (!response.success || !response.data) throw new Error(response.message || fallback)`;
      otherwise the data. A rejection from the client is re-raised as it is. */
  function UnwrapMenu(reply: ApiOutcome<Menu>, fallback: string): (r: Settled<Menu>)
    ensures r.Resolved? <==> SucceededWithData(reply)
    ensures r.Resolved? ==> r.value == reply.value.data.value
    ensures reply.Rejected? ==> r == Rejected(reply.err)
    ensures reply.Resolved? && !r.Resolved? ==> r == Rejected(Some(OrElse(reply.value.message, fallback)))
  {
    match reply
    case Rejected(e) => Rejected(e)
    case Resolved(response) =>
      if !response.success || response.data.None? then Rejected(Some(OrElse(response.message, fallback)))
      else Resolved(response.data.value)
  }

  /** `getRoomServiceMenu`: GET `/food/room-service-menu`, then unwrap. */
  function GetRoomServiceMenu(reply: ApiOutcome<Menu>): (r: Settled<Menu>)
    ensures r.Resolved? <==> SucceededWithData(reply)
    ensures r.Resolved? ==> r.value == reply.value.data.value
    ensures reply.Rejected? ==> r == Rejected(reply.err)
    ensures reply.Resolved? && !r.Resolved? ==> r.err == Some(OrElse(reply.value.message, MenuFallback))
  {
    UnwrapMenu(reply, MenuFallback)
  }

  /** `getRestaurantMenu`: GET `/food/restaurant-menu`, then unwrap. */
  function GetRestaurantMenu(reply: ApiOutcome<Menu>): (r: Settled<Menu>)
    ensures r.Resolved? <==> SucceededWithData(reply)
    ensures r.Resolved? ==> r.value == reply.value.data.value
    ensures reply.Rejected? ==> r == Rejected(reply.err)
    ensures reply.Resolved? && !r.Resolved? ==> r.err == Some(OrElse(reply.value.message, RestaurantMenuFallback))
  {
    UnwrapMenu(reply, RestaurantMenuFallback)
  }

  /** The request `getRoomServiceMenu` hands to the client. */
  function RoomServiceMenuCall(): Call<()> { Get("/food/room-service-menu") }

  /** The request `getRestaurantMenu` hands to the client. */
  function RestaurantMenuCall(): Call<()> { Get("/food/restaurant-menu") }

  /** Both menu fetches are plain GETs without a body or extra headers, each
      to its own endpoint. */
  lemma MenuCallsFetchTheirEndpoints()
    ensures RoomServiceMenuCall() == Call("/food/room-service-menu", RequestInit(Some(GET), None, map[]))
    ensures RestaurantMenuCall() == Call("/food/restaurant-menu", RequestInit(Some(GET), None, map[]))
    ensures RoomServiceMenuCall().endpoint != RestaurantMenuCall().endpoint
  {
    WrappersFixMethodAndBody<()>("/food/room-service-menu", ());
    WrappersFixMethodAndBody<()>("/food/restaurant-menu", ());
  }

  datatype OrderLine = OrderLine(id: string, name: string, price: real, quantity: nat)

  datatype OrderData = OrderData(
    items: seq<OrderLine>,
    total: real,
    specialInstructions: Option<string>,
    roomNumber: Option<string>)

  datatype OrderResponse = OrderResponse(orderId: string, estimatedDelivery: string)

  datatype ReservationData = ReservationData(
    date: string,
    time: string,
    guests: nat,
    specialRequests: Option<string>)

  /** `placeRoomServiceOrder`: POST the order; the envelope is returned as it
      is, success or not. */
  function PlaceRoomServiceOrderCall(order: OrderData): (call: Call<OrderData>)
    ensures call.endpoint == "/food/room-service/order"
    ensures call.init.verb == Some(POST) && call.init.body == Some(order)
  {
    Post("/food/room-service/order", order)
  }

  /** `makeReservation`: POST the reservation; the envelope is returned as it
      is, success or not. */
  function MakeReservationCall(reservation: ReservationData): (call: Call<ReservationData>)
    ensures call.endpoint == "/food/reservation"
    ensures call.init.verb == Some(POST) && call.init.body == Some(reservation)
  {
    Post("/food/reservation", reservation)
  }

  /** A failed envelope's message becomes the error; an empty message is
      falsy and gives way to the fallback. */
  lemma MenuFailureUsesMessage(message: string, error: Option<string>)
    requires message != ""
    ensures GetRoomServiceMenu(Resolved(ApiResponse(false, Some(message), None, error))) == Rejected(Some(message))
    ensures GetRoomServiceMenu(Resolved(ApiResponse(false, Some(""), None, error))) == Rejected(Some(MenuFallback))
  {
  }
}
