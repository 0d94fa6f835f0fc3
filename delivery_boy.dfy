/**
 * The delivery boy of FoodDelivery/DeliveryBoy.py: an "available"/"busy"
 * state machine that holds at most one order. Timestamps are whole seconds
 * since the Unix epoch; the clock reading taken when an order is completed is
 * a parameter.
 */
module DeliveryBoys {

  const Available := "available"
  const Busy := "busy"

  /** 2024-12-10 00:00:00 UTC, the stamp every new delivery boy starts with. */
  const InitialOrderStamp: int := 1733788800

  /**
   * The order a delivery boy carries. Only its status matters here: it is
   * set to "dispatched" when the order is assigned and to "completed" when
   * it is delivered.
   */
  class FoodOrder {
    const bookingId: int
    var status: string

    constructor (bookingId: int, status: string)
      ensures this.bookingId == bookingId && this.status == status
    {
      this.bookingId := bookingId;
      this.status := status;
    }

    method UpdateOrderStatus(s: string)
      modifies this
      ensures status == s
    {
      status := s;
    }
  }

  class DeliveryBoy {
    const id: int
    const name: string
    var status: string
    var currentOrder: FoodOrder?
    var lastOrderTime: int

    /** Busy exactly while carrying an order. */
    predicate Consistent()
      reads this
    {
      status == Busy <==> currentOrder != null
    }

    constructor (id: int, name: string, status: string)
      ensures this.id == id && this.name == name && this.status == status
      ensures currentOrder == null && lastOrderTime == InitialOrderStamp
      ensures status != Busy ==> Consistent()
    {
      this.id := id;
      this.name := name;
      this.status := status;
      currentOrder := null;
      lastOrderTime := InitialOrderStamp;
    }

    /** The default constructor: a new boy is available and carries nothing. */
    constructor Fresh(id: int, name: string)
      ensures this.id == id && this.name == name && status == Available
      ensures currentOrder == null && lastOrderTime == InitialOrderStamp
      ensures Consistent()
    {
      this.id := id;
      this.name := name;
      status := Available;
      currentOrder := null;
      lastOrderTime := InitialOrderStamp;
    }

    /** Takes `order` when available; a boy in any other status ignores it. */
    method AssignOrder(order: FoodOrder)
      modifies this, order
      ensures old(status) == Available ==>
        status == Busy && currentOrder == order && order.status == "dispatched"
      ensures old(status) != Available ==>
        status == old(status) && currentOrder == old(currentOrder) && order.status == old(order.status)
      ensures lastOrderTime == old(lastOrderTime)
      ensures old(Consistent()) ==> Consistent()
    {
      if status == Available {
        status := Busy;
        currentOrder := order;
        order.UpdateOrderStatus("dispatched");
      }
    }

    /**
     * Delivers the order being carried, if any, at clock reading `now`; with
     * no order nothing changes.
     */
    method CompleteOrder(now: int)
      modifies this, currentOrder
      ensures old(currentOrder) != null ==>
        old(currentOrder).status == "completed" && status == Available &&
        currentOrder == null && lastOrderTime == now
      ensures old(currentOrder) == null ==>
        status == old(status) && currentOrder == null && lastOrderTime == old(lastOrderTime)
      ensures old(Consistent()) ==> Consistent()
    {
      if currentOrder != null {
        currentOrder.UpdateOrderStatus("completed");
        status := Available;
        currentOrder := null;
        lastOrderTime := now;
      }
    }
  }
}
