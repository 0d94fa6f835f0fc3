/**
 * The delivery-boy assignment strategies of
 * FoodDelivery/DeliveryAssignmentStrategy.py. Each strategy looks only at the
 * boys whose status is "available", picks one, and hands it the order.
 */
module DeliveryStrategies {
  import opened DeliveryBoys

  /** The available boys, in list order. */
  function Availables(boys: seq<DeliveryBoy>): (r: seq<DeliveryBoy>)
    reads boys
    ensures |r| <= |boys|
    ensures forall i :: 0 <= i < |r| ==> r[i] in boys && r[i].status == Available
    ensures forall i :: 0 <= i < |boys| && boys[i].status == Available ==> boys[i] in r
  {
    if boys == [] then []
    else if boys[0].status == Available then [boys[0]] + Availables(boys[1..])
    else Availables(boys[1..])
  }

  /**
   * The filter works element by element: filtering a concatenation filters
   * each part and keeps them in order. With the singleton case above this
   * fixes the order and multiplicity of the result.
   */
  lemma {:induction false} AvailablesAppend(a: seq<DeliveryBoy>, b: seq<DeliveryBoy>)
    ensures Availables(a + b) == Availables(a) + Availables(b)
  {
    if a != [] {
      assert (a + b)[1..] == a[1..] + b;
      AvailablesAppend(a[1..], b);
    } else {
      assert a + b == b;
    }
  }

  /**
   * Index of the boy a stable sort on the last-order stamp puts first: a
   * minimal stamp, and the earliest in the list among equal stamps.
   */
  function Earliest(boys: seq<DeliveryBoy>): (k: nat)
    requires boys != []
    reads boys
    ensures k < |boys|
    ensures forall j :: 0 <= j < |boys| ==> boys[k].lastOrderTime <= boys[j].lastOrderTime
    ensures forall j :: 0 <= j < k ==> boys[j].lastOrderTime > boys[k].lastOrderTime
  {
    if |boys| == 1 then 0
    else
      var k := Earliest(boys[1..]) + 1;
      if boys[0].lastOrderTime <= boys[k].lastOrderTime then 0 else k
  }

  /** Round-robin assignment over the currently available boys. */
  class RoundRobin {
    var lastAssignedIndex: int

    constructor ()
      ensures lastAssignedIndex == -1
    {
      lastAssignedIndex := -1;
    }

    method AssignDeliveryBoy(order: FoodOrder, boys: seq<DeliveryBoy>) returns (selected: DeliveryBoy?)
      modifies this, order, set b: DeliveryBoy | b in boys
      ensures var avail := old(Availables(boys));
        if avail == [] then
          selected == null && lastAssignedIndex == old(lastAssignedIndex) &&
          order.status == old(order.status)
        else
          0 <= lastAssignedIndex < |avail| &&
          lastAssignedIndex == (old(lastAssignedIndex) + 1) % |avail| &&
          selected == avail[lastAssignedIndex] &&
          selected.status == Busy && selected.currentOrder == order && order.status == "dispatched" &&
          selected.lastOrderTime == old(selected.lastOrderTime)
      ensures forall b :: b in boys && b != selected ==> unchanged(b)
    {
      var available := Availables(boys);
      if available == [] {
        return null;
      }
      lastAssignedIndex := (lastAssignedIndex + 1) % |available|;
      selected := available[lastAssignedIndex];
      selected.AssignOrder(order);
    }
  }

  /** Assignment to the available boy whose last order is the oldest. */
  method AssignByLastOrderTime(order: FoodOrder, boys: seq<DeliveryBoy>) returns (selected: DeliveryBoy?)
    modifies order, set b: DeliveryBoy | b in boys
    ensures var avail := old(Availables(boys));
      if avail == [] then
        selected == null && order.status == old(order.status)
      else
        selected == avail[Earliest(avail)] &&
        selected.status == Busy && selected.currentOrder == order && order.status == "dispatched" &&
        selected.lastOrderTime == old(selected.lastOrderTime)
    ensures forall b :: b in boys && b != selected ==> unchanged(b)
  {
    var available := Availables(boys);
    if available == [] {
      return null;
    }
    selected := available[Earliest(available)];
    selected.AssignOrder(order);
  }
}
