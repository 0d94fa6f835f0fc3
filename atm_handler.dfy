/**
 * The ATM note dispenser of Logger/Atm_Handler.py: a chain of handlers, each
 * with one denomination, that hands out as many notes of its denomination as
 * fit and passes the rest down the chain.
 *
 * A chain is the sequence of its handlers' denominations, head first. What a
 * request prints is returned as a sequence of events.
 */
module AtmHandler {

  datatype Event =
    | Notes(count: int, denomination: int)   // "<count> x <denomination> notes"
    | CannotDispense(remainder: int)         // "Cannot dispense <remainder> ..."

  predicate ValidChain(chain: seq<int>)
  {
    |chain| > 0 && forall i :: 0 <= i < |chain| ==> chain[i] > 0
  }

  /**
   * The notes and remainder one handler computes: integer division when the
   * amount reaches the denomination, otherwise no notes and the whole amount.
   */
  function Split(d: int, amount: int): (r: (int, int))
    requires d > 0
    ensures amount >= 0 ==> r.0 * d + r.1 == amount && 0 <= r.1 < d && r.0 >= 0
    ensures amount < 0 ==> r == (0, amount)
  {
    if amount >= d then (amount / d, amount % d) else (0, amount)
  }

  /** For a non-negative amount both branches of a handler agree with plain div and mod. */
  lemma SplitIsDivMod(d: int, amount: int)
    requires d > 0 && amount >= 0
    ensures Split(d, amount) == (amount / d, amount % d)
  {
    if amount < d {
      assert amount / d == 0 && amount % d == amount;
    }
  }

  /** `handle_request` on the chain whose head has denomination chain[0]. */
  function HandleRequest(chain: seq<int>, amount: int): (events: seq<Event>)
    requires ValidChain(chain)
    ensures amount >= 0 ==> Dispensed(events) + Leftover(events) == amount
    ensures 0 <= Leftover(events) < chain[|chain| - 1]
    ensures forall i :: 0 <= i < |events| && events[i].Notes? ==> events[i].count >= 1 && events[i].denomination in chain
    ensures forall i :: 0 <= i < |events| && events[i].CannotDispense? ==> i == |events| - 1 && events[i].remainder > 0
    decreases |chain|
  {
    var d := chain[0];
    var (notes, remainder) := Split(d, amount);
    var issued := if amount >= d then [Notes(notes, d)] else [];
    var rest :=
      if remainder > 0 && |chain| > 1 then HandleRequest(chain[1..], remainder)
      else if remainder > 0 then [CannotDispense(remainder)]
      else [];
    AppendTotals(issued, rest);
    issued + rest
  }

  /** Value of the notes handed out. */
  function Dispensed(events: seq<Event>): int
  {
    if events == [] then 0
    else (if events[0].Notes? then events[0].count * events[0].denomination else 0) + Dispensed(events[1..])
  }

  /** The amount reported as undispensable (zero when nothing is). */
  function Leftover(events: seq<Event>): int
  {
    if events == [] then 0
    else (if events[0].CannotDispense? then events[0].remainder else 0) + Leftover(events[1..])
  }

  lemma AppendTotals(a: seq<Event>, b: seq<Event>)
    requires |a| <= 1 && forall i :: 0 <= i < |a| ==> a[i].Notes?
    ensures Dispensed(a + b) == Dispensed(a) + Dispensed(b)
    ensures Leftover(a + b) == Leftover(b)
  {
    if |a| == 1 {
      assert (a + b)[1..] == b;
    } else {
      assert a + b == b;
    }
  }

  /** The configured chain: 2000, then 500, then 100. */
  const Configured: seq<int> := [2000, 500, 100]

  /** With the configured chain, what cannot be dispensed is the amount modulo 100. */
  lemma ConfiguredLeftover(amount: int)
    requires amount >= 0
    ensures Leftover(HandleRequest(Configured, amount)) == amount % 100
  {
    LeftoverOfDispensing(Configured, amount);
    assert Configured[1..] == [500, 100];
    assert Configured[1..][1..] == [100];
    NestedMod(amount);
  }

  /** 100 divides 500 and 2000, so reducing modulo those first changes nothing modulo 100. */
  lemma NestedMod(a: int)
    requires a >= 0
    ensures a % 2000 % 500 % 100 == a % 100
  {
    var q1, r1 := a / 2000, a % 2000;
    var q2, r2 := r1 / 500, r1 % 500;
    var q3, r3 := r2 / 100, r2 % 100;
    assert a == 100 * (20 * q1 + 5 * q2 + q3) + r3;
  }

  /** The leftover is what the last handler is passed, reduced modulo its denomination. */
  lemma {:induction false} LeftoverOfDispensing(chain: seq<int>, amount: int)
    requires ValidChain(chain) && amount >= 0
    ensures Leftover(HandleRequest(chain, amount)) == Final(chain, amount)
    decreases |chain|
  {
    var d := chain[0];
    var rem := amount % d;
    LeftoverStep(chain, amount);
    if |chain| > 1 && rem > 0 {
      LeftoverOfDispensing(chain[1..], rem);
    } else if |chain| > 1 {
      FinalOfZero(chain[1..]);
    }
  }

  /** One handler's contribution to the leftover. */
  lemma LeftoverStep(chain: seq<int>, amount: int)
    requires ValidChain(chain) && amount >= 0
    ensures var rem := amount % chain[0];
      Leftover(HandleRequest(chain, amount)) ==
        if rem > 0 && |chain| > 1 then Leftover(HandleRequest(chain[1..], rem)) else rem
  {
    var d := chain[0];
    SplitIsDivMod(d, amount);
    var (notes, remainder) := Split(d, amount);
    var issued := if amount >= d then [Notes(notes, d)] else [];
    var rest :=
      if remainder > 0 && |chain| > 1 then HandleRequest(chain[1..], remainder)
      else if remainder > 0 then [CannotDispense(remainder)]
      else [];
    AppendTotals(issued, rest);
    assert HandleRequest(chain, amount) == issued + rest;
  }

  /** The amount left after every handler of the chain has taken its notes. */
  function Final(chain: seq<int>, amount: int): int
    requires ValidChain(chain) && amount >= 0
    decreases |chain|
  {
    if |chain| == 1 then amount % chain[0] else Final(chain[1..], amount % chain[0])
  }

  lemma {:induction false} FinalOfZero(chain: seq<int>)
    requires ValidChain(chain)
    ensures Final(chain, 0) == 0
    decreases |chain|
  {
    if |chain| > 1 {
      FinalOfZero(chain[1..]);
    }
  }

  lemma Withdraw2500()
    ensures HandleRequest(Configured, 2500) == [Notes(1, 2000), Notes(1, 500)]
  {
  }

  lemma Withdraw3700()
    ensures HandleRequest(Configured, 3700) == [Notes(1, 2000), Notes(3, 500), Notes(2, 100)]
  {
  }

  lemma Withdraw75()
    ensures HandleRequest(Configured, 75) == [CannotDispense(75)]
  {
  }
}
