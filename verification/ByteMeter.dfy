/** The per-connection byte cap of internal/tunnelagent/handler.go: one 64-bit counter charged by two pumps. */
module ByteMeter {
  import opened Common

  const DEFAULT_MAX_CONN_BYTES: int := 1073741824
  const TWO63: int := 0x8000_0000_0000_0000

  function Cap(maxConnBytes: int): int {
    if maxConnBytes <= 0 then DEFAULT_MAX_CONN_BYTES else maxConnBytes
  }

  /** The sum of two int64 values, wrapped around. */
  function Add64(a: int, n: int): int {
    if a + n >= TWO63 then a + n - 2 * TWO63
    else if a + n < -TWO63 then a + n + 2 * TWO63
    else a + n
  }

  /** The counter after several charges in a row. */
  function AddAll(counter: int, charges: seq<nat>): int
    decreases charges
  {
    if charges == [] then counter else AddAll(Add64(counter, charges[0]), charges[1..])
  }

  function Sum(charges: seq<nat>): nat {
    if charges == [] then 0 else charges[0] + Sum(charges[1..])
  }

  /** Charges that stay below 2^63 simply add up. */
  lemma {:induction false} AddAllIsSum(counter: nat, charges: seq<nat>)
    requires counter + Sum(charges) < TWO63
    ensures AddAll(counter, charges) == counter + Sum(charges)
    decreases charges
  {
    if charges != [] {
      assert Add64(counter, charges[0]) == counter + charges[0];
      AddAllIsSum(counter + charges[0], charges[1..]);
    }
  }

  datatype Side = Inbound | Outbound

  /** The counter, the bytes granted to each pump, and each pump's refused charge, after which it stops. */
  datatype Meter = Meter(counter: int, grantedIn: nat, grantedOut: nat, refusedIn: Option<nat>, refusedOut: Option<nat>)

  const FRESH: Meter := Meter(0, 0, 0, None, None)

  predicate Stopped(m: Meter, side: Side) {
    match side
    case Inbound => m.refusedIn.Some?
    case Outbound => m.refusedOut.Some?
  }

  predicate Grants(m: Meter, cap: int, n: nat) {
    Add64(m.counter, n) <= cap
  }

  function Charge(m: Meter, cap: int, side: Side, n: nat): Meter {
    var m' := m.(counter := Add64(m.counter, n));
    match (side, Grants(m, cap, n))
    case (Inbound, true) => m'.(grantedIn := m.grantedIn + n)
    case (Inbound, false) => m'.(refusedIn := Some(n))
    case (Outbound, true) => m'.(grantedOut := m.grantedOut + n)
    case (Outbound, false) => m'.(refusedOut := Some(n))
  }

  function Granted(m: Meter): nat {
    m.grantedIn + m.grantedOut
  }

  function Refused(m: Meter): nat {
    (if m.refusedIn.Some? then m.refusedIn.value else 0) + (if m.refusedOut.Some? then m.refusedOut.value else 0)
  }

  /** Room for one refused charge of each pump above the cap before the counter wraps. */
  predicate Headroom(cap: int, longestIn: nat, longestOut: nat) {
    cap + longestIn + longestOut < TWO63
  }

  predicate MeterOk(m: Meter, cap: int, longestIn: nat, longestOut: nat) {
    && m.counter == Granted(m) + Refused(m)
    && Granted(m) <= cap
    && (m.refusedIn.Some? ==> m.refusedIn.value <= longestIn)
    && (m.refusedOut.Some? ==> m.refusedOut.value <= longestOut)
    && (m.refusedIn.Some? || m.refusedOut.Some? ==> m.counter > cap)
  }

  lemma FreshMeterOk(cap: int, longestIn: nat, longestOut: nat)
    requires cap >= 0
    ensures MeterOk(FRESH, cap, longestIn, longestOut)
  {
  }

  /** With headroom a charge keeps the cap, and once one charge was refused every later one is. */
  lemma ChargeKeepsCap(m: Meter, cap: int, longestIn: nat, longestOut: nat, side: Side, n: nat)
    requires MeterOk(m, cap, longestIn, longestOut) && Headroom(cap, longestIn, longestOut)
    requires !Stopped(m, side) && n <= (if side.Inbound? then longestIn else longestOut)
    ensures MeterOk(Charge(m, cap, side, n), cap, longestIn, longestOut)
    ensures m.refusedIn.Some? || m.refusedOut.Some? ==> !Grants(m, cap, n)
  {
    assert Add64(m.counter, n) == m.counter + n;
  }

  // ----- every schedule of charges

  datatype Request = Request(side: Side, bytes: nat)

  /** Charges in order; a pump that was refused makes no further request. */
  function Charges(cap: int, requests: seq<Request>): Meter {
    if requests == [] then FRESH else
      var m, r := Charges(cap, requests[..|requests| - 1]), requests[|requests| - 1];
      if Stopped(m, r.side) then m else Charge(m, cap, r.side, r.bytes)
  }

  predicate Sized(requests: seq<Request>, longestIn: nat, longestOut: nat) {
    forall i :: 0 <= i < |requests| ==>
      1 <= requests[i].bytes <= if requests[i].side.Inbound? then longestIn else longestOut
  }

  /** Under this schedule the bytes granted stay within the cap. */
  ghost predicate WithinCap(cap: int, longestIn: nat, longestOut: nat, requests: seq<Request>) {
    Sized(requests, longestIn, longestOut) ==> Granted(Charges(cap, requests)) <= cap
  }

  lemma {:induction false} ChargesKeepCap(cap: int, longestIn: nat, longestOut: nat, requests: seq<Request>)
    requires cap >= 0 && Headroom(cap, longestIn, longestOut) && Sized(requests, longestIn, longestOut)
    ensures MeterOk(Charges(cap, requests), cap, longestIn, longestOut)
  {
    if requests != [] {
      var front, r := requests[..|requests| - 1], requests[|requests| - 1];
      ChargesKeepCap(cap, longestIn, longestOut, front);
      if !Stopped(Charges(cap, front), r.side) {
        ChargeKeepsCap(Charges(cap, front), cap, longestIn, longestOut, r.side, r.bytes);
      }
    }
  }

  /** The bytes one side asks for. */
  function Asked(requests: seq<Request>, side: Side): nat {
    if requests == [] then 0 else
      var r := requests[|requests| - 1];
      Asked(requests[..|requests| - 1], side) + if r.side == side then r.bytes else 0
  }

  /** Whatever the order, requests that fit the cap together are all granted, each to its side: exactly the bytes asked
      for, and none is refused. */
  lemma {:induction false} WhatFitsIsGranted(cap: int, requests: seq<Request>)
    requires Asked(requests, Inbound) + Asked(requests, Outbound) <= cap < TWO63
    ensures var a, b := Asked(requests, Inbound), Asked(requests, Outbound);
            Charges(cap, requests) == Meter(a + b, a, b, None, None)
  {
    if requests != [] {
      var front, r := requests[..|requests| - 1], requests[|requests| - 1];
      WhatFitsIsGranted(cap, front);
      assert Add64(Charges(cap, front).counter, r.bytes) == Charges(cap, front).counter + r.bytes;
    }
  }

  /** A schedule that uses up exactly k bytes of the cap, one at a time. */
  function Ones(k: nat): seq<Request> {
    if k == 0 then [] else Ones(k - 1) + [Request(Outbound, 1)]
  }

  lemma {:induction false} OnesUseUp(cap: int, k: nat)
    requires k <= cap < TWO63
    ensures Charges(cap, Ones(k)) == FRESH.(counter := k, grantedOut := k)
    ensures Sized(Ones(k), 1, 1)
  {
    if k > 0 {
      OnesUseUp(cap, k - 1);
      assert Ones(k)[..|Ones(k)| - 1] == Ones(k - 1);
      assert Add64(k - 1, 1) == k;
    }
  }

  lemma ChargesSnoc(cap: int, requests: seq<Request>, r: Request)
    ensures Charges(cap, requests + [r]) ==
            var m := Charges(cap, requests); if Stopped(m, r.side) then m else Charge(m, cap, r.side, r.bytes)
  {
    assert (requests + [r])[..|requests|] == requests;
  }

  lemma SizedSnoc(requests: seq<Request>, r: Request, longestIn: nat, longestOut: nat)
    requires Sized(requests, longestIn, longestOut) && 1 <= r.bytes <= if r.side.Inbound? then longestIn else longestOut
    ensures Sized(requests + [r], longestIn, longestOut)
  {
  }

  lemma OnesSized(cap: int, longestIn: nat, longestOut: nat)
    requires 0 < cap < TWO63 && longestIn >= 1 && longestOut >= 1
    ensures Sized(Ones(cap), longestIn, longestOut)
  {
    OnesUseUp(cap, cap);
  }

  /** A single charge that wraps the counter of a used-up cap is granted. */
  lemma WrapInOne(cap: int, side: Side)
    requires 0 < cap < TWO63
    ensures Granted(Charges(cap, Ones(cap) + [Request(side, TWO63 - cap)])) == TWO63
  {
    OnesUseUp(cap, cap);
    ChargesSnoc(cap, Ones(cap), Request(side, TWO63 - cap));
  }

  /** A refused charge followed by one that wraps the counter: the second is granted. */
  lemma WrapInTwo(cap: int, first: nat)
    requires 0 < cap < TWO63 && 1 <= first < TWO63 - cap
    ensures Granted(Charges(cap, Ones(cap) + [Request(Inbound, first)] +
                            [Request(Outbound, TWO63 - cap - first)])) > cap
  {
    OnesUseUp(cap, cap);
    ChargesSnoc(cap, Ones(cap), Request(Inbound, first));
    assert Charges(cap, Ones(cap) + [Request(Inbound, first)]) == Meter(cap + first, 0, cap, Some(first), None);
    ChargesSnoc(cap, Ones(cap) + [Request(Inbound, first)], Request(Outbound, TWO63 - cap - first));
  }

  /** Without headroom some schedule wraps the counter and is granted more than the cap. */
  lemma {:induction false} WrapDefeatsCap(cap: int, longestIn: nat, longestOut: nat) returns (requests: seq<Request>)
    requires 0 < cap < TWO63 && longestIn >= 1 && longestOut >= 1 && !Headroom(cap, longestIn, longestOut)
    ensures Sized(requests, longestIn, longestOut) && Granted(Charges(cap, requests)) > cap
  {
    OnesSized(cap, longestIn, longestOut);
    var gap := TWO63 - cap;
    if gap <= longestOut || gap <= longestIn {
      var side := if gap <= longestOut then Outbound else Inbound;
      requests := Ones(cap) + [Request(side, gap)];
      SizedSnoc(Ones(cap), Request(side, gap), longestIn, longestOut);
      WrapInOne(cap, side);
    } else {
      var first, second := Request(Inbound, longestIn), Request(Outbound, gap - longestIn);
      requests := Ones(cap) + [first] + [second];
      SizedSnoc(Ones(cap), first, longestIn, longestOut);
      SizedSnoc(Ones(cap) + [first], second, longestIn, longestOut);
      WrapInTwo(cap, longestIn);
    }
  }

  /** The cap holds under every schedule exactly when there is headroom for one refused charge of each pump. */
  lemma CapHoldsExactlyWithHeadroom(cap: int, longestIn: nat, longestOut: nat)
    requires 0 < cap < TWO63 && longestIn >= 1 && longestOut >= 1
    ensures (forall requests :: WithinCap(cap, longestIn, longestOut, requests))
            <==> Headroom(cap, longestIn, longestOut)
  {
    if Headroom(cap, longestIn, longestOut) {
      forall requests
        ensures WithinCap(cap, longestIn, longestOut, requests)
      {
        if Sized(requests, longestIn, longestOut) { ChargesKeepCap(cap, longestIn, longestOut, requests); }
      }
    } else {
      var requests := WrapDefeatsCap(cap, longestIn, longestOut);
      assert !WithinCap(cap, longestIn, longestOut, requests);
    }
  }
}
