/**
 Packet identifiers of outgoing QoS 1 and 2 messages: the counter `_nextId` of a
 client and the packets built by lib/qos-packet.js. Section 2.3.1 of MQTT 3.1.1 asks
 for a non-zero 16-bit identifier that no other message in flight is using.
 */
module PacketIds {

  const MAX_ID: nat := 65535

  predicate ValidId(id: nat) { 1 <= id <= MAX_ID }

  /** The counter after one fresh allocation. */
  function Advance(nextId: nat): (r: nat) {
    if nextId >= MAX_ID then 1 else nextId + 1
  }

  /** The counter after k fresh allocations, which is also the k-th identifier handed out, counted from 0. */
  function FreshId(start: nat, k: nat): (id: nat) {
    if k == 0 then start else Advance(FreshId(start, k - 1))
  }

  lemma {:induction false} FreshIdClosedForm(start: nat, k: nat)
    requires ValidId(start)
    ensures FreshId(start, k) == (start - 1 + k) % MAX_ID + 1
  {
    if k == 0 {
    } else {
      FreshIdClosedForm(start, k - 1);
      ModSuccessor(start - 1 + (k - 1));
    }
  }

  lemma ModSuccessor(n: nat)
    ensures (n + 1) % MAX_ID == if n % MAX_ID == MAX_ID - 1 then 0 else n % MAX_ID + 1
  {}

  /** Every identifier handed out is a legal one exactly when the counter starts at one. */
  lemma {:induction false} AllFreshIdsValid(start: nat)
    ensures (forall k: nat :: ValidId(FreshId(start, k))) <==> ValidId(start)
  {
    if ValidId(start) {
      forall k: nat ensures ValidId(FreshId(start, k)) {
        FreshIdClosedForm(start, k);
      }
    } else {
      assert !ValidId(FreshId(start, 0));
    }
  }

  /** Two allocations hand out the same identifier exactly when they are a multiple of 65535 apart. */
  lemma FreshIdsCollide(start: nat, i: nat, j: nat)
    requires ValidId(start) && i <= j
    ensures FreshId(start, i) == FreshId(start, j) <==> (j - i) % MAX_ID == 0
  {
    FreshIdClosedForm(start, i);
    FreshIdClosedForm(start, j);
    ModDifference(start - 1 + i, start - 1 + j);
  }

  lemma ModDifference(a: nat, b: nat)
    requires a <= b
    ensures a % MAX_ID == b % MAX_ID <==> (b - a) % MAX_ID == 0
  {
    var qa, qb := a / MAX_ID, b / MAX_ID;
    assert a == qa * MAX_ID + a % MAX_ID && b == qb * MAX_ID + b % MAX_ID;
  }

  /** The identifiers that the last `window` of the first handedOut allocations gave. */
  ghost function RecentIds(start: nat, handedOut: nat, window: nat): (ids: set<nat>) {
    set k | handedOut - window <= k < handedOut && k >= 0 :: FreshId(start, k)
  }

  lemma SmallRemainder(d: nat)
    requires 0 < d < MAX_ID
    ensures d % MAX_ID != 0
  {}

  /** As long as every identifier in use comes from the last 65534 allocations, the next one is unused. */
  lemma NextIdUnused(start: nat, handedOut: nat, inUse: set<nat>)
    requires ValidId(start) && inUse <= RecentIds(start, handedOut, MAX_ID - 1)
    ensures FreshId(start, handedOut) !in inUse
  {
    var next := FreshId(start, handedOut);
    if next in inUse {
      assert next in RecentIds(start, handedOut, MAX_ID - 1);
      var k: nat :| handedOut - (MAX_ID - 1) <= k < handedOut && next == FreshId(start, k);
      FreshIdsCollide(start, k, handedOut);
      SmallRemainder(handedOut - k);
    }
  }

  /** 65534 is the most: the allocation one further back gave the next identifier itself. */
  lemma WindowIsTight(start: nat, handedOut: nat)
    requires ValidId(start) && handedOut >= MAX_ID
    ensures FreshId(start, handedOut) in RecentIds(start, handedOut, MAX_ID)
  {
    FreshIdsCollide(start, handedOut - MAX_ID, handedOut);
  }

  /** The part of a client that hands out identifiers. */
  class IdSource {
    var nextId: nat
    ghost const start: nat
    ghost var handedOut: nat

    ghost predicate Valid() reads this {
      nextId == FreshId(start, handedOut)
    }

    /** The program draws the start at random between 0 and 65535. */
    constructor (start: nat)
      ensures Valid() && this.start == start && nextId == start && handedOut == 0
    {
      nextId, this.start, handedOut := start, start, 0;
    }

    /** original is the identifier the packet already carries, 0 when it carries none. */
    method Assign(original: nat) returns (messageId: nat)
      requires Valid()
      modifies this
      ensures Valid()
      ensures original != 0 ==> messageId == original && nextId == old(nextId) && handedOut == old(handedOut)
      ensures original == 0 ==> messageId == FreshId(start, old(handedOut)) && handedOut == old(handedOut) + 1
    {
      if original == 0 {
        messageId := nextId;
        if nextId >= MAX_ID {
          nextId := 1;
        } else {
          nextId := nextId + 1;
        }
        handedOut := handedOut + 1;
      } else {
        messageId := original;
      }
    }
  }
}
