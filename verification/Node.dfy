/** The node adapter's wait for a delivery (facilitator/exact/node.go:142-175): the contract the
    settle rests on. */
module Node {
  import opened Facilitator

  /** One lookup of the transaction: a block holds it, executed or aborted, or the lookup failed,
      as it does for a transaction not found yet. */
  datatype Lookup = Found(aborted: bool) | LookupFailed

  /** Asks until a lookup finds the transaction or the context ends; lookups is what the node would
      answer, one each poll, the context ending with the last. No client or a hash that is no hex
      asks nothing. */
  method AwaitDelivery(
    client: bool, hexadecimal: bool, lookups: seq<Lookup>) returns (answer: DeliveryAnswer, asked: nat)
    requires lookups != []
    ensures answer == Delivered <==>
              client && hexadecimal && exists i :: FirstFound(lookups, i) && !lookups[i].aborted
    ensures answer == DeliveryAborted <==>
              client && hexadecimal && exists i :: FirstFound(lookups, i) && lookups[i].aborted
    ensures answer == NotSeen <==>
              !client || !hexadecimal || forall i :: 0 <= i < |lookups| ==> lookups[i] == LookupFailed
    ensures answer != NotSeen ==> asked > 0 && FirstFound(lookups, asked - 1)
  {
    if !client || !hexadecimal {
      return NotSeen, 0;
    }
    asked := 0;
    while asked < |lookups|
      invariant asked <= |lookups|
      invariant forall i :: 0 <= i < asked ==> lookups[i] == LookupFailed
    {
      var res := lookups[asked];
      asked := asked + 1;
      if res.Found? {
        assert FirstFound(lookups, asked - 1);
        return if res.aborted then DeliveryAborted else Delivered, asked;
      }
    }
    return NotSeen, asked;
  }

  /** The lookup that first found the transaction. */
  predicate FirstFound(lookups: seq<Lookup>, i: int) {
    0 <= i < |lookups| && lookups[i].Found? && forall j :: 0 <= j < i ==> lookups[j] == LookupFailed
  }
}
