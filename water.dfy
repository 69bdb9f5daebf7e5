/** Vocabulary shared by the two container designs. */
module Water {

  /** How an `add_water` call ends: the new level is committed, or the call is
      refused (the source raises `RuntimeError`) and nothing changes. */
  datatype Outcome = Ok | InsufficientWater

  /** One call of the public interface, on containers numbered 0 .. n-1:
      `containers[container].add_water(amount)` or
      `containers[container].connect_to(containers[other])`. */
  datatype Call =
    | AddWater(container: nat, amount: real)
    | ConnectTo(container: nat, other: nat)
  {
    /** The call only names containers among the first `n`. */
    predicate Names(n: nat) {
      match this
      case AddWater(c, _) => c < n
      case ConnectTo(c, o) => c < n && o < n
    }
  }
}
