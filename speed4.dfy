/** The count design (speed4/container.py): a group record stores the total
    liquid of the group and the number of containers that joined it; a
    container's amount is that total divided by that number. */
module Speed4 {
  import opened Water

  /** The shared `_Group` record, updated in place. */
  class Group {
    /** Total liquid held by the group. */
    var amount: real
    /** Number of containers counted into the group. */
    var count: int

    constructor ()
      ensures amount == 0.0 && count == 1
    {
      amount := 0.0;
      count := 1;
    }
  }

  class Container {
    /** The group record this container currently points at. */
    var group: Group

    /** What every reachable group record satisfies: the division in
        `Amount` is defined and the total is not negative. */
    ghost predicate Valid()
      reads this, group
    {
      group.count >= 1 && group.amount >= 0.0
    }

    /** A new container gets a record of its own, empty and counting one member. */
    constructor ()
      ensures fresh(group) && group.amount == 0.0 && group.count == 1
      ensures Valid() && Amount() == 0.0
    {
      group := new Group();
    }

    /** The per-container level. Multiplied back by the count it gives the
        group's total, and it is never negative while the total is not. */
    function Amount(): (r: real)
      reads this, group
      requires group.count >= 1
      ensures r * group.count as real == group.amount
      ensures group.amount >= 0.0 ==> r >= 0.0
    {
      group.amount / group.count as real
    }

    /** Adds `amount` (negative to drain) to the group's total, unless the
        total would drop below zero; then nothing changes. Only this
        container's group record is written. */
    method AddWater(amount: real, ghost world: set<Container>) returns (outcome: Outcome)
      requires this in world && Consistent(world)
      modifies group
      ensures Consistent(world)
      ensures outcome == InsufficientWater <==> old(group.amount) + amount < 0.0
      ensures group.amount == (if outcome == Ok then old(group.amount) + amount else old(group.amount))
      ensures group.count == old(group.count)
    {
      var newAmount := group.amount + amount;
      if newAmount < 0.0 {
        return InsufficientWater;
      }
      group.amount := newAmount;
      outcome := Ok;
    }

    /** Connecting a container to itself does nothing. Otherwise the other
        group's total and count are added into this container's record and
        `other` (only `other`) is pointed at it; the remaining members of
        other's old group keep their old record. When both already share a
        record, its total and count are both doubled. */
    method ConnectTo(other: Container, ghost world: set<Container>)
      requires this in world && other in world && Consistent(world)
      modifies group, other`group
      ensures Consistent(world)
      ensures group == old(group)
      ensures this == other ==> group.amount == old(group.amount) && group.count == old(group.count)
      ensures this != other ==>
        && group.amount == old(group.amount) + old(other.group.amount)
        && group.count == old(group.count) + old(other.group.count)
        && other.group == group
      ensures forall c :: c in world && c != other ==> c.group == old(c.group)
    {
      if this == other {
        return;
      }
      group.amount := group.amount + other.group.amount;
      group.count := group.count + other.group.count;
      other.group := group;
    }
  }

  /** The invariant over all containers created so far. */
  ghost predicate Consistent(world: set<Container>)
    reads world, set c | c in world :: c.group
  {
    forall c :: c in world ==> c.Valid()
  }

  /** Creates `n` containers, runs an arbitrary sequence of calls on them and
      reads every container's amount and its group's count: whatever the
      calls, each count, by which `Amount` divides, is at least 1, and each
      amount is not negative. */
  method Replay(n: nat, calls: seq<Call>) returns (amounts: seq<real>, counts: seq<int>)
    requires forall k :: 0 <= k < |calls| ==> calls[k].Names(n)
    ensures |amounts| == n && |counts| == n
    ensures forall i :: 0 <= i < n ==> amounts[i] >= 0.0 && counts[i] >= 1
  {
    var containers: seq<Container> := [];
    ghost var world: set<Container> := {};
    while |containers| < n
      invariant |containers| <= n
      invariant world == set c | c in containers
      invariant forall c :: c in world ==> fresh(c) && fresh(c.group)
      invariant Consistent(world)
    {
      var c := new Container();
      containers := containers + [c];
      world := world + {c};
    }
    var k := 0;
    while k < |calls|
      invariant k <= |calls|
      invariant world == set c | c in containers
      invariant forall c :: c in world ==> fresh(c) && fresh(c.group)
      invariant Consistent(world)
    {
      match calls[k] {
        case AddWater(i, amount) =>
          assert containers[i] in world;
          var _ := containers[i].AddWater(amount, world);
        case ConnectTo(i, j) =>
          assert containers[i] in world && containers[j] in world;
          containers[i].ConnectTo(containers[j], world);
      }
      k := k + 1;
    }
    amounts, counts := [], [];
    while |amounts| < n
      invariant |amounts| <= n && |counts| == |amounts|
      invariant forall i :: 0 <= i < |amounts| ==> amounts[i] >= 0.0 && counts[i] >= 1
      invariant Consistent(world)
    {
      var c := containers[|amounts|];
      assert c in world;
      counts := counts + [c.group.count];
      amounts := amounts + [c.Amount()];
    }
  }

  /** The steps of test_use_case, in its order: `a` and `d` get 12 and 8,
      then `a.connect_to(b)` and `b.connect_to(c)`. */
  method UseCaseSteps() returns (a: Container, b: Container, c: Container, d: Container)
    ensures fresh(a.group) && fresh(d.group) && a.group != d.group
    ensures b.group == a.group && c.group == a.group
    ensures a.group.amount == 12.0 && a.group.count == 3
    ensures d.group.amount == 8.0 && d.group.count == 1
  {
    a := new Container();
    b := new Container();
    c := new Container();
    d := new Container();
    ghost var world := {a, b, c, d};
    var _ := a.AddWater(12.0, world);
    var _ := d.AddWater(8.0, world);
    assert a.group.amount == 12.0 && d.group.amount == 8.0;
    a.ConnectTo(b, world);
    assert b.group == a.group && a.group.amount == 12.0 && a.group.count == 2;
    b.ConnectTo(c, world);
  }

  /** test_use_case: 12 shared by three containers, 8 in a fourth. */
  method UseCase() returns (amountA: real, amountB: real, amountC: real, amountD: real)
    ensures amountA == 4.0 && amountB == 4.0 && amountC == 4.0 && amountD == 8.0
  {
    var a, b, c, d := UseCaseSteps();
    amountA, amountB, amountC, amountD := a.Amount(), b.Amount(), c.Amount(), d.Amount();
  }

  /** test_insufficient_water_single: draining 10 from 5 is refused and the
      amount stays 5. */
  method InsufficientWaterSingle() returns (outcome: Outcome, amountA: real)
    ensures outcome == InsufficientWater && amountA == 5.0
  {
    var a := new Container();
    ghost var world := {a};
    var _ := a.AddWater(1.0, world);
    var _ := a.AddWater(2.0, world);
    var _ := a.AddWater(2.0, world);
    outcome := a.AddWater(-10.0, world);
    amountA := a.Amount();
  }

  /** test_insufficient_water_multiple: draining 13 from a group of three
      sharing 12 is refused. */
  method InsufficientWaterMultiple() returns (outcome: Outcome, amountA: real)
    ensures outcome == InsufficientWater && amountA == 4.0
  {
    var a := new Container();
    var b := new Container();
    var c := new Container();
    ghost var world := {a, b, c};
    var _ := a.AddWater(12.0, world);
    a.ConnectTo(b, world);
    b.ConnectTo(c, world);
    outcome := a.AddWater(-13.0, world);
    amountA := a.Amount();
  }

  /** test_connect_to_myself: the amount stays 12. */
  method ConnectToMyself() returns (amountA: real)
    ensures amountA == 12.0
  {
    var a := new Container();
    ghost var world := {a};
    var _ := a.AddWater(12.0, world);
    a.ConnectTo(a, world);
    amountA := a.Amount();
  }

  /** test_bidirectional_connection: connecting back within one group doubles
      the record's total and count, so the amount stays 6. */
  method BidirectionalConnection() returns (amountA: real, total: real, count: int)
    ensures amountA == 6.0 && total == 24.0 && count == 4
  {
    var a := new Container();
    var b := new Container();
    ghost var world := {a, b};
    var _ := a.AddWater(12.0, world);
    a.ConnectTo(b, world);
    b.ConnectTo(a, world);
    amountA, total, count := a.Amount(), a.group.amount, a.group.count;
  }

  /** The steps of test_arbitrary_use_case, in its order. `a.connect_to(b)`
      puts `a` and `b` on one record; `c.connect_to(a)` then moves only `a`
      to `c`'s record, so `b` is left on the older one. */
  method ArbitraryUseCaseSteps() returns (a: Container, b: Container, c: Container)
    ensures fresh(a) && fresh(b) && fresh(c) && fresh(a.group) && fresh(b.group)
    ensures Consistent({a, b, c})
    ensures a.group == c.group && a.group.amount == 18.0 && a.group.count == 3
    ensures b.group != a.group && b.group.amount == 12.0 && b.group.count == 2
  {
    a := new Container();
    b := new Container();
    c := new Container();
    ghost var world := {a, b, c};
    var _ := a.AddWater(2.0, world);
    var _ := b.AddWater(4.0, world);
    assert a.group.amount == 2.0 && b.group.amount == 4.0;
    a.ConnectTo(b, world);
    assert b.group == a.group && a.group.amount == 6.0 && a.group.count == 2;
    var _ := c.AddWater(6.0, world);
    var _ := b.AddWater(6.0, world);
    assert c.group.amount == 6.0 && c.group.count == 1 && a.group.amount == 12.0;
    c.ConnectTo(a, world);
  }

  /** test_arbitrary_use_case: all three read 6, although b is left on an
      older record than a and c. */
  method ArbitraryUseCase() returns (amountA: real, amountB: real, amountC: real, shared: bool)
    ensures amountA == 6.0 && amountB == 6.0 && amountC == 6.0
    ensures !shared
  {
    var a, b, c := ArbitraryUseCaseSteps();
    amountA, amountB, amountC := a.Amount(), b.Amount(), c.Amount();
    shared := a.group == b.group;
  }

  /** The arbitrary use case followed by adding 3 to `a`: `c` sees it, `b`,
      left on the older record, does not. */
  method StaleGroupAfterChainedMerge() returns (amountA: real, amountB: real, amountC: real)
    ensures amountA == 7.0 && amountB == 6.0 && amountC == 7.0
  {
    var a, b, c := ArbitraryUseCaseSteps();
    var _ := a.AddWater(3.0, {a, b, c});
    amountA, amountB, amountC := a.Amount(), b.Amount(), c.Amount();
  }
}
