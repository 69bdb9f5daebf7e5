/** The set design (seriously_good_code/container.py): a group record stores
    the level every member holds and the set of member containers. */
module SeriouslyGoodCode {
  import opened Water

  /** The shared `_Group` record, updated in place. */
  class Group {
    /** The level each member container holds. */
    var level: real
    /** The containers counted into the group. */
    var members: set<Container>

    constructor ()
      ensures level == 0.0 && members == {}
    {
      level := 0.0;
      members := {};
    }
  }

  class Container {
    /** The group record this container currently points at. */
    var group: Group

    /** What every container satisfies: it is a member of its own group's set
        (so that set is not empty and the divisions by its size are defined)
        and the group's level is not negative. */
    ghost predicate Valid()
      reads this, group
    {
      this in group.members && group.level >= 0.0
    }

    /** A new container gets a record of its own, at level 0, whose only
        member is the new container. */
    constructor ()
      ensures fresh(group) && group.level == 0.0 && group.members == {this}
      ensures Valid() && Amount() == 0.0
    {
      group := new Group();
      new;
      group.members := {this};
    }

    /** The level of the container's group, which every member observes. */
    function Amount(): (r: real)
      reads this, group
      requires Valid()
      ensures r >= 0.0
      ensures r == group.level
    {
      group.level
    }

    /** Spreads `amount` (negative to drain) evenly over the group's members,
        unless the new level would be negative; then nothing changes. Stated
        on the group's water (level times member count): it grows by exactly
        `amount`, or the call is refused because it would become negative.
        Only the level of this container's group record is written. */
    method AddWater(amount: real, ghost world: set<Container>) returns (outcome: Outcome)
      requires this in world && Consistent(world)
      modifies group
      ensures Consistent(world)
      ensures group.members == old(group.members)
      ensures outcome == InsufficientWater <==>
        old(group.level) * |group.members| as real + amount < 0.0
      ensures outcome == Ok ==>
        group.level * |group.members| as real == old(group.level) * |group.members| as real + amount
      ensures outcome == InsufficientWater <==> old(group.level) + amount / |group.members| as real < 0.0
      ensures outcome == InsufficientWater ==> group.level == old(group.level)
    {
      var newLevel := group.level + amount / |group.members| as real;
      if newLevel < 0.0 {
        return InsufficientWater;
      }
      group.level := newLevel;
      outcome := Ok;
    }

    /** Adds every member of other's group to this container's group, points
        `other` (only `other`) at this container's group, and sets the level
        to this group's old water spread over the new member set: the water
        of other's group is not added. The remaining members of other's old
        group keep their old record. */
    method ConnectTo(other: Container, ghost world: set<Container>)
      requires this in world && other in world && Consistent(world)
      modifies group, other`group
      ensures Consistent(world)
      ensures group == old(group) && other.group == group
      ensures group.members == old(group.members) + old(other.group.members)
      ensures group.level == old(group.level) * |old(group.members)| as real / |group.members| as real
      ensures group.level * |group.members| as real == old(group.level) * |old(group.members)| as real
      ensures forall c :: c in world && c != other ==> c.group == old(c.group)
    {
      var amountInGroup := group.level * |group.members| as real;
      Absorb(other, world);
      group.level := amountInGroup / |group.members| as real;
    }

    /** The loop of `connect_to`: each member of other's group is added to
        this container's group, and `other` (only `other`) is pointed at this
        container's group. Levels are not touched, so every container stays
        valid. */
    method Absorb(other: Container, ghost world: set<Container>)
      requires this in world && other in world && Consistent(world)
      modifies group, other`group
      ensures Consistent(world)
      ensures group == old(group) && other.group == group
      ensures group.level == old(group.level)
      ensures group.members == old(group.members) + old(other.group.members)
      ensures forall c :: c in world && c != other ==> c.group == old(c.group)
    {
      var pending := other.group.members;
      ghost var source := pending;
      while pending != {}
        invariant pending <= source
        invariant group == old(group) && group.level == old(group.level)
        invariant group.members == old(group.members) + (source - pending)
        invariant other.group == if pending == source then old(other.group) else group
        invariant forall c :: c in world && c != other ==> c.group == old(c.group)
        decreases pending
      {
        var c :| c in pending;
        group.members := group.members + {c};
        other.group := group;
        pending := pending - {c};
      }
    }
  }

  /** The invariant over all containers created so far. */
  ghost predicate Consistent(world: set<Container>)
    reads world, set c | c in world :: c.group
  {
    forall c :: c in world ==> c.Valid()
  }

  /** Creates `n` containers, runs an arbitrary sequence of calls on them and
      reads every container's amount and the size of its group's member set:
      whatever the calls, each size, by which `add_water` and `connect_to`
      divide, is at least 1, and each amount is not negative. */
  method Replay(n: nat, calls: seq<Call>) returns (amounts: seq<real>, sizes: seq<nat>)
    requires forall k :: 0 <= k < |calls| ==> calls[k].Names(n)
    ensures |amounts| == n && |sizes| == n
    ensures forall i :: 0 <= i < n ==> amounts[i] >= 0.0 && sizes[i] >= 1
  {
    var containers: seq<Container> := [];
    ghost var world: set<Container> := {};
    while |containers| < n
      invariant |containers| <= n
      invariant world == set c | c in containers
      invariant forall c :: c in world ==> fresh(c) && fresh(c.group)
      invariant Consistent(world)
    {
      var c := new Container();
      containers := containers + [c];
      world := world + {c};
    }
    var k := 0;
    while k < |calls|
      invariant k <= |calls|
      invariant world == set c | c in containers
      invariant forall c :: c in world ==> fresh(c) && fresh(c.group)
      invariant Consistent(world)
    {
      match calls[k] {
        case AddWater(i, amount) =>
          assert containers[i] in world;
          var _ := containers[i].AddWater(amount, world);
        case ConnectTo(i, j) =>
          assert containers[i] in world && containers[j] in world;
          containers[i].ConnectTo(containers[j], world);
      }
      k := k + 1;
    }
    amounts, sizes := [], [];
    while |amounts| < n
      invariant |amounts| <= n && |sizes| == |amounts|
      invariant forall i :: 0 <= i < |amounts| ==> amounts[i] >= 0.0 && sizes[i] >= 1
      invariant Consistent(world)
    {
      var c := containers[|amounts|];
      assert c in world && c in c.group.members;
      sizes := sizes + [|c.group.members|];
      amounts := amounts + [c.Amount()];
    }
  }

  /** The steps `a.add_water(12)` and `a.connect_to(b)` on two new
      containers, with which the use-case tests start. */
  method TwelveInTwo() returns (a: Container, b: Container)
    ensures fresh(a) && fresh(b) && fresh(a.group) && a != b
    ensures b.group == a.group && a.group.members == {a, b} && a.group.level == 6.0
    ensures Consistent({a, b})
  {
    a := new Container();
    b := new Container();
    var _ := a.AddWater(12.0, {a, b});
    a.ConnectTo(b, {a, b});
  }

  /** Then `b.connect_to(c)` on a third new container: 12 shared by three. */
  method TwelveInThree() returns (a: Container, b: Container, c: Container)
    ensures fresh(a) && fresh(b) && fresh(c) && fresh(a.group)
    ensures a != b && a != c && b != c
    ensures b.group == a.group && c.group == a.group
    ensures a.group.members == {a, b, c} && a.group.level == 4.0
    ensures Consistent({a, b, c})
  {
    a, b := TwelveInTwo();
    c := new Container();
    b.ConnectTo(c, {a, b, c});
  }

  /** test_use_case: 12 shared by three containers, 8 in a fourth. */
  method UseCase() returns (amountA: real, amountB: real, amountC: real, amountD: real)
    ensures amountA == 4.0 && amountB == 4.0 && amountC == 4.0 && amountD == 8.0
  {
    var a, b, c := TwelveInThree();
    var d := new Container();
    var _ := d.AddWater(8.0, {d});
    amountA, amountB, amountC, amountD := a.Amount(), b.Amount(), c.Amount(), d.Amount();
  }

  /** test_insufficient_water_single: draining 10 from 5 is refused and the
      amount stays 5. */
  method InsufficientWaterSingle() returns (outcome: Outcome, amountA: real)
    ensures outcome == InsufficientWater && amountA == 5.0
  {
    var a := new Container();
    ghost var world := {a};
    var _ := a.AddWater(1.0, world);
    var _ := a.AddWater(2.0, world);
    var _ := a.AddWater(2.0, world);
    outcome := a.AddWater(-10.0, world);
    amountA := a.Amount();
  }

  /** test_insufficient_water_multiple: draining 13 from a group of three
      at level 4 is refused. */
  method InsufficientWaterMultiple() returns (outcome: Outcome, amountA: real)
    ensures outcome == InsufficientWater && amountA == 4.0
  {
    var a, b, c := TwelveInThree();
    outcome := a.AddWater(-13.0, {a, b, c});
    amountA := a.Amount();
  }

  /** Connecting a container holding 12 to one holding 8 leaves both at 6:
      the 8 of the other group is lost. */
  method MergeDropsOtherWater() returns (amountA: real, amountB: real)
    ensures amountA == 6.0 && amountB == 6.0
  {
    var a := new Container();
    var b := new Container();
    ghost var world := {a, b};
    var _ := a.AddWater(12.0, world);
    var _ := b.AddWater(8.0, world);
    a.ConnectTo(b, world);
    amountA, amountB := a.Amount(), b.Amount();
  }

  /** After `a.connect_to(b)` and `c.connect_to(a)`, `b` still points at the
      first record and keeps its level 6, while `a` and `c` share a record
      counting all three at level 0. */
  method ChainedMergeLeavesStalePointer() returns (amountA: real, amountB: real, amountC: real, size: nat)
    ensures amountA == 0.0 && amountB == 6.0 && amountC == 0.0 && size == 3
  {
    var a, b := TwelveInTwo();
    var c := new Container();
    c.ConnectTo(a, {a, b, c});
    amountA, amountB, amountC := a.Amount(), b.Amount(), c.Amount();
    size := |c.group.members|;
  }
}
