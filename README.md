# Connected water containers

Containers hold water and can be connected into groups that share one level.
Every container points at a mutable group record. `add_water` adds water to
a container, and a negative amount drains it. The call is refused when the
level would become negative. `connect_to` merges the group records of two
containers. The repository has two designs of this structure, and each is
modelled as its own module:

- `Speed4` (`speed4.dfy`) is the count design. The group record holds the
  group's total water and the number of containers counted into it. A
  container's amount is total divided by count.
- `SeriouslyGoodCode` (`seriously_good_code.dfy`) is the set design. The
  group record holds the level every member shows and the set of member
  containers.
- `Water` (`water.dfy`) holds what both share. `Outcome` is the result of
  `add_water`: the source's `RuntimeError` becomes `InsufficientWater`, and
  the state is left unchanged. `Call` is one call of the public interface.

Both designs use a class `Group` for the shared record and a class
`Container` whose `group` field is reassigned in place. Liquid amounts are
`real`. `AddWater` and `ConnectTo` take a ghost set `world` that holds at
least the containers the call touches; `Replay` passes every container it
has created. The module predicate `Consistent(world)` says that every
container in `world` satisfies `Valid()`:

- in the count design, the group's count is at least 1 and its total is not
  negative;
- in the set design, the container is a member of its own group's set (so
  the divisions by that set's size are defined) and the level is not
  negative.

Both `AddWater` and `ConnectTo` require `Consistent(world)` and preserve it.
Each `Replay` method creates `n` containers and runs an arbitrary sequence
of calls on them. It proves that every divisor the code uses is at least 1
and that every amount read at the end is not negative. The unit tests of both files become methods that return the
amounts the tests compare, with the compared values in their `ensures`.

The model follows the code where it differs from the intended design, which
calls for merges that conserve water and leave every container on a single
group record:

- Both `connect_to` methods reassign only `other`'s pointer. Other members
  of `other`'s old group keep pointing at the old record.
  `Speed4.StaleGroupAfterChainedMerge` and
  `SeriouslyGoodCode.ChainedMergeLeavesStalePointer` show a container left
  behind on an old record.
- The set design computes the merged level from the initiating container's
  group alone, so the water of `other`'s group is lost.
  `SeriouslyGoodCode.MergeDropsOtherWater` shows 12 and 8 merging into 6 and 6.
- In the count design, connecting two distinct containers that already share
  a record adds that record to itself, so its total and its count both
  double. The amount stays the same, as `Speed4.BidirectionalConnection`
  shows.

The loop of the set design's `connect_to` (lines 34-36) is written as the
helper method `SeriouslyGoodCode.Container.Absorb`, which `ConnectTo` calls
between reading the group's water and writing the new level.

## Model

| member | source | states |
|---|---|---|
| Speed4.Group.constructor | speed4/container.py:6-9 | a new record holds total 0 and count 1 |
| Speed4.Container.constructor | speed4/container.py:11-12 | a new container gets a fresh record of its own with total 0 and count 1, is valid, and reads 0 |
| Speed4.Container.Amount | speed4/container.py:29-31 | the amount multiplied by the count gives the group's total, and it is not negative while the total is not |
| Speed4.Container.AddWater | speed4/container.py:14-20 | refused exactly when the old total plus the amount is negative; when refused the total is unchanged, and otherwise it becomes old total plus amount; the count is unchanged, only this container's record is written, and every container stays valid |
| Speed4.Container.ConnectTo | speed4/container.py:22-27 | connecting to itself changes nothing; otherwise this record's total and count become the sums of both records' old totals and counts, `other` points at this record, no other pointer changes, and every container stays valid |
| Speed4.Replay | speed4/container.py:5-31 | after any sequence of calls on any number of new containers, every container's group count, the divisor of `amount`, is at least 1, and every amount is not negative |
| Speed4.UseCaseSteps | speed4/container.py:42-45 | after `a` gets 12, `d` gets 8, `a.connect_to(b)` and `b.connect_to(c)`, the three share one record with total 12 and count 3, and `d` has a record of its own with total 8 and count 1 |
| Speed4.UseCase | speed4/container.py:36-50 | 12 connected across three containers reads 4, 4 and 4, and a separate container holding 8 reads 8 |
| Speed4.InsufficientWaterSingle | speed4/container.py:52-58 | draining 10 from a container holding 5 is refused and it still reads 5 |
| Speed4.InsufficientWaterMultiple | speed4/container.py:60-70 | draining 13 from three containers sharing 12 is refused and they still read 4 |
| Speed4.ConnectToMyself | speed4/container.py:72-77 | a container holding 12 connected to itself still reads 12 |
| Speed4.BidirectionalConnection | speed4/container.py:79-87 | connecting back within one record reads 6, with the record's total doubled to 24 and its count to 4 |
| Speed4.ArbitraryUseCaseSteps | speed4/container.py:94-99 | after the steps of the arbitrary test, `a` and `c` share a record with total 18 and count 3, and `b` is on a different record with total 12 and count 2 |
| Speed4.ArbitraryUseCase | speed4/container.py:89-103 | all three containers read 6, while `b` is left on a different record from `a` and `c` |
| Speed4.StaleGroupAfterChainedMerge | speed4/container.py:22-27 | after the arbitrary scenario, adding 3 through `a` makes `a` and `c` read 7 while `b`, on its old record, still reads 6 |
| SeriouslyGoodCode.Group.constructor | seriously_good_code/container.py:16-19 | a new record has level 0 and no members |
| SeriouslyGoodCode.Container.constructor | seriously_good_code/container.py:21-22 | a new container gets a fresh record of its own at level 0 whose only member is itself, is valid, and reads 0 |
| SeriouslyGoodCode.Container.Amount | seriously_good_code/container.py:40-42 | the amount is the group's level and is not negative |
| SeriouslyGoodCode.Container.AddWater | seriously_good_code/container.py:24-30 | refused exactly when the old level plus the amount spread over the members is negative, which is exactly when the group's water plus the amount is negative; when refused the level is unchanged, and otherwise the group's water grows by exactly the amount; the members are unchanged and every container stays valid |
| SeriouslyGoodCode.Container.ConnectTo | seriously_good_code/container.py:32-38 | this group's members become the union of both groups' members, `other` points at this group, no other pointer changes, the new level is this group's old water divided by the new member count so that water is kept and other's water is not added, and every container stays valid |
| SeriouslyGoodCode.Container.Absorb | seriously_good_code/container.py:34-36 | every member of other's group is added to this group and `other` is pointed at it, with the level and every other pointer unchanged and every container still valid |
| SeriouslyGoodCode.Replay | seriously_good_code/container.py:15-42 | after any sequence of calls on any number of new containers, every container's group has at least one member, so the divisions in `add_water` and `connect_to` are defined, and every amount is not negative |
| SeriouslyGoodCode.TwelveInTwo | seriously_good_code/container.py:76-77 | after `a.add_water(12)` and `a.connect_to(b)` on two new containers, both share one record whose members are exactly `a` and `b`, at level 6 |
| SeriouslyGoodCode.TwelveInThree | seriously_good_code/container.py:76-78 | after `b.connect_to(c)` with a third new container, all three share one record whose members are exactly `a`, `b` and `c`, at level 4 |
| SeriouslyGoodCode.UseCase | seriously_good_code/container.py:47-61 | 12 connected across three containers reads 4, 4 and 4, and a separate container holding 8 reads 8 |
| SeriouslyGoodCode.InsufficientWaterSingle | seriously_good_code/container.py:63-69 | draining 10 from a container holding 5 is refused and it still reads 5 |
| SeriouslyGoodCode.InsufficientWaterMultiple | seriously_good_code/container.py:71-81 | draining 13 from three containers at level 4 is refused and they still read 4 |
| SeriouslyGoodCode.MergeDropsOtherWater | seriously_good_code/container.py:32-38 | connecting a container holding 12 to one holding 8 leaves both reading 6 |
| SeriouslyGoodCode.ChainedMergeLeavesStalePointer | seriously_good_code/container.py:34-36 | after `a.connect_to(b)` with 12 in `a`, then `c.connect_to(a)`, `a` and `c` read 0 on a record of three members while `b` still reads 6 |

## Left out

- `time_it` (seriously_good_code/container.py:8-12) measures wall-clock time and prints it. That is I/O, not logic.
- The `unittest` framework: each test body is a method whose `ensures` states the values the test compares.
- IEEE floating-point rounding: amounts are `real`, so the tests' equalities are exact.
- The message and type of the `RuntimeError`: a refused call returns `InsufficientWater` and leaves the state unchanged.
- The order in which a Python set is iterated in the set design's `connect_to`: the loop picks members in an arbitrary order, and its contract holds for every order.
- A corrected design that redirects every member or conserves water on a merge: that is not what either file does.
- The order of creation in two tests of the set design: `SeriouslyGoodCode.UseCase` and `SeriouslyGoodCode.InsufficientWaterMultiple` build their first containers through the helpers `TwelveInTwo` and `TwelveInThree`, which create `c` after `a.connect_to(b)`. `UseCase` also creates `d` after the connections. The tests create all their containers first. Creating a container changes no existing record.
