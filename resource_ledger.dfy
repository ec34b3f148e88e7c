/** The resource ledger: a list of (test, resource, exclusive) rows that
    arbitrates shared and exclusive use of devices and apparatuses. */
module Ledger {
  import opened Wrappers
  import opened Format
  import HtpTests

  type TestId = HtpTests.TestId

  /** One row: which test holds which resource, and whether exclusively. */
  datatype Entry = Entry(test: TestId, resource: string, exclusive: bool)

  /** Number of rows for `r`, counted left to right. */
  function Count(es: seq<Entry>, r: string): nat
  {
    if es == [] then 0
    else Count(es[..|es| - 1], r) + (if es[|es| - 1].resource == r then 1 else 0)
  }

  /** The tests holding `r`, in row order. */
  function Owners(es: seq<Entry>, r: string): seq<TestId>
  {
    if es == [] then []
    else Owners(es[..|es| - 1], r) + (if es[|es| - 1].resource == r then [es[|es| - 1].test] else [])
  }

  /** Some row is for `r`. */
  predicate Used(es: seq<Entry>, r: string)
  {
    exists i :: 0 <= i < |es| && es[i].resource == r
  }

  /** Some row holds `r` exclusively. */
  predicate Locked(es: seq<Entry>, r: string)
  {
    exists i :: 0 <= i < |es| && es[i].resource == r && es[i].exclusive
  }

  /** Test `t` has a row for `r`. */
  predicate Holds(es: seq<Entry>, t: TestId, r: string)
  {
    exists i :: 0 <= i < |es| && es[i].test == t && es[i].resource == r
  }

  /** An exclusive row is the only row for its resource. */
  ghost predicate ExclusiveAlone(es: seq<Entry>)
  {
    forall i, j :: 0 <= i < |es| && 0 <= j < |es| && i != j && es[i].exclusive ==> es[j].resource != es[i].resource
  }

  /** No (test, resource) pair has two rows. */
  ghost predicate PairsUnique(es: seq<Entry>)
  {
    forall i, j :: 0 <= i < |es| && 0 <= j < |es| && i != j ==> es[i].test != es[j].test || es[i].resource != es[j].resource
  }

  ghost predicate Consistent(es: seq<Entry>)
  {
    ExclusiveAlone(es) && PairsUnique(es)
  }

  /** `get_owners` has one id per row `allocated_count` counts. */
  lemma {:induction false} OwnersLength(es: seq<Entry>, r: string)
    ensures |Owners(es, r)| == Count(es, r)
  {
    if es != [] {
      OwnersLength(es[..|es| - 1], r);
    }
  }

  /** The count is zero exactly when no row is for `r`. */
  lemma {:induction false} CountZero(es: seq<Entry>, r: string)
    ensures Count(es, r) == 0 <==> !Used(es, r)
  {
    if es != [] {
      var init := es[..|es| - 1];
      CountZero(init, r);
      if Used(init, r) {
        var i :| 0 <= i < |init| && init[i].resource == r;
        assert es[i].resource == r;
      }
      if Used(es, r) && es[|es| - 1].resource != r {
        var i :| 0 <= i < |es| && es[i].resource == r;
        assert init[i].resource == r;
      }
    }
  }

  /** A test is listed by `get_owners` exactly when it has a row for `r`. */
  lemma {:induction false} OwnersHolds(es: seq<Entry>, t: TestId, r: string)
    ensures t in Owners(es, r) <==> Holds(es, t, r)
  {
    if es != [] {
      var init := es[..|es| - 1];
      OwnersHolds(init, t, r);
      if Holds(init, t, r) {
        var i :| 0 <= i < |init| && init[i].test == t && init[i].resource == r;
        assert es[i] == init[i];
      }
      if Holds(es, t, r) && !(es[|es| - 1].test == t && es[|es| - 1].resource == r) {
        var i :| 0 <= i < |es| && es[i].test == t && es[i].resource == r;
        assert init[i] == es[i];
      }
    }
  }

  /** `get_owners` follows row order: the owners of a concatenation are the
      owners of each part, in order. */
  lemma {:induction false} OwnersAppend(a: seq<Entry>, b: seq<Entry>, r: string)
    ensures Owners(a + b, r) == Owners(a, r) + Owners(b, r)
  {
    if b == [] {
      assert a + b == a;
    } else {
      var b' := b[..|b| - 1];
      assert (a + b)[..|a + b| - 1] == a + b';
      OwnersAppend(a, b', r);
    }
  }

  function ExclusiveConflict(t: TestId, r: string): Error
  {
    Message("Tried to get an exclusive lock on " + r + " by " + NatToString(t) + " but it is already being used")
  }

  function LockedConflict(t: TestId, r: string): Error
  {
    Message("Tried to get a lock on " + r + " by " + NatToString(t) + " which is already exclusively locked")
  }

  function AlreadyHeld(t: TestId, r: string): Error
  {
    Message("Tried to get a lock on " + r + " by " + NatToString(t) + " which it already has aquired")
  }

  function NeverOwned(t: TestId, r: string): Error
  {
    Message("TestID " + NatToString(t) + " tried to free resource " + r + " which it never owned")
  }

  /** `acquire_resource` on a value: the three guards in the source's order,
      then the appended row. */
  function Acquire(es: seq<Entry>, t: TestId, r: string, exclusive: bool): Result<seq<Entry>, Error>
  {
    if exclusive && Count(es, r) != 0 then Failure(ExclusiveConflict(t, r))
    else if Locked(es, r) then Failure(LockedConflict(t, r))
    else if t in Owners(es, r) then Failure(AlreadyHeld(t, r))
    else Success(es + [Entry(t, r, exclusive)])
  }

  /** An acquire succeeds exactly when: it is not an exclusive request for a
      resource that anyone (the requester included) holds; the resource is
      not exclusively held; and the requester does not already hold it. A
      success appends exactly the requested row. */
  lemma AcquireSucceedsIff(es: seq<Entry>, t: TestId, r: string, exclusive: bool)
    ensures Acquire(es, t, r, exclusive).Success? <==>
              !(exclusive && Used(es, r)) && !Locked(es, r) && !Holds(es, t, r)
    ensures Acquire(es, t, r, exclusive).Success? ==> Acquire(es, t, r, exclusive).value == es + [Entry(t, r, exclusive)]
  {
    CountZero(es, r);
    OwnersHolds(es, t, r);
  }

  /** Index of the last row for (t, r), or -1: the source's scan overwrites
      its candidate at every match. */
  function LastMatch(es: seq<Entry>, t: TestId, r: string): (k: int)
    ensures -1 <= k < |es|
    ensures k == -1 <==> !Holds(es, t, r)
    ensures k >= 0 ==> es[k].test == t && es[k].resource == r
    ensures k >= 0 ==> forall j :: k < j < |es| ==> es[j].test != t || es[j].resource != r
  {
    if es == [] then -1
    else if es[|es| - 1].test == t && es[|es| - 1].resource == r then |es| - 1
    else
      var init := es[..|es| - 1];
      assert forall i :: 0 <= i < |init| ==> init[i] == es[i];
      LastMatch(init, t, r)
  }

  /** `Vec::swap_remove(k)`: the last row moves into slot `k` and the vector
      shrinks by one. */
  function SwapRemove(es: seq<Entry>, k: nat): (rest: seq<Entry>)
    requires k < |es|
    ensures |rest| == |es| - 1
    ensures forall i :: 0 <= i < |rest| ==> rest[i] == es[if i == k then |es| - 1 else i]
  {
    es[k := es[|es| - 1]][..|es| - 1]
  }

  /** `release_resource` on a value. */
  function Release(es: seq<Entry>, t: TestId, r: string): Result<seq<Entry>, Error>
  {
    var k := LastMatch(es, t, r);
    if k < 0 then Failure(NeverOwned(t, r)) else Success(SwapRemove(es, k))
  }

  /** Swap-removing removes exactly the one row at `k`. */
  lemma SwapRemoveMultiset(es: seq<Entry>, k: nat)
    requires k < |es|
    ensures multiset(SwapRemove(es, k)) + multiset{es[k]} == multiset(es)
  {
    var n := |es|;
    var u := es[k := es[n - 1]];
    assert multiset(u) == multiset(es) - multiset{es[k]} + multiset{es[n - 1]};
    assert u == u[..n - 1] + [es[n - 1]];
    assert multiset(u[..n - 1]) + multiset{es[n - 1]} == multiset(u);
    assert es[k] in multiset(es);
    var m, a := multiset(es), multiset(u[..n - 1]);
    forall e ensures (a + multiset{es[k]})[e] == m[e] {
      assert (a + multiset{es[n - 1]})[e] == multiset(u)[e];
      assert multiset(u)[e] == (m - multiset{es[k]} + multiset{es[n - 1]})[e];
    }
    assert SwapRemove(es, k) == u[..n - 1];
  }

  /** A release fails exactly when the test holds no row for `r`. On success
      one matching row is gone, the vector is one shorter, the rows before it
      stay in place and the former last row fills its slot. */
  lemma ReleaseSpec(es: seq<Entry>, t: TestId, r: string)
    ensures Release(es, t, r).Failure? <==> !Holds(es, t, r)
    ensures Release(es, t, r).Success? ==>
              var rest := Release(es, t, r).value;
              exists k :: 0 <= k < |es| && es[k].test == t && es[k].resource == r
                          && |rest| == |es| - 1
                          && multiset(rest) + multiset{es[k]} == multiset(es)
                          && rest[..k] == es[..k]
                          && (k < |rest| ==> rest[k] == es[|es| - 1])
  {
    var k := LastMatch(es, t, r);
    if k >= 0 {
      SwapRemoveMultiset(es, k);
      var rest := SwapRemove(es, k);
      assert rest[..k] == es[..k];
    }
  }

  /** Releasing what was just acquired restores the ledger exactly: the new
      row is the last match and swap-removing the last row only truncates. */
  lemma AcquireReleaseRoundTrip(es: seq<Entry>, t: TestId, r: string, exclusive: bool)
    requires Acquire(es, t, r, exclusive).Success?
    ensures Release(Acquire(es, t, r, exclusive).value, t, r) == Success(es)
  {
    var es' := es + [Entry(t, r, exclusive)];
    assert LastMatch(es', t, r) == |es|;
    assert SwapRemove(es', |es|) == es;
  }

  /** A successful release lowers the count of its resource by one and
      leaves every other resource's count unchanged. */
  lemma ReleaseCount(es: seq<Entry>, t: TestId, r: string, other: string)
    requires Release(es, t, r).Success?
    ensures Count(Release(es, t, r).value, r) == Count(es, r) - 1
    ensures other != r ==> Count(Release(es, t, r).value, other) == Count(es, other)
  {
    var n := |es|;
    var k := LastMatch(es, t, r);
    var rest := SwapRemove(es, k);
    var x := es[k];
    if k == n - 1 {
      assert es == rest + [x];
      CountAppend(rest, [x], r);
      CountAppend(rest, [x], other);
    } else {
      var a, b, y := es[..k], es[k + 1..n - 1], es[n - 1];
      assert rest == a + [y] + b;
      assert es == a + [x] + b + [y];
      CountAppend(a + [y], b, r);
      CountAppend(a, [y], r);
      CountAppend(a + [x] + b, [y], r);
      CountAppend(a + [x], b, r);
      CountAppend(a, [x], r);
      CountAppend(a + [y], b, other);
      CountAppend(a, [y], other);
      CountAppend(a + [x] + b, [y], other);
      CountAppend(a + [x], b, other);
      CountAppend(a, [x], other);
    }
  }

  lemma {:induction false} CountAppend(a: seq<Entry>, b: seq<Entry>, r: string)
    ensures Count(a + b, r) == Count(a, r) + Count(b, r)
  {
    if b == [] {
      assert a + b == a;
    } else {
      var b' := b[..|b| - 1];
      assert (a + b)[..|a + b| - 1] == a + b';
      CountAppend(a, b', r);
    }
  }

  /** A successful acquire keeps the ledger consistent. */
  lemma AcquirePreserves(es: seq<Entry>, t: TestId, r: string, exclusive: bool)
    requires Consistent(es)
    requires Acquire(es, t, r, exclusive).Success?
    ensures Consistent(Acquire(es, t, r, exclusive).value)
  {
    AcquireSucceedsIff(es, t, r, exclusive);
    var es' := es + [Entry(t, r, exclusive)];
    var n := |es|;
    forall i, j | 0 <= i < |es'| && 0 <= j < |es'| && i != j
      ensures es'[i].exclusive ==> es'[j].resource != es'[i].resource
      ensures es'[i].test != es'[j].test || es'[i].resource != es'[j].resource
    {
      if i == n {
        assert es'[j] == es[j];
      } else if j == n {
        assert es'[i] == es[i];
      }
    }
  }

  /** A successful release keeps the ledger consistent. */
  lemma ReleasePreserves(es: seq<Entry>, t: TestId, r: string)
    requires Consistent(es)
    requires Release(es, t, r).Success?
    ensures Consistent(Release(es, t, r).value)
  {
    var k := LastMatch(es, t, r);
    var rest := SwapRemove(es, k);
    var n := |es|;
    forall i, j | 0 <= i < |rest| && 0 <= j < |rest| && i != j
      ensures rest[i].exclusive ==> rest[j].resource != rest[i].resource
      ensures rest[i].test != rest[j].test || rest[i].resource != rest[j].resource
    {
      var fi := if i == k then n - 1 else i;
      var fj := if j == k then n - 1 else j;
      assert rest[i] == es[fi] && rest[j] == es[fj] && fi != fj;
    }
  }

  /** A call on the ledger. */
  datatype Op = AcquireOp(test: TestId, resource: string, exclusive: bool) | ReleaseOp(test: TestId, resource: string)

  /** The ledger after one call; a failed call leaves it unchanged. */
  function Apply(es: seq<Entry>, op: Op): seq<Entry>
  {
    var res := match op
      case AcquireOp(t, r, x) => Acquire(es, t, r, x)
      case ReleaseOp(t, r) => Release(es, t, r);
    if res.Success? then res.value else es
  }

  function Replay(es: seq<Entry>, ops: seq<Op>): seq<Entry>
    decreases |ops|
  {
    if ops == [] then es else Replay(Apply(es, ops[0]), ops[1..])
  }

  lemma {:induction false} ReplayPreserves(es: seq<Entry>, ops: seq<Op>)
    requires Consistent(es)
    ensures Consistent(Replay(es, ops))
    decreases |ops|
  {
    if ops != [] {
      match ops[0] {
        case AcquireOp(t, r, x) =>
          if Acquire(es, t, r, x).Success? { AcquirePreserves(es, t, r, x); }
        case ReleaseOp(t, r) =>
          if Release(es, t, r).Success? { ReleasePreserves(es, t, r); }
      }
      ReplayPreserves(Apply(es, ops[0]), ops[1..]);
    }
  }

  /** From an empty ledger, any sequence of acquires and releases leaves every
      exclusive row alone for its resource and every (test, resource) pair in
      at most one row. */
  lemma LedgerInvariant(ops: seq<Op>)
    ensures ExclusiveAlone(Replay([], ops))
    ensures PairsUnique(Replay([], ops))
  {
    ReplayPreserves([], ops);
  }

  /** Owners are listed in row order, not acquisition order: after three
      shared acquires, releasing the first moves the third into its slot. */
  lemma ReleaseReordersOwners()
    ensures var es := Replay([], [AcquireOp(1, "r", false), AcquireOp(2, "r", false), AcquireOp(3, "r", false), ReleaseOp(1, "r")]);
            Owners(es, "r") == [3, 2]
  {
    ThreeAcquiresOneRelease();
    var e4 := [Entry(3, "r", false), Entry(2, "r", false)];
    assert e4[..1] == [Entry(3, "r", false)];
    assert Owners(e4[..1], "r") == [3];
  }

  lemma ThreeAcquiresOneRelease()
    ensures Replay([], [AcquireOp(1, "r", false), AcquireOp(2, "r", false), AcquireOp(3, "r", false), ReleaseOp(1, "r")])
            == [Entry(3, "r", false), Entry(2, "r", false)]
  {
    var a1, a2, a3, rel := AcquireOp(1, "r", false), AcquireOp(2, "r", false), AcquireOp(3, "r", false), ReleaseOp(1, "r");
    var e1 := [Entry(1, "r", false)];
    var e2 := e1 + [Entry(2, "r", false)];
    var e3 := e2 + [Entry(3, "r", false)];
    SharedAcquire([], 1, "r");
    assert [] + [Entry(1, "r", false)] == e1;
    SharedAcquire(e1, 2, "r");
    SharedAcquire(e2, 3, "r");
    ReleaseFirstOfThree(e3);
    ReplayStep([], a1, [a2, a3, rel]);
    ReplayStep(e1, a2, [a3, rel]);
    ReplayStep(e2, a3, [rel]);
    ReplayStep(e3, rel, []);
    assert [a1, a2, a3, rel] == [a1] + [a2, a3, rel];
    assert [a2, a3, rel] == [a2] + [a3, rel];
    assert [a3, rel] == [a3] + [rel];
    assert [rel] == [rel] + [];
  }

  lemma ReplayStep(es: seq<Entry>, op: Op, ops: seq<Op>)
    ensures Replay(es, [op] + ops) == Replay(Apply(es, op), ops)
  {
    assert ([op] + ops)[1..] == ops;
  }

  /** Releasing the first of three rows swaps the third into its slot. */
  lemma ReleaseFirstOfThree(es: seq<Entry>)
    requires es == [Entry(1, "r", false), Entry(2, "r", false), Entry(3, "r", false)]
    ensures Apply(es, ReleaseOp(1, "r")) == [Entry(3, "r", false), Entry(2, "r", false)]
  {
    assert es[..2] == [Entry(1, "r", false), Entry(2, "r", false)];
    assert es[..2][..1] == [Entry(1, "r", false)];
    assert LastMatch(es[..2][..1], 1, "r") == 0;
    assert LastMatch(es[..2], 1, "r") == 0;
    assert LastMatch(es, 1, "r") == 0;
    var rest := SwapRemove(es, 0);
    assert |rest| == 2 && rest[0] == es[2] && rest[1] == es[1];
    assert rest == [Entry(3, "r", false), Entry(2, "r", false)];
    assert Release(es, 1, "r") == Success(rest);
  }

  /** A shared acquire on a ledger with no exclusive row and no row of the
      requester succeeds. */
  lemma SharedAcquire(es: seq<Entry>, t: TestId, r: string)
    requires forall i :: 0 <= i < |es| ==> !es[i].exclusive && es[i].test != t
    ensures Apply(es, AcquireOp(t, r, false)) == es + [Entry(t, r, false)]
  {
    AcquireSucceedsIff(es, t, r, false);
  }

  /** With one shared row for the requester, asking again fails (shared:
      already held; exclusive: already in use, by the requester itself), while
      a second test's shared request succeeds and brings the count to two. */
  lemma SecondAcquireByHolderFails()
    ensures var es := [Entry(1, "resource1", false)];
            && Acquire(es, 1, "resource1", false) == Failure(AlreadyHeld(1, "resource1"))
            && Acquire(es, 1, "resource1", true) == Failure(ExclusiveConflict(1, "resource1"))
            && Acquire(es, 2, "resource1", false) == Success(es + [Entry(2, "resource1", false)])
            && Count(es + [Entry(2, "resource1", false)], "resource1") == 2
  {
    var es := [Entry(1, "resource1", false)];
    assert es[..0] == [];
    assert Owners(es, "resource1") == [1];
  }

  /** The ledger as the orchestrator holds it. */
  class ResourceLedger {
    var resources: seq<Entry>

    /** `ResourceLedger::default()`. */
    constructor ()
      ensures resources == []
    {
      resources := [];
    }

    /** `allocated_count`. */
    method AllocatedCount(r: string) returns (count: nat)
      ensures count == Count(resources, r)
    {
      count := 0;
      for i := 0 to |resources|
        invariant count == Count(resources[..i], r)
      {
        assert resources[..i + 1][..i] == resources[..i];
        if resources[i].resource == r {
          count := count + 1;
        }
      }
      assert resources[..|resources|] == resources;
    }

    /** `is_exclusively_locked`. */
    method IsExclusivelyLocked(r: string) returns (locked: bool)
      ensures locked <==> Locked(resources, r)
    {
      for i := 0 to |resources|
        invariant forall j :: 0 <= j < i ==> !(resources[j].resource == r && resources[j].exclusive)
      {
        if resources[i].resource == r && resources[i].exclusive {
          return true;
        }
      }
      return false;
    }

    /** `get_owners`. */
    method GetOwners(r: string) returns (owners: seq<TestId>)
      ensures owners == Owners(resources, r)
    {
      owners := [];
      for i := 0 to |resources|
        invariant owners == Owners(resources[..i], r)
      {
        assert resources[..i + 1][..i] == resources[..i];
        if resources[i].resource == r {
          owners := owners + [resources[i].test];
        }
      }
      assert resources[..|resources|] == resources;
    }

    /** `acquire_resource`. */
    method AcquireResource(testid: TestId, r: string, getExclusive: bool) returns (res: Outcome<Error>)
      modifies this
      ensures match Acquire(old(resources), testid, r, getExclusive)
              case Success(es) => res == Pass && resources == es
              case Failure(e) => res == Fail(e) && resources == old(resources)
      ensures Consistent(old(resources)) ==> Consistent(resources)
    {
      var count := AllocatedCount(r);
      if getExclusive && count != 0 {
        return Fail(ExclusiveConflict(testid, r));
      }
      var locked := IsExclusivelyLocked(r);
      if locked {
        return Fail(LockedConflict(testid, r));
      }
      var owners := GetOwners(r);
      if testid in owners {
        return Fail(AlreadyHeld(testid, r));
      }
      if Consistent(resources) {
        AcquirePreserves(resources, testid, r, getExclusive);
      }
      resources := resources + [Entry(testid, r, getExclusive)];
      return Pass;
    }

    /** `release_resource`. */
    method ReleaseResource(testid: TestId, r: string) returns (res: Outcome<Error>)
      modifies this
      ensures match Release(old(resources), testid, r)
              case Success(es) => res == Pass && resources == es
              case Failure(e) => res == Fail(e) && resources == old(resources)
      ensures Consistent(old(resources)) ==> Consistent(resources)
    {
      var resourceIndex: Option<nat> := None;
      for idx := 0 to |resources|
        invariant resourceIndex.None? <==> LastMatch(resources[..idx], testid, r) == -1
        invariant resourceIndex.Some? ==> resourceIndex.value == LastMatch(resources[..idx], testid, r)
      {
        assert resources[..idx + 1][..idx] == resources[..idx];
        if resources[idx].test == testid && resources[idx].resource == r {
          resourceIndex := Some(idx);
        }
      }
      assert resources[..|resources|] == resources;
      if resourceIndex.None? {
        return Fail(NeverOwned(testid, r));
      }
      if Consistent(resources) {
        ReleasePreserves(resources, testid, r);
      }
      var k := resourceIndex.value;
      resources := resources[k := resources[|resources| - 1]][..|resources| - 1];
      return Pass;
    }
  }
}
