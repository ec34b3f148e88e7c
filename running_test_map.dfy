/** The process-wide registry of in-flight tests, keyed by test
    specification id. The methods that change it belong to the lifecycle
    (`HtpTests.New`, `HtpTests.CloneInto`) and to the termination stage. */
module RunningTests {
  import opened TestsConfig

  /** One in-flight test: its specification id, version tag and stage name. */
  datatype RunningTestMapEntry = RunningTestMapEntry(id: TestSpecificationId, ver: string, stage: string)

  class RunningTestMap {
    var entries: seq<RunningTestMapEntry>

    /** `RunningTestMap::default()`. */
    constructor ()
      ensures entries == []
    {
      entries := [];
    }
  }

  predicate HasEntry(es: seq<RunningTestMapEntry>, id: TestSpecificationId)
  {
    exists i :: 0 <= i < |es| && es[i].id == id
  }

  /** Position of the first entry for `id`: the one `iter_mut().find` yields. */
  function FirstWithId(es: seq<RunningTestMapEntry>, id: TestSpecificationId): (k: nat)
    requires HasEntry(es, id)
    ensures k < |es| && es[k].id == id
    ensures forall j :: 0 <= j < k ==> es[j].id != id
  {
    if es[0].id == id then 0
    else
      var i :| 0 <= i < |es| && es[i].id == id;
      assert es[1..][i - 1].id == id;
      1 + FirstWithId(es[1..], id)
  }

  /** The registry after the first entry for `id` is moved to `stage`. */
  function Restage(es: seq<RunningTestMapEntry>, id: TestSpecificationId, stage: string): seq<RunningTestMapEntry>
    requires HasEntry(es, id)
  {
    var k := FirstWithId(es, id);
    es[k := es[k].(stage := stage)]
  }

  /** `retain(|p| p.id != id)`: the entries for other ids, in their order. */
  function Without(es: seq<RunningTestMapEntry>, id: TestSpecificationId): seq<RunningTestMapEntry>
  {
    if es == [] then []
    else Without(es[..|es| - 1], id) + (if es[|es| - 1].id != id then [es[|es| - 1]] else [])
  }

  /** Restaging changes only the stage of one entry for `id`; the others, and
      the order, are untouched. */
  lemma RestageSpec(es: seq<RunningTestMapEntry>, id: TestSpecificationId, stage: string)
    requires HasEntry(es, id)
    ensures var es' := Restage(es, id, stage);
            var k := FirstWithId(es, id);
            && |es'| == |es|
            && es'[k] == RunningTestMapEntry(id, es[k].ver, stage)
            && (forall j :: 0 <= j < |es| && j != k ==> es'[j] == es[j])
            && HasEntry(es', id)
  {
  }

  /** After `retain`, no entry for `id` is left, and every other entry is. */
  lemma {:induction false} WithoutMembers(es: seq<RunningTestMapEntry>, id: TestSpecificationId)
    ensures !HasEntry(Without(es, id), id)
    ensures forall e :: e in Without(es, id) <==> e in es && e.id != id
  {
    if es != [] {
      var init := es[..|es| - 1];
      WithoutMembers(init, id);
      assert es == init + [es[|es| - 1]];
    }
  }

  /** `retain` keeps the relative order: filtering distributes over concatenation. */
  lemma {:induction false} WithoutAppend(a: seq<RunningTestMapEntry>, b: seq<RunningTestMapEntry>, id: TestSpecificationId)
    ensures Without(a + b, id) == Without(a, id) + Without(b, id)
  {
    if b != [] {
      var b' := b[..|b| - 1];
      assert (a + b)[..|a + b| - 1] == a + b';
      WithoutAppend(a, b', id);
    } else {
      assert a + b == a;
    }
  }

  /** Entries for other ids are all kept: without an entry for `id`, `retain`
      changes nothing. */
  lemma {:induction false} WithoutNoEntry(es: seq<RunningTestMapEntry>, id: TestSpecificationId)
    requires !HasEntry(es, id)
    ensures Without(es, id) == es
  {
    if es != [] {
      var init := es[..|es| - 1];
      assert !HasEntry(init, id) by {
        forall i | 0 <= i < |init| ensures init[i].id != id {
          assert init[i] == es[i];
        }
      }
      WithoutNoEntry(init, id);
      assert es == init + [es[|es| - 1]];
    }
  }
}
