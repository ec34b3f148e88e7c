/** Test groups from the test catalogue: duplicate-name validation, lookup by
    name, and the per-group check applied to a whole test map. */
module TestsConfig {
  import opened Wrappers

  /** (test group name, test name). */
  datatype TestSpecificationId = TestSpecificationId(group: string, name: string)

  datatype TestSpecification = TestSpecification(
    name: string,
    dependencies: map<string, string>,
    excludedDeviceTypes: seq<string>,
    apparatus: string,
    robotConfig: string,
    remoteTestScript: Option<string>,
    onDeviceTestScript: Option<string>)

  /** The tests of one group, in catalogue order. */
  datatype TestGroup = TestGroup(tests: seq<TestSpecification>)

  /** Test groups keyed by group name. */
  type TestMap = map<string, TestGroup>

  /** No two tests of the list share a name. */
  predicate DistinctNames(specs: seq<TestSpecification>)
  {
    forall i, j :: 0 <= i < j < |specs| ==> specs[i].name != specs[j].name
  }

  /** Position `j` is the first, scanning left to right, whose name already
      occurred before it. */
  predicate FirstRepeat(specs: seq<TestSpecification>, j: int)
  {
    && 0 <= j < |specs|
    && (exists i :: 0 <= i < j && specs[i].name == specs[j].name)
    && DistinctNames(specs[..j])
  }

  function DuplicateError(name: string): Error
  {
    Message("Duplicate test name " + name)
  }

  function Names(specs: seq<TestSpecification>): seq<string>
  {
    seq(|specs|, i requires 0 <= i < |specs| => specs[i].name)
  }

  /** `TestGroup::validate`: collects names left to right and fails on the
      first name already collected. */
  method Validate(g: TestGroup) returns (r: Outcome<Error>)
    ensures r.Pass? <==> DistinctNames(g.tests)
    ensures r.Fail? ==> exists j :: FirstRepeat(g.tests, j) && r.error == DuplicateError(g.tests[j].name)
  {
    var testNames: seq<string> := [];
    var k := 0;
    while k < |g.tests|
      invariant 0 <= k <= |g.tests|
      invariant testNames == Names(g.tests[..k])
      invariant DistinctNames(g.tests[..k])
    {
      var test := g.tests[k];
      if test.name in testNames {
        var i :| 0 <= i < |testNames| && testNames[i] == test.name;
        assert g.tests[i].name == test.name;
        assert FirstRepeat(g.tests, k);
        return Fail(DuplicateError(test.name));
      }
      forall i | 0 <= i < k ensures g.tests[i].name != test.name {
        assert testNames[i] == g.tests[i].name;
      }
      testNames := testNames + [test.name];
      k := k + 1;
      assert testNames == Names(g.tests[..k]);
    }
    assert g.tests[..k] == g.tests;
    return Pass;
  }

  /** The first test of the list named `name`, if any. */
  function Find(specs: seq<TestSpecification>, name: string): (r: Option<TestSpecification>)
    ensures r.None? <==> forall i :: 0 <= i < |specs| ==> specs[i].name != name
    ensures r.Some? ==> exists j :: 0 <= j < |specs| && specs[j] == r.value && r.value.name == name
                                    && forall i :: 0 <= i < j ==> specs[i].name != name
  {
    if specs == [] then None
    else if specs[0].name == name then Some(specs[0])
    else
      var r := Find(specs[1..], name);
      assert forall i :: 1 <= i < |specs| ==> specs[i] == specs[1..][i - 1];
      r
  }

  /** `TestGroup::get_test`: linear search with early return. */
  method GetTest(g: TestGroup, name: string) returns (r: Option<TestSpecification>)
    ensures r == Find(g.tests, name)
  {
    var k := 0;
    while k < |g.tests|
      invariant 0 <= k <= |g.tests|
      invariant forall i :: 0 <= i < k ==> g.tests[i].name != name
    {
      if g.tests[k].name == name {
        FindAt(g.tests, name, k);
        return Some(g.tests[k]);
      }
      k := k + 1;
    }
    return None;
  }

  /** The first matching position determines `Find`. */
  lemma FindAt(specs: seq<TestSpecification>, name: string, k: int)
    requires 0 <= k < |specs| && specs[k].name == name
    requires forall i :: 0 <= i < k ==> specs[i].name != name
    ensures Find(specs, name) == Some(specs[k])
  {
    var r := Find(specs, name);
    var j :| 0 <= j < |specs| && specs[j] == r.value && r.value.name == name
             && forall i :: 0 <= i < j ==> specs[i].name != name;
    assert j == k;
  }

  /** In a group that validates, lookup by name returns the one test of that name. */
  lemma FindUnique(specs: seq<TestSpecification>, s: TestSpecification)
    requires DistinctNames(specs)
    requires s in specs
    ensures Find(specs, s.name) == Some(s)
  {
    var k :| 0 <= k < |specs| && specs[k] == s;
    FindAt(specs, s.name, k);
  }

  /** The per-group check of `tests::parse`: every group of the map is
      validated, and the first failure is returned. The map's iteration order
      is unspecified, so which failing group is reported is left open. */
  method CheckTestMap(tests: TestMap) returns (r: Outcome<Error>)
    ensures r.Pass? <==> forall k :: k in tests ==> DistinctNames(tests[k].tests)
    ensures r.Fail? ==> exists k, j :: k in tests && FirstRepeat(tests[k].tests, j)
                                       && r.error == DuplicateError(tests[k].tests[j].name)
  {
    var remaining := tests.Keys;
    while remaining != {}
      invariant remaining <= tests.Keys
      invariant forall k :: k in tests && k !in remaining ==> DistinctNames(tests[k].tests)
      decreases remaining
    {
      var key :| key in remaining;
      var v := Validate(tests[key]);
      if v.Fail? {
        return v;
      }
      remaining := remaining - {key};
    }
    return Pass;
  }
}
