/** The last stage: terminated tests leave the running-test registry. */
module Termination {
  import opened Wrappers
  import opened HtpTests
  import opened RunningTests
  import opened Pipeline

  class TerminatedSink {
    const input: TestChannel

    /** The sink reads `Receiver<HtpTest<Terminated>>`. */
    predicate Wired()
      reads input
    {
      input.stage == Terminated && input.Valid()
    }

    constructor (input: TestChannel)
      requires input.stage == Terminated
      ensures this.input == input
    {
      this.input := input;
    }

    /** `desired_poll_delay`, in milliseconds. */
    function DesiredPollDelay(): (ms: nat)
      ensures 0 < ms <= MaxPollDelay
    {
      100
    }

    /** `process_one`: takes at most one terminated test and drops every
        registry entry with its specification id, keeping the others in
        order. It never fails. */
    method ProcessOne(registry: RunningTestMap) returns (res: Outcome<Error>)
      requires Wired()
      modifies input, registry
      ensures Wired() && input.closed == old(input.closed)
      ensures res == Pass
      ensures old(input.items) == [] ==> input.items == [] && registry.entries == old(registry.entries)
      ensures old(input.items) != [] ==>
                && input.items == old(input.items)[1..]
                && registry.entries == Without(old(registry.entries), old(input.items)[0].testSpecId)
    {
      var toProcess := input.TryRecv();
      if toProcess.None? {
        return Pass;
      }
      var id := toProcess.value.testSpecId;
      var es := registry.entries;
      var kept: seq<RunningTestMapEntry> := [];
      for i := 0 to |es|
        invariant kept == Without(es[..i], id)
      {
        assert es[..i + 1][..i] == es[..i];
        if es[i].id != id {
          kept := kept + [es[i]];
        }
      }
      assert es[..|es|] == es;
      registry.entries := kept;
      return Pass;
    }
  }
}
