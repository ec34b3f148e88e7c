/** The acquisition stage: validated tests become runnable ones. */
module Acquisition {
  import opened Wrappers
  import opened HtpTests
  import opened RunningTests
  import opened Pipeline

  /** The source reuses the preparation stage's message here. */
  const AquireFailed := "Config creation failed"

  /** The outcome of the acquisition work, which the source has not written
      yet: it is fixed to success. */
  const Placeholder: Outcome<Error> := Pass

  /** `HtpTest<Validated>::aquire`, given the outcome of its (future)
      acquisition work: success goes straight to Runnable (the Aquiring tag
      is never used), failure re-tags the record Terminated inside the
      error. Either way the registry entry follows. */
  method Aquire(t: HtpTest, registry: RunningTestMap, step: Outcome<Error>) returns (r: Result<HtpTest, StageError>)
    requires t.stage == Validated
    requires HasEntry(registry.entries, t.testSpecId)
    modifies registry
    ensures step.Pass? ==> r == Success(t.(stage := Runnable))
    ensures step.Fail? ==> r == Failure(StageError(AquireFailed, step.error, t.(stage := Terminated)))
    ensures registry.entries == Restage(old(registry.entries), t.testSpecId, Name(if step.Pass? then Runnable else Terminated))
  {
    match step {
      case Pass =>
        var u := CloneInto(t, Runnable, registry);
        r := Success(u);
      case Fail(err) =>
        var u := CloneInto(t, Terminated, registry);
        r := Failure(StageError(AquireFailed, err, u));
    }
  }

  class Aquirer {
    const input: TestChannel
    const output: TestChannel
    const outputTerminated: TestChannel

    /** The channel types of `Aquirer`: Validated in, Runnable out, and
        Terminated for failures. */
    predicate Wired()
      reads input, output, outputTerminated
    {
      && input.stage == Validated && output.stage == Runnable && outputTerminated.stage == Terminated
      && input.Valid() && output.Valid() && outputTerminated.Valid()
    }

    constructor (input: TestChannel, output: TestChannel, outputTerminated: TestChannel)
      ensures this.input == input && this.output == output && this.outputTerminated == outputTerminated
    {
      this.input := input;
      this.output := output;
      this.outputTerminated := outputTerminated;
    }

    /** `desired_poll_delay`, in milliseconds. */
    function DesiredPollDelay(): (ms: nat)
      ensures 0 < ms <= MaxPollDelay
    {
      100
    }

    /** `process_one`: with nothing queued, nothing happens; otherwise the
        oldest test is acquired and, acquisition always succeeding, sent on
        `output` with its registry entry moved to "Runnable". */
    method ProcessOne(registry: RunningTestMap) returns (res: Outcome<Error>)
      requires Wired()
      requires input.items != [] ==> HasEntry(registry.entries, input.items[0].testSpecId)
      modifies input, output, outputTerminated, registry
      ensures Wired()
      ensures input.closed == old(input.closed) && output.closed == old(output.closed)
      ensures outputTerminated.items == old(outputTerminated.items) && outputTerminated.closed == old(outputTerminated.closed)
      ensures old(input.items) == [] ==>
                && res == Pass && input.items == [] && output.items == old(output.items)
                && registry.entries == old(registry.entries)
      ensures old(input.items) != [] ==>
                var t := old(input.items)[0];
                && input.items == old(input.items)[1..]
                && registry.entries == Restage(old(registry.entries), t.testSpecId, "Runnable")
                && output.items == old(output.items) + (if output.closed then [] else [t.(stage := Runnable)])
                && res == (if output.closed then Fail(SendError) else Pass)
    {
      var toAquire := input.TryRecv();
      if toAquire.None? {
        return Pass;
      }
      var aquired := Aquire(toAquire.value, registry, Placeholder);
      res := Route(aquired, output, outputTerminated);
    }
  }
}
