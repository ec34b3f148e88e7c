/** The channels that connect the stage workers, the error a failed stage
    hands on, and the routing every worker shares: a success goes to the
    worker's `output`, a failure's terminated record to `output_terminated`. */
module Pipeline {
  import opened Wrappers
  import opened HtpTests

  /** The message of a send on a channel whose receivers are all gone. */
  const SendError := Message("sending on a disconnected channel")

  /** The ceiling the workers' comments put on a poll delay, in milliseconds. */
  const MaxPollDelay := 5000

  /** A FIFO channel of test records. Its `stage` is the type parameter of
      `Sender<HtpTest<Stage>>` / `Receiver<HtpTest<Stage>>`; `closed` says
      every receiver has been dropped. */
  class TestChannel {
    const stage: Stage
    var items: seq<HtpTest>
    var closed: bool

    /** Every queued record has the channel's stage. */
    predicate Valid()
      reads this
    {
      forall i :: 0 <= i < |items| ==> items[i].stage == stage
    }

    constructor (stage: Stage)
      ensures this.stage == stage && items == [] && !closed
    {
      this.stage := stage;
      items := [];
      closed := false;
    }

    /** `try_recv`: the oldest record, or nothing when the queue is empty. */
    method TryRecv() returns (r: Option<HtpTest>)
      requires Valid()
      modifies this
      ensures Valid() && closed == old(closed)
      ensures old(items) == [] ==> r == None && items == []
      ensures old(items) != [] ==> r == Some(old(items)[0]) && items == old(items)[1..]
      ensures r.Some? ==> r.value.stage == stage
    {
      if items == [] {
        return None;
      }
      r := Some(items[0]);
      items := items[1..];
    }

    /** `send`: appends the record, or fails when the channel is closed. */
    method Send(t: HtpTest) returns (res: Outcome<Error>)
      requires Valid()
      requires t.stage == stage
      modifies this
      ensures Valid() && closed == old(closed)
      ensures res == (if closed then Fail(SendError) else Pass)
      ensures items == old(items) + (if closed then [] else [t])
    {
      if closed {
        return Fail(SendError);
      }
      items := items + [t];
      return Pass;
    }
  }

  /** The error of a failed stage: a message, its cause, and the record
      re-tagged Terminated. */
  datatype StageError = StageError(msg: string, source: Error, terminated: HtpTest)

  /** The channel a stage result goes to. */
  function Target(r: Result<HtpTest, StageError>, output: TestChannel, outputTerminated: TestChannel): TestChannel
  {
    if r.Success? then output else outputTerminated
  }

  /** The record a stage result sends. */
  function Sent(r: Result<HtpTest, StageError>): HtpTest
  {
    if r.Success? then r.value else r.error.terminated
  }

  /** The `match` at the end of every `process_one`: exactly one send, on
      `output` for a success and on `output_terminated` for a failure; a
      send error is returned. The two channels may be the same one. */
  method Route(r: Result<HtpTest, StageError>, output: TestChannel, outputTerminated: TestChannel)
    returns (res: Outcome<Error>)
    requires output.Valid() && outputTerminated.Valid()
    requires Sent(r).stage == Target(r, output, outputTerminated).stage
    modifies output, outputTerminated
    ensures output.Valid() && outputTerminated.Valid()
    ensures output.closed == old(output.closed) && outputTerminated.closed == old(outputTerminated.closed)
    ensures var ch := Target(r, output, outputTerminated);
            && res == (if ch.closed then Fail(SendError) else Pass)
            && ch.items == old(ch.items) + (if ch.closed then [] else [Sent(r)])
    ensures output != outputTerminated ==>
              if r.Success? then outputTerminated.items == old(outputTerminated.items)
              else output.items == old(output.items)
  {
    if r.Success? {
      res := output.Send(r.value);
    } else {
      res := outputTerminated.Send(r.error.terminated);
    }
  }
}
