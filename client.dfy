/**
 The measuring `Client` object of `wifibench.py`, whose loops update its
 fields in place.  Each method is one atomic step of the read loop, of the
 status thread, or of the `shutdown` handler, and is proved against
 `ClientSpec.Step`.  Sockets are left out: `connect` is an outcome and
 `recv` a length `n` given by the caller.
 */
module Wifibench {
  import opened Throughput
  import opened ClientSpec

  class Client {
    /** Size argument of the constructor; `recv` asks for `packetSize * 1024` bytes. */
    const packetSize: nat

    /** Bytes received so far. */
    var counter: int
    /** The run flag; it only ever goes from true to false. */
    var doRun: bool
    var reader: Reader
    var sampler: Sampler
    /** The counter value `status` read at the start of its current tick. */
    var mark: int
    /** The samples printed so far. */
    var output: seq<Reading>
    /** The lengths the read loop has added to the counter, in order. */
    ghost var chunks: seq<nat>

    /** Bytes one `recv` call can return. */
    function RecvLimit(): nat
    {
      packetSize * 1024
    }

    ghost function State(): ClientSpec.State
      reads this
    {
      ClientSpec.State(counter, doRun, reader, sampler, mark, output, chunks)
    }

    ghost predicate Valid()
      reads this
    {
      Inv(State()) && ChunksBounded(chunks, RecvLimit())
    }

    /** `__init__` followed by the part of `start` that launches the status thread. */
    constructor (size: nat)
      ensures Valid()
      ensures packetSize == size
      ensures State() == Init()
    {
      packetSize := size;
      counter := 0;
      doRun := true;
      reader := Connecting;
      sampler := Snapshot;
      mark := 0;
      output := [];
      chunks := [];
    }

    /** The `connect` call of `start`; a `TypeError` is caught and clears the flag. */
    method Connect(outcome: ConnectOutcome)
      requires Valid()
      modifies this
      ensures Valid()
      ensures State() == Step(old(State()), ClientSpec.Connect(outcome))
      ensures old(reader) == Connecting && outcome == TypeFailure ==> !doRun && reader == Returned
    {
      if reader == Connecting {
        match outcome {
          case Connected =>
            reader := Receiving;
          case TypeFailure =>
            doRun := false;
            reader := Returned;
          case OtherFailure =>
            reader := Raised;
        }
      }
      StepInv(old(State()), ClientSpec.Connect(outcome));
    }

    /** One turn of the read loop of `start`: test the flag, then add what `recv` returned. */
    method Receive(n: nat)
      requires Valid()
      requires n <= RecvLimit()
      modifies this
      ensures Valid()
      ensures State() == Step(old(State()), Recv(n))
      ensures old(reader) == Receiving && old(doRun) ==> counter == old(counter) + n && chunks == old(chunks) + [n]
      ensures !old(doRun) ==> counter == old(counter)
    {
      if reader == Receiving {
        if doRun {
          counter := counter + n;
          chunks := chunks + [n];
        } else {
          reader := Returned;
        }
      }
      StepInv(old(State()), Recv(n));
    }

    /** One turn of the read loop in which `recv` raises; only `TypeError` is caught in `start`. */
    method ReceiveFails()
      requires Valid()
      modifies this
      ensures Valid()
      ensures State() == Step(old(State()), RecvFailure)
      ensures counter == old(counter) && doRun == old(doRun)
    {
      if reader == Receiving {
        if doRun {
          reader := Raised;
        } else {
          reader := Returned;
        }
      }
      StepInv(old(State()), RecvFailure);
    }

    /** The `shutdown` signal handler: clears the flag; counter and printed samples stay as they were. */
    method Shutdown()
      requires Valid()
      modifies this
      ensures Valid()
      ensures State() == Step(old(State()), Signal)
      ensures !doRun && counter == old(counter) && output == old(output)
    {
      doRun := false;
      StepInv(old(State()), Signal);
    }

    /**
     One step of `status`: read the counter at the start of a tick, or sleep
     one poll of `wait`, or, when the wait is over, leave if the flag is false
     and print the tick's sample otherwise.
     */
    method StatusStep()
      requires Valid()
      modifies this
      ensures Valid()
      ensures State() == Step(old(State()), Poll)
      ensures |output| > |old(output)| ==> old(doRun) && output == old(output) + [Sample(old(mark), old(counter))]
      ensures !old(doRun) ==> output == old(output)
    {
      match sampler {
        case Snapshot =>
          mark := counter;
          sampler := Waiting(0);
        case Waiting(k) =>
          if k < WaitPolls && doRun {
            sampler := Waiting(k + 1);
          } else if !doRun {
            sampler := Finished;
          } else {
            output := output + [Sample(mark, counter)];
            sampler := Snapshot;
          }
        case Finished =>
      }
      StepInv(old(State()), Poll);
    }

    /** Runs the steps of an interleaving of the two loops and the signal handler, in order. */
    method Run(trace: seq<Event>)
      requires Valid()
      requires RecvBounded(trace, RecvLimit())
      modifies this
      ensures Valid()
      ensures State() == Exec(old(State()), trace)
    {
      var i := 0;
      while i < |trace|
        invariant 0 <= i <= |trace|
        invariant Valid()
        invariant State() == Exec(old(State()), trace[..i])
      {
        assert trace[..i + 1][..i] == trace[..i];
        match trace[i] {
          case Connect(o) => Connect(o);
          case Recv(n) => Receive(n);
          case RecvFailure => ReceiveFails();
          case Signal => Shutdown();
          case Poll => StatusStep();
        }
        i := i + 1;
      }
      assert trace[..i] == trace;
    }
  }
}
