/** `HTTPDataTaskSubscription` over a `URLRequestSender`
    (Base/HTTPDataTaskSubscription.swift): each positive demand sends the
    request once and hands the output to the subscriber, whose returned
    demand decides whether to send again. */
module SenderSubscription {
  import opened Wrappers
  import opened Net
  import opened HTTPErrors

  /** One round of the loop as the outside world answers it: what
      `sender.send()` returned or threw, and the demand the subscriber
      returned for the output. */
  datatype Step = Step(sent: Result<HTTPOutput, AnyError>, nextDemand: Demand)

  /** What the subscriber receives for one send. */
  function StepEvent(step: Step): (ev: Event<HTTPOutput, HTTPURLError>)
  {
    match step.sent
    case Success(output) => Value(output)
    case Failure(error) => Completion(Failed(AsHTTPURLError(error)))
  }

  /** How many sends `request(demand)` makes when the sends are answered by
      `steps` in turn. */
  function Consumed(demand: Demand, steps: seq<Step>): (n: nat)
    ensures n <= |steps|
    decreases |steps|
  {
    if !Positive(demand) || steps == [] then 0
    else if steps[0].sent.Failure? then 1
    else 1 + Consumed(steps[0].nextDemand, steps[1..])
  }

  /** What an attached subscriber receives from `request(demand)` as the
      sends are answered by `steps`; when `steps` runs out the loop is
      still waiting on a send. */
  function Run(demand: Demand, steps: seq<Step>): (events: seq<Event<HTTPOutput, HTTPURLError>>)
    ensures Consumed(demand, steps) <= |events| <= Consumed(demand, steps) + 1
    ensures !Positive(demand) ==> events == [Completion(Finished)]
    decreases |steps|
  {
    if !Positive(demand) then [Completion(Finished)]
    else if steps == [] then []
    else match steps[0].sent
      case Failure(error) => [Completion(Failed(AsHTTPURLError(error)))]
      case Success(output) => [Value(output)] + Run(steps[0].nextDemand, steps[1..])
  }

  /** The subscriber sees one event per send, in order, and a completion
      only as the last event. */
  lemma {:induction false} RunDeliversEachSend(demand: Demand, steps: seq<Step>)
    ensures forall i :: 0 <= i < Consumed(demand, steps) ==> Run(demand, steps)[i] == StepEvent(steps[i])
    ensures forall i :: 0 <= i < |Run(demand, steps)| - 1 ==> Run(demand, steps)[i].Value?
    decreases |steps|
  {
    if Positive(demand) && steps != [] && steps[0].sent.Success? {
      RunDeliversEachSend(steps[0].nextDemand, steps[1..]);
      var events := Run(demand, steps);
      var rest := Run(steps[0].nextDemand, steps[1..]);
      assert events == [Value(steps[0].sent.value)] + rest;
      forall i | 0 < i < Consumed(demand, steps)
        ensures events[i] == StepEvent(steps[i])
      {
        assert events[i] == rest[i - 1] && steps[i] == steps[1..][i - 1];
      }
      forall i | 0 < i < |events| - 1
        ensures events[i].Value?
      {
        assert events[i] == rest[i - 1];
      }
    }
  }

  /** A send error ends the loop: nothing after the first failing send is
      sent or delivered. */
  lemma {:induction false} FailureStopsTheLoop(demand: Demand, steps: seq<Step>, k: nat)
    requires Positive(demand) && k < |steps| && steps[k].sent.Failure?
    requires forall i :: 0 <= i < k ==> steps[i].sent.Success? && Positive(steps[i].nextDemand)
    ensures Consumed(demand, steps) == k + 1
    ensures Run(demand, steps)[k] == Completion(Failed(AsHTTPURLError(steps[k].sent.error)))
    ensures |Run(demand, steps)| == k + 1
    decreases k
  {
    RunDeliversEachSend(demand, steps);
    if k > 0 {
      FailureStopsTheLoop(steps[0].nextDemand, steps[1..], k - 1);
    }
  }

  /** One round: the send's event, then the rest of the run if it
      succeeded. */
  lemma RunUnfolds(demand: Demand, steps: seq<Step>)
    requires Positive(demand) && steps != []
    ensures Run(demand, steps) == [StepEvent(steps[0])] + (if steps[0].sent.Success? then Run(steps[0].nextDemand, steps[1..]) else [])
    ensures Consumed(demand, steps) == 1 + (if steps[0].sent.Success? then Consumed(steps[0].nextDemand, steps[1..]) else 0)
  {
  }

  class HTTPDataTaskSubscription {
    /** `subscriber != nil`. */
    var attached: bool
    /** Everything the subscriber has received, in order. */
    ghost var received: seq<Event<HTTPOutput, HTTPURLError>>
    /** How many times `sender.send()` was called. */
    ghost var sends: nat

    constructor ()
      ensures attached && received == [] && sends == 0
    {
      attached := true;
      received := [];
      sends := 0;
    }

    /** `cancel()`: only the subscriber is dropped. */
    method Cancel()
      modifies this
      ensures !attached && received == old(received) && sends == old(sends)
    {
      attached := false;
    }

    /** `request(_:)` and the `requestToPublisher` rounds it sets off,
        with the sends answered by `steps`; `sent` counts the sends. */
    method Request(demand: Demand, steps: seq<Step>) returns (sent: nat)
      modifies this
      ensures attached == old(attached)
      ensures !attached ==> received == old(received) && sent == 0
      ensures attached ==> received == old(received) + Run(demand, steps) && sent == Consumed(demand, steps)
      ensures sends == old(sends) + sent
    {
      sent := 0;
      if !attached {
        return;
      }
      var d := demand;
      var i := 0;
      var running := true;
      while running
        invariant 0 <= i <= |steps| && sent == i && sends == old(sends) + sent && attached
        invariant running ==> received + Run(d, steps[i..]) == old(received) + Run(demand, steps)
        invariant running ==> Consumed(demand, steps) == i + Consumed(d, steps[i..])
        invariant !running ==> received == old(received) + Run(demand, steps) && sent == Consumed(demand, steps)
        decreases |steps| - i, if running then 1 else 0
      {
        if !Positive(d) {
          received := received + [Completion(Finished)];
          running := false;
        } else if i == |steps| {
          assert steps[i..] == [];
          running := false;
        } else {
          var rest := steps[i..];
          RunUnfolds(d, rest);
          assert rest[0] == steps[i] && rest[1..] == steps[i + 1..];
          sent := sent + 1;
          sends := sends + 1;
          match steps[i].sent {
            case Failure(error) =>
              received := received + [Completion(Failed(AsHTTPURLError(error)))];
              running := false;
            case Success(output) =>
              received := received + [Value(output)];
              d := steps[i].nextDemand;
          }
          i := i + 1;
        }
      }
    }
  }
}
