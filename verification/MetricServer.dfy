/** The metric server object itself: its methods carry out the transitions of MetricBarrier. */
module MetricServer {
  import opened MetricBarrier

  class MetricService {
    var fitClients: set<Client>
    var threshold: real
    var discountFactor: real
    var processedClients: nat
    var clientMetrics: seq<real>
    // the condition variable: calls in wait(), and calls notified that do not hold the lock yet
    var waiting: set<Client>
    var notified: set<Client>

    function State(): Server
      reads this
    {
      Server(fitClients, threshold, discountFactor, clientMetrics, processedClients, waiting, notified)
    }

    constructor (clients: set<Client>, threshold: real, discountFactor: real)
      ensures State() == Init(clients, threshold, discountFactor)
    {
      this.fitClients, this.threshold, this.discountFactor := clients, threshold, discountFactor;
      this.processedClients, this.clientMetrics, this.waiting, this.notified := 0, [], {}, {};
    }

    method AnyExceeds() returns (stop: bool)
      ensures stop == Exceeds(clientMetrics, threshold)
    {
      for i := 0 to |clientMetrics|
        invariant !Exceeds(clientMetrics[..i], threshold)
      {
        if clientMetrics[i] > threshold {
          return true;
        }
        assert clientMetrics[..i + 1] == clientMetrics[..i] + [clientMetrics[i]];
      }
      assert clientMetrics[..|clientMetrics|] == clientMetrics;
      return false;
    }

    method BatchReset()
      modifies this`clientMetrics, this`processedClients
      ensures clientMetrics == [] && processedClients == 0
    {
      clientMetrics := [];
      processedClients := 0;
    }

    /** The verdict, the count and the reset: what every call does before it gives the lock back. */
    method Conclude() returns (stop: bool)
      modifies this`clientMetrics, this`processedClients
      ensures stop == old(Exceeds(clientMetrics, threshold))
      ensures processedClients == if old(processedClients) + 1 == |fitClients| then 0 else old(processedClients) + 1
      ensures clientMetrics == if old(processedClients) + 1 == |fitClients| then [] else old(clientMetrics)
    {
      stop := AnyExceeds();
      processedClients := processedClients + 1;
      if processedClients == |fitClients| {
        BatchReset();
      }
    }

    /** SendMetricAndWait from taking the lock to its wait (`reply` is empty) or its return. */
    method SendMetric(client: Client, norm: real) returns (reply: seq<Reply>)
      requires Enabled(State(), Arrive(client, norm))
      modifies this`clientMetrics, this`processedClients, this`waiting, this`notified
      ensures State() == Next(old(State()), Arrive(client, norm))
      ensures reply == Emitted(old(State()), Arrive(client, norm))
    {
      clientMetrics := clientMetrics + [norm];
      if |clientMetrics| != |fitClients| {
        waiting := waiting + {client};
        return [];
      }
      notified, waiting := notified + waiting, {};
      var stop := Conclude();
      reply := [Reply(client, stop)];
    }

    /** SendMetricAndWait from the end of a wait, with the lock taken again, to its return. */
    method ResumeAfterWait(client: Client) returns (reply: seq<Reply>)
      requires Enabled(State(), Wake(client))
      modifies this`clientMetrics, this`processedClients, this`notified
      ensures State() == Next(old(State()), Wake(client))
      ensures reply == Emitted(old(State()), Wake(client))
    {
      notified := notified - {client};
      var stop := Conclude();
      reply := [Reply(client, stop)];
    }

    method UpdateThreshold(threshold: real)
      modifies this`threshold
      ensures this.threshold == threshold
    {
      this.threshold := threshold;
    }

    /** ResetRoundState, which takes no lock and leaves the counter and the waits alone,
        followed by the hand-out of the next round's clients. */
    method ResetRoundState(next: set<Client>)
      modifies this`clientMetrics, this`threshold, this`fitClients
      ensures State() == Next(old(State()), EndRound(next))
    {
      clientMetrics := [];
      UpdateThreshold(threshold * discountFactor);
      fitClients := next;
    }

    /** The selected proxies get their instructions and the monitor's counter becomes their number. */
    method HandOut(next: set<Client>)
      modifies this`fitClients
      ensures State() == old(State()).(clients := next)
    {
      fitClients := next;
    }
  }

  /** Ending a round with nobody handed out and handing out the next clients later is one EndRound. */
  lemma EndThenHandOut(s: Server, next: set<Client>)
    ensures Next(s, EndRound({})).(clients := next) == Next(s, EndRound(next))
  {
  }
}
