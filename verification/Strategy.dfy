/** The server's strategy: who trains in a round, and what each result carries after it. */
module Strategy {
  import opened Options
  import opened MonitorState
  import opened DropoutLoop
  import opened Averages
  import opened Ns3RoundStats
  import MetricServer
  import MetricBarrier

  /** A client's result: the metrics it reported itself and the simulated ones joined to them. */
  datatype FitRes = FitRes(cid: Cid, examples: nat, l2Norm: real, simulated: Option<Entry>)

  /** The clients handed out, or what the simulated round raised. */
  datatype Configured = FitClients(cids: seq<Cid>) | Raised(error: Outcome)

  predicate Registered(selected: seq<Cid>, cidToIndex: map<Cid, nat>) {
    forall c <- selected :: c in cidToIndex
  }

  /** The indices the selected clients are known by in the simulator. */
  function IndexList(selected: seq<Cid>, cidToIndex: map<Cid, nat>): (r: seq<nat>)
    requires Registered(selected, cidToIndex)
    ensures |r| == |selected| && forall i :: 0 <= i < |selected| ==> r[i] == cidToIndex[selected[i]]
  {
    seq(|selected|, i requires 0 <= i < |selected| => cidToIndex[selected[i]])
  }

  lemma IndexListHas(selected: seq<Cid>, cidToIndex: map<Cid, nat>)
    requires Registered(selected, cidToIndex)
    ensures forall c <- selected :: cidToIndex[c] in IndexList(selected, cidToIndex)
    ensures forall i <- IndexList(selected, cidToIndex) :: exists c :: c in selected && cidToIndex[c] == i
  {
    forall c <- selected ensures cidToIndex[c] in IndexList(selected, cidToIndex) {
      var k :| 0 <= k < |selected| && selected[k] == c;
      assert IndexList(selected, cidToIndex)[k] == cidToIndex[c];
    }
    forall i <- IndexList(selected, cidToIndex) ensures exists c :: c in selected && cidToIndex[c] == i {
      var k :| 0 <= k < |selected| && IndexList(selected, cidToIndex)[k] == i;
      assert selected[k] in selected;
    }
  }

  /** The simulator says that this client failed. */
  function DropsOut(cidToIndex: map<Cid, nat>, sim: map<nat, Record>): Cid -> bool {
    c => c in cidToIndex && cidToIndex[c] in sim && Failed(sim[cidToIndex[c]])
  }

  /** `drops` holds of exactly those selected clients one of whose three simulated times is not positive. */
  ghost predicate TellsWhoFailed(drops: Cid -> bool, selected: seq<Cid>, cidToIndex: map<Cid, nat>,
                                 sim: map<nat, Record>) {
    forall c <- selected ::
      && c in cidToIndex && cidToIndex[c] in sim
      && var r := sim[cidToIndex[c]];
         drops(c) <==> r.downlinkTime <= 0.0 || r.uplinkTime <= 0.0 || r.computationTime <= 0.0
  }

  /** Dropping out is just that. */
  lemma DropsOutTells(selected: seq<Cid>, cidToIndex: map<Cid, nat>, sim: map<nat, Record>)
    requires Registered(selected, cidToIndex) && Answered(IndexList(selected, cidToIndex), sim)
    ensures TellsWhoFailed(DropsOut(cidToIndex, sim), selected, cidToIndex, sim)
  {
    IndexListHas(selected, cidToIndex);
  }

  /** What the popping loop makes of a selection, told by the three times who failed. */
  ghost predicate Dropped(selected: seq<Cid>, cidToIndex: map<Cid, nat>, sim: map<nat, Record>,
                          kept: seq<Cid>, removed: seq<Cid>) {
    forall drops: Cid -> bool :: TellsWhoFailed(drops, selected, cidToIndex, sim) ==>
      kept == KeptFrom(selected, drops, 0) && removed == RemovedFrom(selected, drops, 0)
  }

  lemma LoopDrops(selected: seq<Cid>, cidToIndex: map<Cid, nat>, sim: map<nat, Record>)
    requires Registered(selected, cidToIndex) && Answered(IndexList(selected, cidToIndex), sim)
    ensures var drops := DropsOut(cidToIndex, sim);
      Dropped(selected, cidToIndex, sim, KeptFrom(selected, drops, 0), RemovedFrom(selected, drops, 0))
  {
    DropsOutTells(selected, cidToIndex, sim);
    forall drops: Cid -> bool | TellsWhoFailed(drops, selected, cidToIndex, sim)
      ensures KeptFrom(selected, DropsOut(cidToIndex, sim), 0) == KeptFrom(selected, drops, 0)
      ensures RemovedFrom(selected, DropsOut(cidToIndex, sim), 0) == RemovedFrom(selected, drops, 0)
    {
      SameDrops(selected, DropsOut(cidToIndex, sim), drops, 0);
    }
  }

  /** The dictionary flags this client as a dropout. */
  function Flagged(cidToIndex: map<Cid, nat>, records: map<nat, Entry>): Cid -> bool {
    c => c in cidToIndex && cidToIndex[c] in records && records[cidToIndex[c]].dropout == Some(1)
  }

  /** The barrier knows its participants by their indices. */
  function IndicesOf(cids: seq<Cid>, cidToIndex: map<Cid, nat>): set<nat> {
    set c <- cids | c in cidToIndex :: cidToIndex[c]
  }

  lemma FlaggedDropsOut(selected: seq<Cid>, cidToIndex: map<Cid, nat>, sim: map<nat, Record>)
    requires Registered(selected, cidToIndex) && Answered(IndexList(selected, cidToIndex), sim)
    ensures forall c <- selected ::
      Flagged(cidToIndex, MarkAll(IndexList(selected, cidToIndex), sim))(c) == DropsOut(cidToIndex, sim)(c)
  {
    IndexListHas(selected, cidToIndex);
    MarkAllAt(IndexList(selected, cidToIndex), sim);
  }

  /** Nobody has succeeded exactly if everybody selected drops out. */
  lemma NoSuccess(selected: seq<Cid>, cidToIndex: map<Cid, nat>, sim: map<nat, Record>)
    requires Registered(selected, cidToIndex) && Answered(IndexList(selected, cidToIndex), sim)
    ensures Successes(IndexList(selected, cidToIndex), sim) == []
      <==> forall c <- selected :: DropsOut(cidToIndex, sim)(c)
  {
    var ok := Successes(IndexList(selected, cidToIndex), sim);
    IndexListHas(selected, cidToIndex);
    SuccessesAre(IndexList(selected, cidToIndex), sim);
    if ok != [] {
      assert ok[0] in ok;
    } else {
      forall c <- selected ensures DropsOut(cidToIndex, sim)(c) {
        assert cidToIndex[c] !in ok;
      }
    }
  }

  /** What the simulated round of a selection comes to. */
  ghost predicate Simulates(res: Outcome, selected: seq<Cid>, cidToIndex: map<Cid, nat>, numClients: nat,
                            sim: map<nat, Record>)
    requires Registered(selected, cidToIndex)
  {
    var clients := IndexList(selected, cidToIndex);
    && (res == IndexError <==> exists i :: i in clients && i >= numClients)
    && (res == KeyError <==> res != IndexError && !Answered(clients, sim))
    && (res == MaxOfEmpty ==> Answered(clients, sim) && Successes(clients, sim) == [])
    && (res.Completed? ==> Answered(clients, sim) && Successes(clients, sim) != [] && res.records == MarkAll(clients, sim)
                           && IsTotal(clients, sim, [], res.totalRoundTime))
  }

  /** The selection cannot be simulated, or nobody in it succeeds. */
  ghost predicate Raises(selected: seq<Cid>, cidToIndex: map<Cid, nat>, numClients: nat, sim: map<nat, Record>)
    requires Registered(selected, cidToIndex)
  {
    || (exists i :: i in IndexList(selected, cidToIndex) && i >= numClients)
    || !Answered(IndexList(selected, cidToIndex), sim)
    || (forall c <- selected :: DropsOut(cidToIndex, sim)(c))
  }

  lemma RaisesIff(res: Outcome, selected: seq<Cid>, cidToIndex: map<Cid, nat>, numClients: nat, sim: map<nat, Record>)
    requires Registered(selected, cidToIndex) && Simulates(res, selected, cidToIndex, numClients, sim)
    ensures !res.Completed? <==> Raises(selected, cidToIndex, numClients, sim)
  {
    if Answered(IndexList(selected, cidToIndex), sim) {
      NoSuccess(selected, cidToIndex, sim);
    }
  }

  // ------------------------------------------------------------- the join

  /** dict.update with one entry: the simulated values are replaced, the flag only if the entry has one. */
  function Updated(before: Option<Entry>, e: Entry): Option<Entry> {
    Some(Entry(e.record, if e.dropout.Some? then e.dropout else if before.Some? then before.value.dropout else None))
  }

  predicate Matches(id: nat, indexToCid: map<nat, Cid>, cid: Cid) {
    id in indexToCid && indexToCid[id] == cid
  }

  /** What a result of `cid` carries when the loop over the dictionary has seen the ids `order`. */
  function JoinedEntry(order: seq<nat>, records: map<nat, Entry>, indexToCid: map<nat, Cid>, cid: Cid,
                       before: Option<Entry>): Option<Entry>
    requires forall id <- order :: id in records
  {
    if order == [] then before
    else
      var id := order[|order| - 1];
      var rest := JoinedEntry(order[..|order| - 1], records, indexToCid, cid, before);
      if Matches(id, indexToCid, cid) then Updated(rest, records[id]) else rest
  }

  /** The last id of `order` that was registered for `cid`. */
  function LastMatch(order: seq<nat>, indexToCid: map<nat, Cid>, cid: Cid): (r: Option<nat>)
    ensures r.Some? ==> r.value in order && Matches(r.value, indexToCid, cid)
    ensures r == None ==> forall id <- order :: !Matches(id, indexToCid, cid)
  {
    if order == [] then None
    else
      var id := order[|order| - 1];
      var r := LastMatch(order[..|order| - 1], indexToCid, cid);
      assert forall x <- order :: x == id || x in order[..|order| - 1];
      if Matches(id, indexToCid, cid) then Some(id) else r
  }

  /** Of all the ids of a client only `own` carries a flag. */
  predicate OnlyOwnFlagged(order: seq<nat>, records: map<nat, Entry>, indexToCid: map<nat, Cid>, cid: Cid, own: nat) {
    forall id <- order :: id in records && (Matches(id, indexToCid, cid) && id != own ==> records[id].dropout == None)
  }

  lemma {:induction false} JoinFollowsLastMatch(order: seq<nat>, records: map<nat, Entry>, indexToCid: map<nat, Cid>,
                                                cid: Cid, own: nat, before: Option<Entry>)
    requires OnlyOwnFlagged(order, records, indexToCid, cid, own) && Matches(own, indexToCid, cid)
    requires own in records && records[own].dropout.Some?
    ensures var last, joined := LastMatch(order, indexToCid, cid), JoinedEntry(order, records, indexToCid, cid, before);
      if last == None then joined == before
      else joined.Some? && joined.value.record == records[last.value].record
           && (own in order ==> joined.value.dropout == records[own].dropout)
  {
    if order == [] {
    } else {
      var init, id := order[..|order| - 1], order[|order| - 1];
      assert order == init + [id];
      assert OnlyOwnFlagged(init, records, indexToCid, cid, own);
      JoinFollowsLastMatch(init, records, indexToCid, cid, own, before);
    }
  }

  class FedAvgWithGeometric {
    const monitor: Monitor
    const metricServer: MetricServer.MetricService
    const numClients: nat  // of the simulated network
    var ns3Res: map<nat, Entry>
    var dropouts: seq<Cid>

    constructor (monitor: Monitor, metricServer: MetricServer.MetricService, numClients: nat)
      ensures this.monitor == monitor && this.metricServer == metricServer && this.numClients == numClients
    {
      this.monitor, this.metricServer, this.numClients := monitor, metricServer, numClients;
      ns3Res, dropouts := map[], [];
    }

    method Indices(selected: seq<Cid>) returns (clients: seq<nat>)
      requires monitor.Valid() && Registered(selected, monitor.cidToIndex)
      ensures clients == IndexList(selected, monitor.cidToIndex)
    {
      clients := [];
      for i := 0 to |selected|
        invariant |clients| == i
        invariant forall k :: 0 <= k < i ==> clients[k] == monitor.cidToIndex[selected[k]]
      {
        clients := clients + [monitor.cidToIndex[selected[i]]];
      }
    }

    /** Runs the simulated round; what it raises passes through. */
    method Ns3Simulation(selected: seq<Cid>, sim: map<nat, Record>) returns (res: Outcome)
      requires monitor.Valid() && Registered(selected, monitor.cidToIndex)
      ensures Simulates(res, selected, monitor.cidToIndex, numClients, sim)
    {
      var clients := Indices(selected);
      var ns3 := new Ns3Round(clients);
      res := ns3.RoundExec(numClients, sim);
      if res.MaxOfEmpty? || res.Completed? {
        assert |ns3.roundTimes| == |StatsOf(clients, sim).times| == |Successes(clients, sim)|;
      }
    }

    /** The loop over the selection, popping flagged dropouts at the enumerated index. */
    method DropFlagged(selected: seq<Cid>, ghost sim: map<nat, Record>) returns (cids: seq<Cid>)
      requires Registered(selected, monitor.cidToIndex) && Answered(IndexList(selected, monitor.cidToIndex), sim)
      requires ns3Res == MarkAll(IndexList(selected, monitor.cidToIndex), sim)
      modifies this`dropouts
      ensures cids == KeptFrom(selected, DropsOut(monitor.cidToIndex, sim), 0)
      ensures dropouts == RemovedFrom(selected, DropsOut(monitor.cidToIndex, sim), 0)
      ensures Dropped(selected, monitor.cidToIndex, sim, cids, dropouts)
    {
      LoopDrops(selected, monitor.cidToIndex, sim);
      FlaggedDropsOut(selected, monitor.cidToIndex, sim);
      SameDrops(selected, Flagged(monitor.cidToIndex, ns3Res), DropsOut(monitor.cidToIndex, sim), 0);
      cids, dropouts := PopWhileEnumerating(selected, Flagged(monitor.cidToIndex, ns3Res));
    }

    method HandOut(cids: seq<Cid>, round: int)
      modifies monitor`numFitClients, monitor`round, metricServer`fitClients
      ensures monitor.numFitClients == |cids| && monitor.round == round
      ensures metricServer.State() == old(metricServer.State()).(clients := IndicesOf(cids, monitor.cidToIndex))
    {
      monitor.SetFitClients(|cids|);
      monitor.SetRound(round);
      metricServer.HandOut(IndicesOf(cids, monitor.cidToIndex));
    }

    /** Pops the dropouts a simulated round has flagged, and hands out the rest. */
    method Select(round: int, selected: seq<Cid>, ghost sim: map<nat, Record>) returns (cids: seq<Cid>)
      requires monitor.Valid() && Registered(selected, monitor.cidToIndex)
      requires Answered(IndexList(selected, monitor.cidToIndex), sim)
      requires ns3Res == MarkAll(IndexList(selected, monitor.cidToIndex), sim)
      modifies this`dropouts, monitor`numFitClients, monitor`round, metricServer`fitClients
      ensures monitor.Valid() && monitor.numFitClients == |cids| && monitor.round == round
      ensures cids == KeptFrom(selected, DropsOut(monitor.cidToIndex, sim), 0)
      ensures dropouts == RemovedFrom(selected, DropsOut(monitor.cidToIndex, sim), 0)
      ensures Dropped(selected, monitor.cidToIndex, sim, cids, dropouts)
      ensures metricServer.State() == old(metricServer.State()).(clients := IndicesOf(cids, monitor.cidToIndex))
    {
      cids := DropFlagged(selected, sim);
      HandOut(cids, round);
    }

    /** Simulates the round, then pops dropouts from the selection while enumerating it. The barrier's
        size becomes the number of clients really handed out, second-of-a-pair dropouts included. If the
        simulated round raises, nothing changes. */
    method ConfigureFit(round: int, selected: seq<Cid>, sim: map<nat, Record>) returns (r: Configured)
      requires monitor.Valid() && Registered(selected, monitor.cidToIndex)
      modifies this`ns3Res, this`dropouts, monitor`numFitClients, monitor`round, metricServer`fitClients
      ensures monitor.Valid() && monitor.history == old(monitor.history)
      ensures r.Raised? <==> Raises(selected, monitor.cidToIndex, numClients, sim)
      ensures r.Raised? ==> Simulates(r.error, selected, monitor.cidToIndex, numClients, sim)
      ensures r.Raised? ==>
        && ns3Res == old(ns3Res) && dropouts == old(dropouts) && metricServer.State() == old(metricServer.State())
        && monitor.numFitClients == old(monitor.numFitClients) && monitor.round == old(monitor.round)
      ensures r.FitClients? ==>
        && r.cids == KeptFrom(selected, DropsOut(monitor.cidToIndex, sim), 0)
        && dropouts == RemovedFrom(selected, DropsOut(monitor.cidToIndex, sim), 0)
        && Dropped(selected, monitor.cidToIndex, sim, r.cids, dropouts)
        && monitor.numFitClients == |r.cids| && monitor.round == round
        && metricServer.State() == old(metricServer.State()).(clients := IndicesOf(r.cids, monitor.cidToIndex))
        && Answered(IndexList(selected, monitor.cidToIndex), sim)
        && ns3Res == MarkAll(IndexList(selected, monitor.cidToIndex), sim)
    {
      var res := Ns3Simulation(selected, sim);
      RaisesIff(res, selected, monitor.cidToIndex, numClients, sim);
      if !res.Completed? {
        return Raised(res);
      }
      ns3Res := res.records;
      var cids := Select(round, selected, sim);
      r := FitClients(cids);
    }

    /** Ends the round: resets the barrier, hands out nobody, and joins the simulated records.
        `order` lists the keys of the record dictionary in its iteration order. */
    method AggregateFit(results: seq<FitRes>, order: seq<nat>) returns (joined: seq<FitRes>)
      requires monitor.Valid() && forall id <- order :: id in ns3Res
      modifies monitor`numFitClients
      modifies metricServer`clientMetrics, metricServer`threshold, metricServer`fitClients
      ensures metricServer.State() == MetricBarrier.Next(old(metricServer.State()), MetricBarrier.EndRound({}))
      ensures monitor.Valid() && monitor.numFitClients == 0
      ensures |joined| == |results|
      ensures forall k :: 0 <= k < |results| ==> joined[k] == results[k].(
        simulated := JoinedEntry(order, ns3Res, monitor.indexToCid, results[k].cid, results[k].simulated))
    {
      metricServer.ResetRoundState({});
      monitor.SetFitClients(0);
      joined := [];
      for k := 0 to |results|
        invariant monitor.Valid() && |joined| == k
        invariant forall j :: 0 <= j < k ==> joined[j] == results[j].(
          simulated := JoinedEntry(order, ns3Res, monitor.indexToCid, results[j].cid, results[j].simulated))
      {
        var res := results[k];
        for i := 0 to |order|
          invariant res == results[k].(
            simulated := JoinedEntry(order[..i], ns3Res, monitor.indexToCid, results[k].cid, results[k].simulated))
        {
          assert order[..i + 1][..i] == order[..i];
          if monitor.GetCid(order[i]) == Some(res.cid) {
            res := res.(simulated := Updated(res.simulated, ns3Res[order[i]]));
          }
        }
        assert order[..|order|] == order;
        joined := joined + [res];
      }
    }
  }

  // ---------------------------------------------------- metric aggregation

  datatype Aggregated =
    | Aggregated(averageNorm: real, roundTime: real, averageDownlink: real, averageComputation: real,
                 averageUplink: real, averageThroughput: real)
    | MaxOfEmptyData
    | MissingKey

  predicate AllJoined(data: seq<FitRes>) {
    forall r <- data :: r.simulated.Some?
  }

  function Column(data: seq<FitRes>, value: Record -> real): (r: seq<real>)
    requires AllJoined(data)
    ensures |r| == |data| && forall i :: 0 <= i < |data| ==> r[i] == value(data[i].simulated.value.record)
  {
    seq(|data|, i requires 0 <= i < |data| => value(data[i].simulated.value.record))
  }

  function Norms(data: seq<FitRes>): (r: seq<real>)
    ensures |r| == |data| && forall i :: 0 <= i < |data| ==> r[i] == data[i].l2Norm
  {
    seq(|data|, i requires 0 <= i < |data| => data[i].l2Norm)
  }

  function Times(data: seq<FitRes>): seq<real>
    requires AllJoined(data)
  {
    Column(data, (r: Record) => RoundTime(r))
  }

  /** The longest time of any result: downlink, computation and uplink together. */
  ghost predicate IsSlowest(data: seq<FitRes>, time: real)
    requires AllJoined(data)
  {
    && (forall f <- data :: var e := f.simulated.value.record; e.downlinkTime + e.computationTime + e.uplinkTime <= time)
    && exists f :: f in data &&
         var e := f.simulated.value.record; e.downlinkTime + e.computationTime + e.uplinkTime == time
  }

  lemma MaxIsSlowest(data: seq<FitRes>, time: real)
    requires AllJoined(data) && IsMax(Times(data), time)
    ensures IsSlowest(data, time)
  {
    forall f <- data ensures RoundTime(f.simulated.value.record) <= time {
      var i :| 0 <= i < |data| && data[i] == f;
      assert Times(data)[i] <= time;
    }
    var i :| 0 <= i < |data| && Times(data)[i] == time;
    assert data[i] in data && RoundTime(data[i].simulated.value.record) == time;
  }

  function AverageOf(xs: seq<real>): (a: real)
    requires xs != []
    ensures IsAverage(xs, a)
  {
    AverageIsAverage(xs);
    Average(xs)
  }

  /** The documented aggregation rule. Its guards against an empty list never help: max raises first. */
  function MetricHandling(data: seq<FitRes>): (r: Aggregated)
    ensures r == MissingKey <==> !AllJoined(data)
    ensures r == MaxOfEmptyData <==> data == []
    ensures r.Aggregated? ==>
      && IsMax(Times(data), r.roundTime) && IsSlowest(data, r.roundTime)
      && IsAverage(Norms(data), r.averageNorm)
      && IsAverage(Column(data, (e: Record) => e.downlinkTime), r.averageDownlink)
      && IsAverage(Column(data, (e: Record) => e.computationTime), r.averageComputation)
      && IsAverage(Column(data, (e: Record) => e.uplinkTime), r.averageUplink)
      && IsAverage(Column(data, (e: Record) => e.throughput), r.averageThroughput)
  {
    if data == [] then MaxOfEmptyData
    else if !AllJoined(data) then MissingKey
    else
      MaxIsSlowest(data, Max(Times(data)));
      Aggregated(AverageOf(Norms(data)), Max(Times(data)), AverageOf(Column(data, (e: Record) => e.downlinkTime)),
                    AverageOf(Column(data, (e: Record) => e.computationTime)),
                    AverageOf(Column(data, (e: Record) => e.uplinkTime)),
                    AverageOf(Column(data, (e: Record) => e.throughput)))
  }
}
