/** One simulated network round: who dropped out, and the statistics of those who did not. */
module Ns3RoundStats {
  import opened Options
  import opened Averages

  /** The simulator's answer for one client. */
  datatype Record = Record(downlinkTime: real, uplinkTime: real, computationTime: real, throughput: real)

  /** An entry of the round's dictionary; the flag is only written for selected clients. */
  datatype Entry = Entry(record: Record, dropout: Option<nat>)

  datatype Outcome =
    | Completed(records: map<nat, Entry>, totalRoundTime: real)
    | IndexError
    | KeyError
    | MaxOfEmpty

  predicate Failed(r: Record) {
    r.downlinkTime <= 0.0 || r.uplinkTime <= 0.0 || r.computationTime <= 0.0
  }

  function Flag(r: Record): nat {
    if Failed(r) then 1 else 0
  }

  function RoundTime(r: Record): real {
    r.downlinkTime + r.computationTime + r.uplinkTime
  }

  predicate Answered(clients: seq<nat>, sim: map<nat, Record>) {
    forall c <- clients :: c in sim
  }

  /** The clients that did not drop out, in the order of the selection. */
  function Successes(clients: seq<nat>, sim: map<nat, Record>): (ok: seq<nat>)
    requires Answered(clients, sim)
    ensures Answered(ok, sim)
  {
    if clients == [] then []
    else Successes(clients[..|clients| - 1], sim)
         + if Failed(sim[clients[|clients| - 1]]) then [] else [clients[|clients| - 1]]
  }

  lemma {:induction false} SuccessesAre(clients: seq<nat>, sim: map<nat, Record>)
    requires Answered(clients, sim)
    ensures forall c :: c in Successes(clients, sim) <==>
      c in clients && sim[c].downlinkTime > 0.0 && sim[c].uplinkTime > 0.0 && sim[c].computationTime > 0.0
  {
    if clients == [] {
    } else {
      SuccessesAre(clients[..|clients| - 1], sim);
      assert clients == clients[..|clients| - 1] + [clients[|clients| - 1]];
    }
  }

  function Throughputs(clients: seq<nat>, sim: map<nat, Record>): (r: seq<real>)
    requires Answered(clients, sim)
  {
    seq(|clients|, i requires 0 <= i < |clients| => sim[clients[i]].throughput)
  }

  function RoundTimes(clients: seq<nat>, sim: map<nat, Record>): (r: seq<real>)
    requires Answered(clients, sim)
  {
    seq(|clients|, i requires 0 <= i < |clients| => RoundTime(sim[clients[i]]))
  }

  function DropoutFlags(clients: seq<nat>, sim: map<nat, Record>): (r: seq<nat>)
    requires Answered(clients, sim)
  {
    seq(|clients|, i requires 0 <= i < |clients| => Flag(sim[clients[i]]))
  }

  function Unmarked(sim: map<nat, Record>): map<nat, Entry> {
    map i <- sim :: Entry(sim[i], None)
  }

  /** All the simulator's answers, with a flag for every selected client. */
  function MarkAll(clients: seq<nat>, sim: map<nat, Record>): map<nat, Entry>
    requires Answered(clients, sim)
  {
    if clients == [] then Unmarked(sim)
    else
      var c := clients[|clients| - 1];
      MarkAll(clients[..|clients| - 1], sim)[c := Entry(sim[c], Some(Flag(sim[c])))]
  }

  /** The dictionary holds every answer of the simulator, asked for or not, and flags exactly the
      selected clients, each by whether one of its times is not positive. */
  lemma {:induction false} MarkAllAt(clients: seq<nat>, sim: map<nat, Record>)
    requires Answered(clients, sim)
    ensures MarkAll(clients, sim).Keys == sim.Keys
    ensures forall i <- sim :: MarkAll(clients, sim)[i].record == sim[i]
    ensures forall i <- sim :: i !in clients ==> MarkAll(clients, sim)[i].dropout == None
    ensures forall i <- clients ::
      var ok := sim[i].downlinkTime > 0.0 && sim[i].uplinkTime > 0.0 && sim[i].computationTime > 0.0;
      MarkAll(clients, sim)[i].dropout == Some(if ok then 0 else 1)
  {
    if clients == [] {
    } else {
      MarkAllAt(clients[..|clients| - 1], sim);
      assert clients == clients[..|clients| - 1] + [clients[|clients| - 1]];
    }
  }

  /** The statistics a round accumulates. */
  datatype Stats = Stats(dropouts: seq<nat>, processed: seq<nat>, throughputs: seq<real>, times: seq<real>)

  function StatsOf(clients: seq<nat>, sim: map<nat, Record>): Stats
    requires Answered(clients, sim)
  {
    var ok := Successes(clients, sim);
    Stats(DropoutFlags(clients, sim), ok, Throughputs(ok, sim), RoundTimes(ok, sim))
  }

  function Plus(a: Stats, b: Stats): Stats {
    Stats(a.dropouts + b.dropouts, a.processed + b.processed, a.throughputs + b.throughputs, a.times + b.times)
  }

  /** What one more client adds: a dropout only its flag. */
  function StatsOfOne(c: nat, r: Record): Stats {
    if Failed(r) then Stats([1], [], [], []) else Stats([0], [c], [r.throughput], [RoundTime(r)])
  }

  lemma StatsSnoc(clients: seq<nat>, sim: map<nat, Record>, c: nat)
    requires Answered(clients, sim) && c in sim
    ensures Answered(clients + [c], sim)
    ensures StatsOf(clients + [c], sim) == Plus(StatsOf(clients, sim), StatsOfOne(c, sim[c]))
  {
    if Failed(sim[c]) {
      assert Plus(StatsOf(clients, sim), StatsOfOne(c, sim[c])).throughputs == Throughputs(Successes(clients, sim), sim);
    }
  }

  /** What the statistics of a selection say, client by client. */
  lemma StatsAre(clients: seq<nat>, sim: map<nat, Record>)
    requires Answered(clients, sim)
    ensures var st := StatsOf(clients, sim);
      && |st.dropouts| == |clients| && |st.processed| == |st.throughputs| == |st.times|
      && (forall i :: 0 <= i < |clients| ==>
           var r := sim[clients[i]];
           var ok := r.downlinkTime > 0.0 && r.uplinkTime > 0.0 && r.computationTime > 0.0;
           st.dropouts[i] == if ok then 0 else 1)
      && (forall i :: 0 <= i < |st.processed| ==>
           && st.processed[i] in sim && st.throughputs[i] == sim[st.processed[i]].throughput
           && var r := sim[st.processed[i]]; st.times[i] == r.downlinkTime + r.computationTime + r.uplinkTime)
  {
  }

  lemma PlusAssociates(a: Stats, b: Stats, c: Stats)
    ensures Plus(Plus(a, b), c) == Plus(a, Plus(b, c))
  {
  }

  /** Where the first client without an answer stands. */
  ghost predicate FirstMissing(clients: seq<nat>, sim: map<nat, Record>, i: nat) {
    i < |clients| && clients[i] !in sim && Answered(clients[..i], sim)
  }

  datatype Bitmap = Bitmap(bits: seq<nat>) | OutOfRange

  /** The participant list as a 0/1 vector over all clients. */
  method ParseClients(numClients: nat, clients: seq<nat>) returns (r: Bitmap)
    ensures r == OutOfRange <==> exists c :: c in clients && c >= numClients
    ensures r.Bitmap? ==>
      |r.bits| == numClients && forall i :: 0 <= i < numClients ==> r.bits[i] == if i in clients then 1 else 0
  {
    var bits := seq(numClients, _ => 0);
    for j := 0 to |clients|
      invariant |bits| == numClients && forall c <- clients[..j] :: c < numClients
      invariant forall i :: 0 <= i < numClients ==> bits[i] == if i in clients[..j] then 1 else 0
    {
      assert clients[..j + 1] == clients[..j] + [clients[j]];
      if clients[j] >= numClients {
        assert clients[j] in clients;
        return OutOfRange;
      }
      bits := bits[clients[j] := 1];
    }
    assert clients[..|clients|] == clients;
    r := Bitmap(bits);
  }

  /** The largest of the times of earlier rounds and of the successes, each the sum of its three parts. */
  ghost predicate IsTotal(clients: seq<nat>, sim: map<nat, Record>, earlier: seq<real>, total: real)
    requires Answered(clients, sim)
  {
    && (forall x <- earlier :: x <= total)
    && (forall c <- clients :: var r := sim[c];
         r.downlinkTime > 0.0 && r.uplinkTime > 0.0 && r.computationTime > 0.0 ==>
           r.downlinkTime + r.computationTime + r.uplinkTime <= total)
    && (total in earlier || exists c :: c in clients && var r := sim[c];
         && r.downlinkTime > 0.0 && r.uplinkTime > 0.0 && r.computationTime > 0.0
         && r.downlinkTime + r.computationTime + r.uplinkTime == total)
  }

  lemma TotalIsMax(clients: seq<nat>, sim: map<nat, Record>, earlier: seq<real>, total: real)
    requires Answered(clients, sim) && IsMax(earlier + StatsOf(clients, sim).times, total)
    ensures IsTotal(clients, sim, earlier, total)
  {
    var ok, times := Successes(clients, sim), StatsOf(clients, sim).times;
    SuccessesAre(clients, sim);
    forall x <- earlier ensures x <= total {
      var i :| 0 <= i < |earlier| && earlier[i] == x;
      assert (earlier + times)[i] == x;
    }
    forall c <- ok ensures RoundTime(sim[c]) <= total {
      var i :| 0 <= i < |ok| && ok[i] == c;
      assert (earlier + times)[|earlier| + i] == times[i] == RoundTime(sim[c]);
    }
    if total !in earlier {
      var i :| 0 <= i < |times| && times[i] == total;
      assert ok[i] in ok && RoundTime(sim[ok[i]]) == total;
    }
  }

  class Ns3Round {
    const clients: seq<nat>
    var throughputs: seq<real>
    var roundTimes: seq<real>
    var dropouts: seq<nat>
    var processedClients: seq<nat>
    var avgThroughput: real

    constructor (clients: seq<nat>)
      ensures this.clients == clients && State() == Stats([], [], [], []) && avgThroughput == 0.0
    {
      this.clients := clients;
      throughputs, roundTimes, dropouts, processedClients, avgThroughput := [], [], [], [], 0.0;
    }

    function State(): Stats
      reads this
    {
      Stats(dropouts, processedClients, throughputs, roundTimes)
    }

    method RecordClient(client: nat, record: Record) returns (dropout: nat)
      modifies this`dropouts, this`throughputs, this`roundTimes, this`processedClients
      ensures dropout == Flag(record) && State() == Plus(old(State()), StatsOfOne(client, record))
    {
      if record.downlinkTime <= 0.0 || record.uplinkTime <= 0.0 || record.computationTime <= 0.0 {
        dropouts := dropouts + [1];
        return 1;
      }
      dropouts := dropouts + [0];
      throughputs := throughputs + [record.throughput];
      roundTimes := roundTimes + [record.downlinkTime + record.computationTime + record.uplinkTime];
      processedClients := processedClients + [client];
      return 0;
    }

    /** Classifies the selected clients in order, up to the first one without an answer. */
    method Classify(sim: map<nat, Record>) returns (complete: bool, records: map<nat, Entry>)
      modifies this`dropouts, this`throughputs, this`roundTimes, this`processedClients
      ensures complete <==> Answered(clients, sim)
      ensures complete ==>
        State() == Plus(old(State()), StatsOf(clients, sim)) && records == MarkAll(clients, sim)
      ensures !complete ==> exists i: nat ::
        FirstMissing(clients, sim, i) && State() == Plus(old(State()), StatsOf(clients[..i], sim))
    {
      records := map i <- sim :: Entry(sim[i], None);
      for i := 0 to |clients|
        invariant Answered(clients[..i], sim)
        invariant State() == Plus(old(State()), StatsOf(clients[..i], sim)) && records == MarkAll(clients[..i], sim)
      {
        var client := clients[i];
        if client !in sim {
          assert FirstMissing(clients, sim, i);
          return false, records;
        }
        assert clients[..i + 1] == clients[..i] + [client];
        StatsSnoc(clients[..i], sim, client);
        PlusAssociates(old(State()), StatsOf(clients[..i], sim), StatsOfOne(client, sim[client]));
        var dropout := RecordClient(client, sim[client]);
        records := records[client := Entry(sim[client], Some(dropout))];
      }
      assert clients[..|clients|] == clients;
      complete := true;
    }

    /** The whole round: the participant bitmap for the simulator, the classification of its answers, and
        the summary. An index beyond the simulated clients and a client without an answer raise, and so
        does Python's max when no client has succeeded. */
    method RoundExec(numClients: nat, sim: map<nat, Record>) returns (r: Outcome)
      modifies this
      ensures r == IndexError <==> exists c :: c in clients && c >= numClients
      ensures r == IndexError ==> State() == old(State()) && avgThroughput == old(avgThroughput)
      ensures r == KeyError <==> r != IndexError && !Answered(clients, sim)
      ensures r == KeyError ==> avgThroughput == old(avgThroughput) && exists i: nat ::
        FirstMissing(clients, sim, i) && State() == Plus(old(State()), StatsOf(clients[..i], sim))
      ensures r.MaxOfEmpty? || r.Completed? ==>
        && Answered(clients, sim) && State() == Plus(old(State()), StatsOf(clients, sim))
        && (if throughputs == [] then avgThroughput == old(avgThroughput) else IsAverage(throughputs, avgThroughput))
      ensures r == MaxOfEmpty ==> roundTimes == []
      ensures r.Completed? ==> IsMax(roundTimes, r.totalRoundTime) && r.records == MarkAll(clients, sim)
      ensures r.Completed? ==> IsTotal(clients, sim, old(roundTimes), r.totalRoundTime)
    {
      var parsed := ParseClients(numClients, clients);
      if parsed == OutOfRange {
        return IndexError;
      }
      var complete, records := Classify(sim);
      if !complete {
        return KeyError;
      }
      if |throughputs| > 0 {
        AverageIsAverage(throughputs);
        avgThroughput := Average(throughputs);
      }
      if roundTimes == [] {
        return MaxOfEmpty;
      }
      TotalIsMax(clients, sim, old(roundTimes), Max(roundTimes));
      r := Completed(records, Max(roundTimes));
    }
  }
}
