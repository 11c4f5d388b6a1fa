/** One round's bookkeeping from the selection to the aggregated metrics: the simulation, the hand-out,
    the join and the aggregation rule put together, over every registration history. */
module RoundBookkeeping {
  import opened Options
  import opened MonitorState
  import opened DropoutLoop
  import opened Averages
  import opened Ns3RoundStats
  import opened Strategy

  datatype Setup = Setup(selected: seq<Cid>, cidToIndex: map<Cid, nat>, indexToCid: map<nat, Cid>, sim: map<nat, Record>)

  /** The simulator answers for every selected client. */
  predicate Simulated(s: Setup) {
    Registered(s.selected, s.cidToIndex) && Answered(IndexList(s.selected, s.cidToIndex), s.sim)
  }

  /** ... and the id maps have come about by registrations, in any number. */
  ghost predicate Ready(s: Setup, history: seq<Cid>) {
    MapsOf(history, s.cidToIndex, s.indexToCid) && Simulated(s)
  }

  function Drops(s: Setup): Cid -> bool {
    DropsOut(s.cidToIndex, s.sim)
  }

  /** The clients that train: what the popping loop leaves of the selection. */
  function HandedOut(s: Setup): seq<Cid> {
    KeptFrom(s.selected, Drops(s), 0)
  }

  function IndexOf(s: Setup, c: Cid): nat
    requires Simulated(s) && c in s.selected
    ensures IndexOf(s, c) in s.sim
  {
    IndexListHas(s.selected, s.cidToIndex);
    s.cidToIndex[c]
  }

  /** A client's own simulated record as the round marks it. */
  function Own(s: Setup, c: Cid): Entry
    requires Simulated(s) && c in s.selected
  {
    Entry(s.sim[IndexOf(s, c)], Some(Flag(s.sim[IndexOf(s, c)])))
  }

  function TimeOf(s: Setup, c: Cid): real
    requires Simulated(s) && c in s.selected
  {
    RoundTime(s.sim[IndexOf(s, c)])
  }

  lemma HandedOutWasSelected(s: Setup, c: Cid)
    ensures c in HandedOut(s) ==> c in s.selected
    ensures c in s.selected && !Drops(s)(c) ==> c in HandedOut(s)
  {
    LoopConserves(s.selected, Drops(s));
    var kept, removed := HandedOut(s), RemovedFrom(s.selected, Drops(s), 0);
    assert c in s.selected <==> c in multiset(kept) + multiset(removed);
    assert c in removed ==> Drops(s)(c);
  }

  // --------------------------------------------------------- barrier size

  ghost predicate Distinct(cids: seq<Cid>) {
    forall i, j :: 0 <= i < j < |cids| ==> cids[i] != cids[j]
  }

  lemma {:induction false} OnePerClient(cids: seq<Cid>, cidToIndex: map<Cid, nat>, indexToCid: map<nat, Cid>)
    requires Distinct(cids)
    requires forall c <- cids :: c in cidToIndex && cidToIndex[c] in indexToCid && indexToCid[cidToIndex[c]] == c
    ensures |IndicesOf(cids, cidToIndex)| == |cids|
  {
    if cids == [] {
    } else {
      var init, last := cids[..|cids| - 1], cids[|cids| - 1];
      OnePerClient(init, cidToIndex, indexToCid);
      assert IndicesOf(cids, cidToIndex) == IndicesOf(init, cidToIndex) + {cidToIndex[last]};
    }
  }

  lemma {:induction false} DistinctOnce(cids: seq<Cid>, c: Cid)
    requires Distinct(cids)
    ensures multiset(cids)[c] <= 1
  {
    if cids == [] {
    } else {
      var init, last := cids[..|cids| - 1], cids[|cids| - 1];
      DistinctOnce(init, c);
      assert cids == init + [last] && last !in init;
      assert last !in multiset(init);
    }
  }

  lemma OnceIsDistinct(cids: seq<Cid>)
    requires forall c :: multiset(cids)[c] <= 1
    ensures Distinct(cids)
  {
    forall i, j | 0 <= i < j < |cids| ensures cids[i] != cids[j] {
      var a, b := cids[..j], cids[j..];
      assert a[i] == cids[i] && b[0] == cids[j];
      assert cids == a + b;
      assert cids[i] in multiset(a) && cids[j] in multiset(b);
      assert multiset(cids)[cids[i]] == multiset(a)[cids[i]] + multiset(b)[cids[i]];
    }
  }

  /** The count that sizes the barrier is the number of participants who will call it, whichever
      dropouts the popping loop leaves in, when the sampled clients are distinct. */
  lemma BarrierSizeIsHandOut(s: Setup, history: seq<Cid>)
    requires MapsOf(history, s.cidToIndex, s.indexToCid) && Registered(s.selected, s.cidToIndex)
    requires Distinct(s.selected)
    ensures |IndicesOf(HandedOut(s), s.cidToIndex)| == |HandedOut(s)|
  {
    LoopConserves(s.selected, Drops(s));
    var kept, removed := HandedOut(s), RemovedFrom(s.selected, Drops(s), 0);
    forall c ensures multiset(kept)[c] <= 1 {
      DistinctOnce(s.selected, c);
      assert multiset(s.selected)[c] == multiset(kept)[c] + multiset(removed)[c];
    }
    OnceIsDistinct(kept);
    forall c <- kept ensures c in s.cidToIndex {
      HandedOutWasSelected(s, c);
    }
    InverseIffRegisteredOnce(history, s.cidToIndex, s.indexToCid);
    OnePerClient(kept, s.cidToIndex, s.indexToCid);
  }

  // ------------------------------------------------------------- the join

  /** `order` lists the keys of the round's dictionary. */
  predicate Lists(s: Setup, order: seq<nat>) {
    (forall id <- order :: id in s.sim) && forall id <- s.sim :: id in order
  }

  function Records(s: Setup): (r: map<nat, Entry>)
    requires Simulated(s)
    ensures r.Keys == s.sim.Keys
  {
    MarkAllAt(IndexList(s.selected, s.cidToIndex), s.sim);
    MarkAll(IndexList(s.selected, s.cidToIndex), s.sim)
  }

  /** What the result of client c carries after the join. */
  function Carries(s: Setup, order: seq<nat>, c: Cid, before: Option<Entry>): Option<Entry>
    requires Simulated(s) && Lists(s, order)
  {
    JoinedEntry(order, Records(s), s.indexToCid, c, before)
  }

  /** The last id in the iteration order that was registered for c has c's own record. */
  predicate NotOvertaken(s: Setup, order: seq<nat>, c: Cid)
    requires Simulated(s) && Lists(s, order) && c in s.selected
  {
    var last := LastMatch(order, s.indexToCid, c);
    last.Some? && s.sim[last.value] == s.sim[IndexOf(s, c)]
  }

  lemma OnlyOwnIsFlagged(s: Setup, history: seq<Cid>, order: seq<nat>, c: Cid)
    requires Ready(s, history) && Lists(s, order) && c in s.selected
    ensures OnlyOwnFlagged(order, Records(s), s.indexToCid, c, IndexOf(s, c))
    ensures Matches(IndexOf(s, c), s.indexToCid, c) && Records(s)[IndexOf(s, c)] == Own(s, c)
  {
    var clients := IndexList(s.selected, s.cidToIndex);
    IndexListHas(s.selected, s.cidToIndex);
    MarkAllAt(clients, s.sim);
    InverseIffRegisteredOnce(history, s.cidToIndex, s.indexToCid);
    forall id <- order ensures Matches(id, s.indexToCid, c) && id != IndexOf(s, c) ==> Records(s)[id].dropout == None {
      if id in clients {
        var c' :| c' in s.selected && s.cidToIndex[c'] == id;
      }
    }
  }

  /** Over every registration history: the result of a selected client carries its own flag and the
      record of the last id listed for it, so its own record exactly if that id was not overtaken. */
  lemma CarriesOwnIff(s: Setup, history: seq<Cid>, order: seq<nat>, c: Cid, before: Option<Entry>)
    requires Ready(s, history) && Lists(s, order) && c in s.selected
    ensures Carries(s, order, c, before).Some?
    ensures Carries(s, order, c, before).value.dropout == Own(s, c).dropout
    ensures Carries(s, order, c, before) == Some(Own(s, c)) <==> NotOvertaken(s, order, c)
  {
    OnlyOwnIsFlagged(s, history, order, c);
    JoinFollowsLastMatch(order, Records(s), s.indexToCid, c, IndexOf(s, c), before);
    MarkAllAt(IndexList(s.selected, s.cidToIndex), s.sim);
  }

  /** Nothing overtakes if no id was registered twice ... */
  lemma RegisteredOnceSuffices(s: Setup, history: seq<Cid>, order: seq<nat>, c: Cid)
    requires Ready(s, history) && Lists(s, order) && c in s.selected && RegisteredOnce(history)
    ensures NotOvertaken(s, order, c)
  {
    OnlyOwnIsFlagged(s, history, order, c);
    InverseIffRegisteredOnce(history, s.cidToIndex, s.indexToCid);
  }

  /** ... or if the simulator answers for nobody but the selection, whatever the history. */
  lemma AskedOnlySuffices(s: Setup, history: seq<Cid>, order: seq<nat>, c: Cid)
    requires Ready(s, history) && Lists(s, order) && c in s.selected
    requires forall id <- s.sim :: id in IndexList(s.selected, s.cidToIndex)
    ensures NotOvertaken(s, order, c)
  {
    OnlyOwnIsFlagged(s, history, order, c);
    IndexListHas(s.selected, s.cidToIndex);
    InverseIffRegisteredOnce(history, s.cidToIndex, s.indexToCid);
    var last := LastMatch(order, s.indexToCid, c).value;
    var c' :| c' in s.selected && s.cidToIndex[c'] == last;
  }

  /** The simulator lists its answers by ascending id. */
  predicate Ascending(order: seq<nat>) {
    forall i, j :: 0 <= i < j < |order| ==> order[i] < order[j]
  }

  lemma {:induction false} LargestComesLast(order: seq<nat>, indexToCid: map<nat, Cid>, c: Cid, own: nat)
    requires Ascending(order) && own in order && Matches(own, indexToCid, c)
    requires forall id <- order :: Matches(id, indexToCid, c) ==> id <= own
    ensures LastMatch(order, indexToCid, c) == Some(own)
  {
    var init, id := order[..|order| - 1], order[|order| - 1];
    assert order == init + [id];
    if id == own {
    } else {
      var k :| 0 <= k < |order| && order[k] == own;
      assert id > own && own in init by { assert init[k] == own; }
      LargestComesLast(init, indexToCid, c, own);
    }
  }

  /** ... or if the answers are listed by ascending id, whatever the history and whoever is answered for: a
      client's own index is the latest and so the largest that leads to it. */
  lemma AscendingSuffices(s: Setup, history: seq<Cid>, order: seq<nat>, c: Cid)
    requires Ready(s, history) && Lists(s, order) && c in s.selected && Ascending(order)
    ensures NotOvertaken(s, order, c)
  {
    OnlyOwnIsFlagged(s, history, order, c);
    assert LatestIndex(history, c, IndexOf(s, c));
    LargestComesLast(order, s.indexToCid, c, IndexOf(s, c));
  }

  /** The order matters: from a peer that listed a stale record last, a client registered twice would get
      that record. */
  lemma StaleRecordWins(stale: Record, own: Record)
    requires stale != own
    ensures
      var s := Setup(["a"], map["a" := 1], map[0 := "a", 1 := "a"], map[0 := stale, 1 := own]);
      && Ready(s, ["a", "a"]) && Lists(s, [1, 0])
      && Carries(s, [1, 0], "a", None) == Some(Entry(stale, Some(Flag(own))))
  {
    var s := Setup(["a"], map["a" := 1], map[0 := "a", 1 := "a"], map[0 := stale, 1 := own]);
    assert LatestIndex(["a", "a"], "a", 1);
    assert IndexList(s.selected, s.cidToIndex) == [1];
    assert [1, 0][1] == 0 && [1, 0][0] == 1;
    assert LastMatch([1, 0], s.indexToCid, "a") == Some(0);
    OnlyOwnIsFlagged(s, ["a", "a"], [1, 0], "a");
    JoinFollowsLastMatch([1, 0], Records(s), s.indexToCid, "a", 1, None);
    MarkAllAt([1], s.sim);
  }

  // ------------------------------------------------------- the round time

  /** The results of exactly the clients handed out, in any order, joined as aggregate_fit joins them. */
  ghost predicate Joined(s: Setup, order: seq<nat>, results: seq<FitRes>, joined: seq<FitRes>)
    requires Simulated(s)
  {
    && Lists(s, order)
    && (forall r <- results :: r.cid in HandedOut(s))
    && (forall c <- HandedOut(s) :: exists k :: 0 <= k < |results| && results[k].cid == c)
    && |joined| == |results|
    && forall k :: 0 <= k < |results| ==>
         joined[k] == results[k].(simulated := Carries(s, order, results[k].cid, results[k].simulated))
  }

  /** What the aggregation rule sees: the handed-out clients, each once or more, with their own times. */
  ghost predicate Carried(s: Setup, data: seq<FitRes>)
    requires Simulated(s)
  {
    && (forall r <- data :: r.cid in s.selected && r.cid in HandedOut(s) && r.simulated == Some(Own(s, r.cid)))
    && forall c <- HandedOut(s) :: c in s.selected && exists k :: 0 <= k < |data| && data[k].cid == c
  }

  lemma JoinedIsCarried(s: Setup, history: seq<Cid>, order: seq<nat>, results: seq<FitRes>, joined: seq<FitRes>)
    requires Ready(s, history) && Joined(s, order, results, joined)
    requires forall c <- HandedOut(s) :: c in s.selected ==> NotOvertaken(s, order, c)
    ensures Carried(s, joined)
  {
    forall k: nat | k < |joined|
      ensures joined[k].cid in s.selected && joined[k].cid in HandedOut(s)
      ensures joined[k].simulated == Some(Own(s, joined[k].cid))
    {
      assert results[k] in results;
      HandedOutWasSelected(s, results[k].cid);
      CarriesOwnIff(s, history, order, results[k].cid, results[k].simulated);
    }
    forall c <- HandedOut(s) ensures c in s.selected && exists k :: 0 <= k < |joined| && joined[k].cid == c {
      HandedOutWasSelected(s, c);
      var k :| 0 <= k < |results| && results[k].cid == c;
      assert joined[k].cid == c;
    }
  }

  /** The client that sets the simulated total is handed out. */
  lemma SlowestTrains(s: Setup, total: real) returns (c: Cid)
    requires Simulated(s) && total in RoundTimes(Successes(IndexList(s.selected, s.cidToIndex), s.sim), s.sim)
    ensures c in s.selected && c in HandedOut(s) && TimeOf(s, c) == total
  {
    var ok := Successes(IndexList(s.selected, s.cidToIndex), s.sim);
    IndexListHas(s.selected, s.cidToIndex);
    SuccessesAre(IndexList(s.selected, s.cidToIndex), s.sim);
    var j :| 0 <= j < |ok| && RoundTime(s.sim[ok[j]]) == total;
    assert ok[j] in ok;
    c :| c in s.selected && s.cidToIndex[c] == ok[j];
    HandedOutWasSelected(s, c);
  }

  lemma SucceededWithin(s: Setup, total: real, c: Cid)
    requires Simulated(s) && IsMax(RoundTimes(Successes(IndexList(s.selected, s.cidToIndex), s.sim), s.sim), total)
    requires c in s.selected && !Drops(s)(c)
    ensures TimeOf(s, c) <= total
  {
    var ok := Successes(IndexList(s.selected, s.cidToIndex), s.sim);
    IndexListHas(s.selected, s.cidToIndex);
    SuccessesAre(IndexList(s.selected, s.cidToIndex), s.sim);
    var j :| 0 <= j < |ok| && ok[j] == IndexOf(s, c);
    assert RoundTimes(ok, s.sim)[j] == TimeOf(s, c);
  }

  /** The reported round time is the largest time of any handed-out client. */
  lemma ReportedIsSlowest(s: Setup, data: seq<FitRes>) returns (last: Cid)
    requires Simulated(s) && Carried(s, data) && data != []
    ensures MetricHandling(data).Aggregated?
    ensures last in HandedOut(s) && TimeOf(s, last) == MetricHandling(data).roundTime
    ensures forall c <- HandedOut(s) :: TimeOf(s, c) <= MetricHandling(data).roundTime
  {
    var t := MetricHandling(data).roundTime;
    var m :| 0 <= m < |data| && Times(data)[m] == t;
    last := data[m].cid;
    assert data[m] in data;
    forall c <- HandedOut(s) ensures TimeOf(s, c) <= t {
      var j :| 0 <= j < |data| && data[j].cid == c;
      assert data[j] in data;
      assert Times(data)[j] == TimeOf(s, c);
    }
  }

  /** Position i of the selection is a dropout that slips through the popping loop: it stands at an odd
      offset of its run of neighbouring dropouts. */
  predicate SlipsThrough(s: Setup, i: nat)
    requires i < |s.selected|
  {
    Drops(s)(s.selected[i]) && RunBefore(s.selected, Drops(s), i) % 2 == 1
  }

  /** No dropout that slips through is slower than the slowest success. */
  predicate SlippedWithin(s: Setup, total: real)
    requires Simulated(s)
  {
    forall i: nat :: i < |s.selected| && SlipsThrough(s, i) ==> TimeOf(s, s.selected[i]) <= total
  }

  lemma HandedOutWithinIff(s: Setup, total: real)
    requires Simulated(s) && IsMax(RoundTimes(Successes(IndexList(s.selected, s.cidToIndex), s.sim), s.sim), total)
    ensures forall c <- HandedOut(s) :: c in s.selected
    ensures (forall c <- HandedOut(s) :: TimeOf(s, c) <= total) <==> SlippedWithin(s, total)
  {
    LoopRemovesEvenOffsets(s.selected, Drops(s), 0);
    forall c <- HandedOut(s) ensures c in s.selected {
      HandedOutWasSelected(s, c);
    }
    forall i: nat | i < |s.selected| && SlipsThrough(s, i) ensures s.selected[i] in HandedOut(s) {
      SelectedAt(s.selected, Drops(s), false, 0, i);
    }
    if SlippedWithin(s, total) {
      forall c <- HandedOut(s) ensures TimeOf(s, c) <= total {
        var i := SelectedFrom(s.selected, Drops(s), false, 0, c);
        if !Drops(s)(c) {
          SucceededWithin(s, total, c);
        } else {
          assert SlipsThrough(s, i);
        }
      }
    }
  }

  /** From the selection to the aggregated metrics, over every history and order in which no stale record
      overtakes: the reported round time is at least the total the simulator stated, and equal to it exactly
      if no dropout that slips through the popping loop is slower. */
  lemma ReportedTimeNotOvertaken(s: Setup, history: seq<Cid>, order: seq<nat>, results: seq<FitRes>,
                                 joined: seq<FitRes>, total: real)
    requires Ready(s, history) && Joined(s, order, results, joined)
    requires forall c <- HandedOut(s) :: c in s.selected ==> NotOvertaken(s, order, c)
    requires IsMax(RoundTimes(Successes(IndexList(s.selected, s.cidToIndex), s.sim), s.sim), total)
    ensures MetricHandling(joined).Aggregated? && MetricHandling(joined).roundTime >= total
    ensures MetricHandling(joined).roundTime == total <==> SlippedWithin(s, total)
  {
    JoinedIsCarried(s, history, order, results, joined);
    var slowest := SlowestTrains(s, total);
    assert joined != [];
    var last := ReportedIsSlowest(s, joined);
    HandedOutWithinIff(s, total);
  }

  /** The same over every history whatever, for answers listed by ascending id. */
  lemma ReportedTimeIff(s: Setup, history: seq<Cid>, order: seq<nat>, results: seq<FitRes>, joined: seq<FitRes>,
                        total: real)
    requires Ready(s, history) && Joined(s, order, results, joined) && Ascending(order)
    requires IsMax(RoundTimes(Successes(IndexList(s.selected, s.cidToIndex), s.sim), s.sim), total)
    ensures MetricHandling(joined).Aggregated? && MetricHandling(joined).roundTime >= total
    ensures MetricHandling(joined).roundTime == total <==> SlippedWithin(s, total)
  {
    forall c <- HandedOut(s) ensures c in s.selected ==> NotOvertaken(s, order, c) {
      if c in s.selected {
        AscendingSuffices(s, history, order, c);
      }
    }
    ReportedTimeNotOvertaken(s, history, order, results, joined, total);
  }

  lemma NoneSlips(s: Setup, total: real)
    requires Simulated(s) && NoTwoAdjacent(s.selected, Drops(s))
    ensures SlippedWithin(s, total)
  {
    forall i: nat | i < |s.selected| ensures !SlipsThrough(s, i) {
      if i > 0 && Drops(s)(s.selected[i]) {
        assert !Drops(s)(s.selected[i - 1]);
      }
      assert RunBefore(s.selected, Drops(s), i) == 0 || !Drops(s)(s.selected[i]);
    }
  }

  /** With no two adjacent dropouts the reported round time is the simulated total. */
  lemma RoundTimeAgrees(s: Setup, history: seq<Cid>, order: seq<nat>, results: seq<FitRes>, joined: seq<FitRes>,
                        total: real)
    requires Ready(s, history) && Joined(s, order, results, joined) && Ascending(order)
    requires IsMax(RoundTimes(Successes(IndexList(s.selected, s.cidToIndex), s.sim), s.sim), total)
    requires NoTwoAdjacent(s.selected, Drops(s))
    ensures MetricHandling(joined).Aggregated? && MetricHandling(joined).roundTime == total
  {
    NoneSlips(s, total);
    ReportedTimeIff(s, history, order, results, joined, total);
  }

  /** Two neighbouring dropouts and a success: the second dropout, with its 18 seconds, trains. */
  const SLOW_DROPOUT := Setup(["a", "bb", "ccc"], map["a" := 0, "bb" := 1, "ccc" := 2], map[0 := "a", 1 := "bb", 2 := "ccc"],
    map[0 := Record(0.0, 1.0, 1.0, 1.0), 1 := Record(0.0, 9.0, 9.0, 1.0), 2 := Record(1.0, 1.0, 1.0, 1.0)])

  lemma OnlyLastSucceeds()
    ensures Answered([0, 1, 2], SLOW_DROPOUT.sim)
    ensures RoundTimes(Successes([0, 1, 2], SLOW_DROPOUT.sim), SLOW_DROPOUT.sim) == [3.0]
  {
    var sim := SLOW_DROPOUT.sim;
    assert [0, 1, 2][..2] == [0, 1] && [0, 1][..1] == [0] && [0][..0] == [];
    assert Successes([0], sim) == [];
    assert Successes([0, 1], sim) == [];
    assert Successes([0, 1, 2], sim) == [2];
  }

  lemma ThreeNames()
    ensures RegisteredOnce(["a", "bb", "ccc"])
  {
    assert |"a"| == 1 && |"bb"| == 2 && |"ccc"| == 3;
  }

  lemma ThreeRegistrations()
    ensures MapsOf(["a", "bb", "ccc"], SLOW_DROPOUT.cidToIndex, SLOW_DROPOUT.indexToCid)
  {
    var history := ["a", "bb", "ccc"];
    ThreeNames();
    assert history[0] == "a" && history[1] == "bb" && history[2] == "ccc";
    assert LatestIndex(history, "a", 0) && LatestIndex(history, "bb", 1) && LatestIndex(history, "ccc", 2);
  }

  lemma ThreeIndices()
    requires Registered(SLOW_DROPOUT.selected, SLOW_DROPOUT.cidToIndex)
    ensures IndexList(SLOW_DROPOUT.selected, SLOW_DROPOUT.cidToIndex) == [0, 1, 2]
  {
    var selected := SLOW_DROPOUT.selected;
    assert selected[0] == "a" && selected[1] == "bb" && selected[2] == "ccc";
  }

  lemma SlowDropoutIsReady()
    ensures Ready(SLOW_DROPOUT, ["a", "bb", "ccc"])
    ensures IndexList(SLOW_DROPOUT.selected, SLOW_DROPOUT.cidToIndex) == [0, 1, 2]
  {
    ThreeRegistrations();
    OnlyLastSucceeds();
    ThreeIndices();
  }

  lemma SecondDropoutSlips()
    requires Simulated(SLOW_DROPOUT)
    ensures !SlippedWithin(SLOW_DROPOUT, 3.0)
  {
    var s := SLOW_DROPOUT;
    assert s.selected[0] == "a" && s.selected[1] == "bb";
    assert RunBefore(s.selected, Drops(s), 1) == 1;
    assert SlipsThrough(s, 1);
    assert TimeOf(s, s.selected[1]) == 18.0;
  }

  lemma NobodyOvertaken(s: Setup, history: seq<Cid>, order: seq<nat>)
    requires Ready(s, history) && Lists(s, order) && RegisteredOnce(history)
    ensures forall c <- HandedOut(s) :: c in s.selected ==> NotOvertaken(s, order, c)
  {
    forall c <- HandedOut(s) ensures c in s.selected ==> NotOvertaken(s, order, c) {
      if c in s.selected {
        RegisteredOnceSuffices(s, history, order, c);
      }
    }
  }

  lemma SlowDropoutTotals()
    requires Simulated(SLOW_DROPOUT) && IndexList(SLOW_DROPOUT.selected, SLOW_DROPOUT.cidToIndex) == [0, 1, 2]
    ensures IsMax(RoundTimes(Successes(IndexList(SLOW_DROPOUT.selected, SLOW_DROPOUT.cidToIndex), SLOW_DROPOUT.sim),
                             SLOW_DROPOUT.sim), 3.0)
  {
    OnlyLastSucceeds();
    assert 3.0 in [3.0];
  }

  lemma SlippedDropoutReported(s: Setup, history: seq<Cid>, order: seq<nat>, results: seq<FitRes>, joined: seq<FitRes>,
                               total: real)
    requires Ready(s, history) && RegisteredOnce(history) && Joined(s, order, results, joined)
    requires IsMax(RoundTimes(Successes(IndexList(s.selected, s.cidToIndex), s.sim), s.sim), total)
    requires !SlippedWithin(s, total)
    ensures MetricHandling(joined).Aggregated? && MetricHandling(joined).roundTime > total
  {
    NobodyOvertaken(s, history, order);
    ReportedTimeNotOvertaken(s, history, order, results, joined, total);
  }

  /** ... and the server reports more than the total of 3 seconds that the simulator states. */
  lemma SlippedDropoutCounts(order: seq<nat>, results: seq<FitRes>, joined: seq<FitRes>)
    requires Simulated(SLOW_DROPOUT) && Joined(SLOW_DROPOUT, order, results, joined)
    ensures IsMax(RoundTimes(Successes(IndexList(SLOW_DROPOUT.selected, SLOW_DROPOUT.cidToIndex), SLOW_DROPOUT.sim),
                             SLOW_DROPOUT.sim), 3.0)
    ensures MetricHandling(joined).Aggregated? && MetricHandling(joined).roundTime > 3.0
  {
    SlowDropoutIsReady();
    ThreeNames();
    SlowDropoutTotals();
    SecondDropoutSlips();
    SlippedDropoutReported(SLOW_DROPOUT, ["a", "bb", "ccc"], order, results, joined, 3.0);
  }
}
