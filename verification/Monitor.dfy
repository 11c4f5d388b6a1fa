/** Client ids and their ns-3 indices, over every history of registrations. */
module MonitorState {
  import opened Options

  type Cid = string

  ghost predicate LatestIndex(history: seq<Cid>, c: Cid, i: nat) {
    i < |history| && history[i] == c && forall j :: i < j < |history| ==> history[j] != c
  }

  /** The two maps after registering the ids of `history` in order. */
  ghost predicate MapsOf(history: seq<Cid>, cidToIndex: map<Cid, nat>, indexToCid: map<nat, Cid>) {
    && (forall i :: i in indexToCid <==> 0 <= i < |history|)
    && (forall i | 0 <= i < |history| :: indexToCid[i] == history[i])
    && (forall c :: c in cidToIndex <==> c in history)
    && (forall c <- cidToIndex :: LatestIndex(history, c, cidToIndex[c]))
  }

  ghost predicate RegisteredOnce(history: seq<Cid>) {
    forall i, j :: 0 <= i < j < |history| ==> history[i] != history[j]
  }

  ghost predicate MutualInverses(cidToIndex: map<Cid, nat>, indexToCid: map<nat, Cid>) {
    && (forall c <- cidToIndex :: cidToIndex[c] in indexToCid && indexToCid[cidToIndex[c]] == c)
    && (forall i <- indexToCid :: indexToCid[i] in cidToIndex && cidToIndex[indexToCid[i]] == i)
  }

  /** Going from an id to its index and back is always the identity; the other way round it is
      exactly when no id was registered twice. */
  lemma InverseIffRegisteredOnce(history: seq<Cid>, cidToIndex: map<Cid, nat>, indexToCid: map<nat, Cid>)
    requires MapsOf(history, cidToIndex, indexToCid)
    ensures forall c <- cidToIndex :: cidToIndex[c] in indexToCid && indexToCid[cidToIndex[c]] == c
    ensures MutualInverses(cidToIndex, indexToCid) <==> RegisteredOnce(history)
  {
    if MutualInverses(cidToIndex, indexToCid) {
      forall i, j | 0 <= i < j < |history| ensures history[i] != history[j] {
        assert i in indexToCid && j in indexToCid;
      }
    }
    if RegisteredOnce(history) {
      forall i <- indexToCid ensures indexToCid[i] in cidToIndex && cidToIndex[indexToCid[i]] == i {
        var c := history[i];
        assert LatestIndex(history, c, cidToIndex[c]);
      }
    }
  }

  /** A client registered twice: its first index leads to an id whose index is another one. */
  lemma SecondRegistrationBreaks()
    ensures MapsOf(["a", "a"], map["a" := 1], map[0 := "a", 1 := "a"])
    ensures !MutualInverses(map["a" := 1], map[0 := "a", 1 := "a"])
  {
    assert LatestIndex(["a", "a"], "a", 1);
    InverseIffRegisteredOnce(["a", "a"], map["a" := 1], map[0 := "a", 1 := "a"]);
    assert ["a", "a"][0] == ["a", "a"][1];
  }

  class Monitor {
    var numFitClients: nat
    var numEvalClients: nat
    var round: int
    var lastId: nat
    var cidToIndex: map<Cid, nat>
    var indexToCid: map<nat, Cid>
    ghost var history: seq<Cid>

    ghost predicate Valid()
      reads this
    {
      lastId == |history| && MapsOf(history, cidToIndex, indexToCid)
    }

    constructor ()
      ensures Valid() && history == [] && numFitClients == 0
    {
      numFitClients, numEvalClients, round, lastId := 0, 0, 0, 0;
      cidToIndex, indexToCid, history := map[], map[], [];
    }

    function GetIndex(cid: Cid): (r: Option<nat>)
      requires Valid()
      reads this
      ensures r == None <==> cid !in history
      ensures r.Some? ==> LatestIndex(history, cid, r.value)
    {
      if cid in cidToIndex then Some(cidToIndex[cid]) else None
    }

    function GetCid(index: nat): (r: Option<Cid>)
      requires Valid()
      reads this
      ensures r == if index < |history| then Some(history[index]) else None
    {
      if index in indexToCid then Some(indexToCid[index]) else None
    }

    method SetFitClients(x: nat)
      modifies this`numFitClients
      ensures numFitClients == x
    {
      numFitClients := x;
    }

    method SetRound(x: int)
      modifies this`round
      ensures round == x
    {
      round := x;
    }

    method UpdateIdMappings(cid: Cid)
      requires Valid()
      modifies this`lastId, this`cidToIndex, this`indexToCid, this`history
      ensures Valid() && history == old(history) + [cid]
    {
      cidToIndex := cidToIndex[cid := lastId];
      indexToCid := indexToCid[lastId := cid];
      lastId := lastId + 1;
      history := history + [cid];
      forall c <- cidToIndex ensures LatestIndex(history, c, cidToIndex[c]) {
        if c != cid {
          assert LatestIndex(old(history), c, cidToIndex[c]);
        }
      }
    }
  }
}
