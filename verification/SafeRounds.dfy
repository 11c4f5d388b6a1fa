/** What the protocol and the geometry say together: while the server says "continue", the models stay
    close to each other and to where the round began. */
module SafeRounds {
  import opened MetricBarrier
  import opened BarrierLiveness
  import opened BarrierCounts
  import opened Geometry
  import opened L2Norm
  import opened Lockstep
  import opened RoundBoundary

  /** The models of a group after batch j, and the norms they report. */
  ghost predicate Models(group: seq<Client>, norm: NormsOf, j: nat, start: seq<Vec>, models: map<Client, seq<Vec>>) {
    forall c <- group ::
      && c in models && |models[c]| == |start| && Pairable(start, models[c])
      && norm(c, j) == Drift(start, models[c])
  }

  function FlatGroup(group: seq<Client>, models: map<Client, seq<Vec>>): (ws: seq<Vec>)
    requires forall c <- group :: c in models
    ensures |ws| == |group| && forall i :: 0 <= i < |group| ==> ws[i] == Flatten(models[group[i]])
  {
    seq(|group|, i requires 0 <= i < |group| => Flatten(models[group[i]]))
  }

  /** As long as anyone is told to go on, everyone stays in the safe ball: in every round, however its calls
      interleave, whether or not anyone ever crosses, if the server answers "continue" to any participant
      at batch j then the models of any group of participants after batch j are in the safe ball. */
  lemma RoundsStayInTheSafeBall(clients: set<Client>, t: real, d: real, norm: NormsOf, es: seq<Event>,
                                c: Client, j: nat, group: seq<Client>, start: seq<Vec>, models: map<Client, seq<Vec>>)
    requires RoundRun(clients, t, d, norm, es) && c in clients
    requires var heard := Heard(Replies(Init(clients, t, d), es), c); j < |heard| && !heard[j]
    requires group != [] && (forall x <- group :: x in clients) && Models(group, norm, j, start, models)
    ensures InSafeBall(FlatGroup(group, models), Flatten(start), t)
  {
    ContinueIsTrue(clients, t, d, norm, es, c, j);
    var w0, ws := Flatten(start), FlatGroup(group, models);
    forall k | 0 <= k < |ws| ensures |ws[k]| == |w0| && SqDist(ws[k], w0) <= t {
      assert group[k] in group;
      DriftIsFlatDistance(start, models[group[k]]);
    }
    SafeBall(ws, w0, t);
  }
}
