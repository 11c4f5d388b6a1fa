/** Rounds one after the other on the same server: training, reset and hand-out, and training again. */
module Campaign {
  import opened MetricBarrier
  import opened BarrierCounts
  import opened Lockstep
  import opened Geometry
  import opened L2Norm
  import opened SafeRounds

  datatype Round = Round(clients: set<Client>, norm: NormsOf, events: seq<Event>)

  /** The server as round i finds it: what the round before left, after the reset and the hand-out. */
  function StartOf(s: Server, rounds: seq<Round>, i: nat): Server
    requires i < |rounds|
  {
    if i == 0 then s
    else Next(Run(StartOf(s, rounds, i - 1), rounds[i - 1].events), EndRound(rounds[i].clients))
  }

  /** A round from server state s, as far as it has come. */
  ghost predicate UnderWay(s: Server, r: Round) {
    s.clients == r.clients != {} && Valid(s, r.events) && Training(s, r.norm, r.events)
  }

  /** A whole round: every participant trains until it is told to stop. */
  ghost predicate Played(s: Server, r: Round) {
    UnderWay(s, r) && forall c <- r.clients :: Stopped(s, r.events, c)
  }

  /** The rounds before round n have all been played to their end. */
  ghost predicate AllPlayed(s: Server, rounds: seq<Round>, n: nat)
    requires n <= |rounds|
  {
    n == 0 || (AllPlayed(s, rounds, n - 1) && Played(StartOf(s, rounds, n - 1), rounds[n - 1]))
  }

  lemma NextIsFresh(s: Server, r: Round, t0: real, d: real, i: nat, next: set<Client>)
    requires s == Init(r.clients, Discounted(t0, d, i), d) && Played(s, r)
    ensures Next(Run(s, r.events), EndRound(next)) == Init(next, Discounted(t0, d, i + 1), d)
  {
    StoppedIsOrderly(r.clients, Discounted(t0, d, i), d, r.norm, r.events);
    ServerHolds(r.clients, Discounted(t0, d, i), d, r.norm, r.events);
    ResetWhenEmpty(Run(s, r.events), next, t0, d, i);
  }

  /** However the calls of the rounds interleave, each round finds a fresh barrier of its own
      participants, at the threshold t0 * d^i. */
  lemma {:induction false} EveryRoundStartsFresh(s0: Server, rounds: seq<Round>, t0: real, d: real, i: nat)
    requires i < |rounds| && s0 == Init(rounds[0].clients, t0, d) && AllPlayed(s0, rounds, i)
    ensures StartOf(s0, rounds, i) == Init(rounds[i].clients, Discounted(t0, d, i), d)
  {
    if i == 0 {
    } else {
      EveryRoundStartsFresh(s0, rounds, t0, d, i - 1);
      NextIsFresh(StartOf(s0, rounds, i - 1), rounds[i - 1], t0, d, i - 1, rounds[i].clients);
    }
  }

  lemma PlayedInLockstep(s: Server, r: Round, t: real, d: real) returns (b: nat)
    requires s == Init(r.clients, t, d) && Played(s, r)
    ensures FirstCrossing(r.norm, r.clients, t, b)
    ensures forall c <- r.clients :: Trained(r.events, c) == b + 1
  {
    b := AllStopAtFirstCrossing(r.clients, t, d, r.norm, r.events);
  }

  /** Lockstep over whole campaigns: in round i all participants train up to the first batch at which
      anyone exceeds t0 * d^i. */
  lemma EveryRoundInLockstep(s0: Server, rounds: seq<Round>, t0: real, d: real, i: nat) returns (b: nat)
    requires i < |rounds| && s0 == Init(rounds[0].clients, t0, d) && AllPlayed(s0, rounds, i + 1)
    ensures FirstCrossing(rounds[i].norm, rounds[i].clients, Discounted(t0, d, i), b)
    ensures forall c <- rounds[i].clients :: Trained(rounds[i].events, c) == b + 1
  {
    EveryRoundStartsFresh(s0, rounds, t0, d, i);
    b := PlayedInLockstep(StartOf(s0, rounds, i), rounds[i], Discounted(t0, d, i), d);
  }

  lemma SafeFrom(s: Server, r: Round, t: real, d: real, c: Client, j: nat, group: seq<Client>,
                 start: seq<Vec>, models: map<Client, seq<Vec>>)
    requires s == Init(r.clients, t, d) && UnderWay(s, r) && c in r.clients
    requires var heard := Heard(Replies(s, r.events), c); j < |heard| && !heard[j]
    requires group != [] && (forall x <- group :: x in r.clients) && Models(group, r.norm, j, start, models)
    ensures InSafeBall(FlatGroup(group, models), Flatten(start), t)
  {
    RoundsStayInTheSafeBall(r.clients, t, d, r.norm, r.events, c, j, group, start, models);
  }

  /** Geometric soundness over whole campaigns: whenever the server answers "continue" in round i, finished
      or not, the models of any group of its participants are in the ball of threshold t0 * d^i. */
  lemma EveryRoundStaysSafe(s0: Server, rounds: seq<Round>, t0: real, d: real, i: nat, c: Client, j: nat,
                            group: seq<Client>, start: seq<Vec>, models: map<Client, seq<Vec>>)
    requires i < |rounds| && s0 == Init(rounds[0].clients, t0, d) && AllPlayed(s0, rounds, i)
    requires UnderWay(StartOf(s0, rounds, i), rounds[i]) && c in rounds[i].clients
    requires var heard := Heard(Replies(StartOf(s0, rounds, i), rounds[i].events), c); j < |heard| && !heard[j]
    requires group != [] && (forall x <- group :: x in rounds[i].clients)
    requires Models(group, rounds[i].norm, j, start, models)
    ensures InSafeBall(FlatGroup(group, models), Flatten(start), Discounted(t0, d, i))
  {
    EveryRoundStartsFresh(s0, rounds, t0, d, i);
    SafeFrom(StartOf(s0, rounds, i), rounds[i], Discounted(t0, d, i), d, c, j, group, start, models);
  }

  /** A round may also be cut off: the next one finds a fresh barrier exactly if nobody is inside. */
  lemma CutOffIff(clients: set<Client>, t: real, d: real, norm: NormsOf, es: seq<Event>, next: set<Client>)
    requires RoundRun(clients, t, d, norm, es)
    ensures var s := Run(Init(clients, t, d), es);
      Next(s, EndRound(next)) == Init(next, s.threshold * s.discount, s.discount) <==>
        s.waiting == {} && s.notified == {}
  {
    ServerHolds(clients, t, d, norm, es);
    ResetRestoresInit(Run(Init(clients, t, d), es), next);
  }
}
