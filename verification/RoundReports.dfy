/** What the protocol and the training loops say together about one round: what its clients report. */
module RoundReports {
  import opened Sums
  import opened MetricBarrier
  import opened BarrierLiveness
  import opened BarrierCounts
  import opened Lockstep
  import opened Training

  /** The answers a training loop reads are the ones the barrier gave to its client. */
  ghost predicate Hears(heard: seq<bool>, reply: nat -> bool) {
    forall j: nat :: j < |heard| ==> reply(j) == heard[j]
  }

  /** Every participant's answers stop it at the same batch b, the first crossing of the round. */
  lemma ParticipantsStopTogether(clients: set<Client>, t: real, d: real, norm: NormsOf, es: seq<Event>,
                                 replies: map<Client, nat -> bool>) returns (b: nat)
    requires RoundRun(clients, t, d, norm, es) && AllStopped(clients, t, d, es)
    requires replies.Keys == clients
    requires forall c <- clients :: Hears(Heard(Replies(Init(clients, t, d), es), c), replies[c])
    ensures FirstCrossing(norm, clients, t, b)
    ensures forall c <- clients, b': nat :: FirstStop(replies[c], b') <==> b' == b
  {
    var s0 := Init(clients, t, d);
    b := AllStopAtFirstCrossing(clients, t, d, norm, es);
    forall c <- clients ensures forall b': nat :: FirstStop(replies[c], b') <==> b' == b {
      StoppedClient(clients, t, d, norm, es, c);
    }
  }

  /** b + 1 batches trained, the last norm `norm`, which further epochs overwrite. */
  predicate ReportedAt(r: ClientReport, b: nat, epochs: nat, batchSize: nat, norm: real) {
    r == ClientReport(Multiple(b + 1, batchSize), if epochs == 1 then norm else 0.0)
  }

  /** What each participant's fit returned, as FlexibleClient.Fit promises it. */
  ghost predicate RoundReported(clients: set<Client>, norm: NormsOf, replies: map<Client, nat -> bool>,
                                reports: map<Client, ClientReport>, epochs: nat, batchSize: nat)
    requires replies.Keys == clients == reports.Keys
  {
    forall c <- clients :: exists b: nat ::
      FirstStop(replies[c], b) && ReportedAt(reports[c], b, epochs, batchSize, norm(c, b))
  }

  lemma ReportedOnce(norm: NormsOf, c: Client, reply: nat -> bool, r: ClientReport, epochs: nat, batchSize: nat, b: nat)
    requires forall b': nat :: FirstStop(reply, b') <==> b' == b
    requires exists b': nat :: FirstStop(reply, b') && ReportedAt(r, b', epochs, batchSize, norm(c, b'))
    ensures r == ClientReport(Multiple(b + 1, batchSize), if epochs == 1 then norm(c, b) else 0.0)
  {
  }

  /** All participants of a round report the same number of processed samples, and with one epoch at
      least one of them reports a norm above the threshold. */
  lemma ParticipantsReportTheSame(clients: set<Client>, t: real, d: real, norm: NormsOf, es: seq<Event>,
                                  replies: map<Client, nat -> bool>, reports: map<Client, ClientReport>,
                                  epochs: nat, batchSize: nat)
    returns (b: nat)
    requires RoundRun(clients, t, d, norm, es) && AllStopped(clients, t, d, es)
    requires replies.Keys == clients == reports.Keys
    requires forall c <- clients :: Hears(Heard(Replies(Init(clients, t, d), es), c), replies[c])
    requires RoundReported(clients, norm, replies, reports, epochs, batchSize)
    ensures FirstCrossing(norm, clients, t, b)
    ensures forall c <- clients ::
      reports[c] == ClientReport(Multiple(b + 1, batchSize), if epochs == 1 then norm(c, b) else 0.0)
    ensures epochs == 1 ==> exists c :: c in clients && reports[c].l2Norm > t
  {
    b := ParticipantsStopTogether(clients, t, d, norm, es, replies);
    var top :| top in clients && norm(top, b) > t;
    forall c <- clients
      ensures reports[c] == ClientReport(Multiple(b + 1, batchSize), if epochs == 1 then norm(c, b) else 0.0)
    {
      ReportedOnce(norm, c, replies[c], reports[c], epochs, batchSize, b);
    }
    assert epochs == 1 ==> reports[top].l2Norm > t;
  }
}
