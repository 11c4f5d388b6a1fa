/**
 What a call that enters while a batch drains does to the answers still to be given: it spoils the
 agreement of the batch exactly when its own norm exceeds the threshold and the batch was to go on.
 */
module BarrierReentry {
  import opened MetricBarrier

  /** Some call brings a norm above the threshold. */
  predicate Loud(es: seq<Event>, t: real) {
    exists i :: 0 <= i < |es| && es[i].Arrive? && es[i].norm > t
  }

  lemma LoudSnoc(es: seq<Event>, e: Event, t: real)
    ensures Loud(es + [e], t) <==> Loud(es, t) || (e.Arrive? && e.norm > t)
  {
    var all := es + [e];
    if Loud(es, t) {
      var i :| 0 <= i < |es| && es[i].Arrive? && es[i].norm > t;
      assert all[i] == es[i];
    }
    if e.Arrive? && e.norm > t {
      assert all[|es|] == e;
    }
  }

  lemma ExceedsSnoc(norms: seq<real>, x: real, t: real)
    ensures Exceeds(norms + [x], t) <==> Exceeds(norms, t) || x > t
  {
    var all := norms + [x];
    if Exceeds(norms, t) {
      var i :| 0 <= i < |norms| && norms[i] > t;
      assert all[i] == norms[i];
    }
    if x > t {
      assert all[|norms|] == x;
    }
  }

  /** The drain that began in s is still going on in u, after the events es. */
  ghost predicate SameDrain(s: Server, u: Server, es: seq<Event>) {
    && u.clients == s.clients && u.threshold == s.threshold
    && u.processed == s.processed + |Replies(s, es)|
    && 0 < u.processed < |u.clients| && |u.metrics| >= |u.clients|
    && (Exceeds(u.metrics, u.threshold) <==> Exceeds(s.metrics, s.threshold) || Loud(es, s.threshold))
  }

  lemma SameDrainStep(s: Server, es: seq<Event>, e: Event)
    requires SameDrain(s, Run(s, es), es) && !e.EndRound?
    requires s.processed + |Replies(s, es + [e])| < |s.clients|
    ensures SameDrain(s, Run(s, es + [e]), es + [e])
  {
    Snoc(s, es, e);
    LoudSnoc(es, e, s.threshold);
    if e.Arrive? {
      ExceedsSnoc(Run(s, es).metrics, e.norm, s.threshold);
    }
  }

  /** Answers given in the drain: "stop" wherever the batch itself says so, and otherwise only if a
      loud call has come in between. */
  ghost predicate Answered(s: Server, es: seq<Event>) {
    forall r <- Replies(s, es) ::
      && (Exceeds(s.metrics, s.threshold) ==> r.stop)
      && (r.stop ==> Exceeds(s.metrics, s.threshold) || Loud(es, s.threshold))
  }

  lemma {:induction false} DisturbedDrain(s: Server, es: seq<Event>)
    requires Draining(s) && Valid(s, es) && Rounds(es) == 0
    requires s.processed + |Replies(s, es)| < |s.clients|
    ensures SameDrain(s, Run(s, es), es) && Answered(s, es)
  {
    if es == [] {
    } else {
      var pre, e := es[..|es| - 1], es[|es| - 1];
      DisturbedDrain(s, pre);
      assert es == pre + [e];
      SameDrainStep(s, pre, e);
    }
  }

  /** The exact boundary of agreement: up to any wake of a drain, all its answers are the verdict on the
      batch's own n norms if and only if that verdict is "stop" anyway or no call that came in before
      the wake brought a norm above the threshold. */
  lemma ReentryHarmsIff(s: Server, es: seq<Event>, c: Client)
    requires Draining(s) && Valid(s, es + [Wake(c)]) && Rounds(es) == 0
    requires s.processed + |Replies(s, es)| < |s.clients|
    ensures Unanimous(Replies(s, es + [Wake(c)]), Exceeds(s.metrics, s.threshold))
      <==> Exceeds(s.metrics, s.threshold) || !Loud(es, s.threshold)
  {
    Snoc(s, es, Wake(c));
    DisturbedDrain(s, es);
    LoudSnoc(es, Wake(c), s.threshold);
    var replies := Replies(s, es + [Wake(c)]);
    var last := replies[|replies| - 1];
    assert last == Reply(c, Exceeds(Run(s, es).metrics, s.threshold));
    assert last in replies;
  }

  /** Until all n calls are answered, re-entries or not, "continue" is only said of a batch none of whose
      own norms exceeds the threshold. */
  lemma {:induction false} ContinueIsDeserved(s: Server, es: seq<Event>)
    requires Draining(s) && Valid(s, es) && Rounds(es) == 0
    requires s.processed + |Replies(s, es)| <= |s.clients|
    ensures forall r <- Replies(s, es) :: !r.stop ==> !Exceeds(s.metrics, s.threshold)
  {
    if es == [] {
    } else {
      var pre, e := es[..|es| - 1], es[|es| - 1];
      ContinueIsDeserved(s, pre);
      if s.processed + |Replies(s, pre)| < |s.clients| {
        DisturbedDrain(s, pre);
        assert es == pre + [e];
      } else {
        assert Replies(s, es) == Replies(s, pre);
      }
    }
  }
}
