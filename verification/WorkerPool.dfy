/**
 The test runner's worker pool as a transition system: the main thread dispatches jobs and then one
 pill per worker into a FIFO queue, workers take items one by one, and the main thread collects
 results and joins the workers. The interrupt flag may be raised at any moment.
 */
module WorkerPool {
  datatype Job = Job(id: nat, skip: bool)

  datatype Item = Work(job: Job) | Pill

  datatype Outcome = Broken | Skipped | Code(returncode: int)

  datatype Result = Result(job: Job, outcome: Outcome)

  /** A worker waits for an item, holds a job it has not looked at yet, runs it, or has exited. */
  datatype Worker = Idle | Holding(job: Job) | Running(job: Job) | Gone

  datatype Pool = Pool(
    jobs: seq<Job>, dispatched: nat, taken: nat,
    input: seq<Item>, workers: seq<Worker>, output: seq<Result>,
    collected: seq<Result>, joined: nat, interrupted: bool)

  datatype Step =
    | Dispatch | Take(w: nat) | Look(w: nat) | Finish(w: nat, returncode: int)
    | Interrupt | Collect | Join

  function Start(jobs: seq<Job>, workers: nat): Pool {
    Pool(jobs, 0, 0, [], seq(workers, _ => Idle), [], [], 0, false)
  }

  /** Everything the main thread puts into the queue: the jobs, then a pill for each worker. */
  function Items(s: Pool): seq<Item> {
    seq(|s.jobs|, i requires 0 <= i < |s.jobs| => Work(s.jobs[i])) + seq(|s.workers|, _ => Pill)
  }

  predicate Enabled(s: Pool, e: Step) {
    match e
    case Dispatch => s.dispatched < |Items(s)|
    case Take(w) => w < |s.workers| && s.workers[w].Idle? && s.input != []
    case Look(w) => w < |s.workers| && s.workers[w].Holding?
    case Finish(w, _) => w < |s.workers| && s.workers[w].Running?
    case Interrupt => !s.interrupted
    case Collect => s.dispatched == |Items(s)| && |s.collected| < |s.jobs| && s.output != []
    case Join =>
      s.dispatched == |Items(s)| && |s.collected| == |s.jobs| && s.joined < |s.workers| && s.workers[s.joined].Gone?
  }

  function Ship(s: Pool, w: nat, r: Result): Pool
    requires w < |s.workers|
  {
    s.(workers := s.workers[w := Idle], output := s.output + [r])
  }

  function Next(s: Pool, e: Step): Pool
    requires Enabled(s, e)
  {
    match e
    case Dispatch => s.(input := s.input + [Items(s)[s.dispatched]], dispatched := s.dispatched + 1)
    case Take(w) =>
      var worker := if s.input[0].Pill? then Gone else Holding(s.input[0].job);
      s.(workers := s.workers[w := worker], input := s.input[1..], taken := s.taken + 1)
    case Look(w) =>
      var job := s.workers[w].job;
      if s.interrupted then Ship(s, w, Result(job, Broken))
      else if job.skip then Ship(s, w, Result(job, Skipped))
      else s.(workers := s.workers[w := Running(job)])
    case Finish(w, returncode) => Ship(s, w, Result(s.workers[w].job, Code(returncode)))
    case Interrupt => s.(interrupted := true)
    case Collect => s.(collected := s.collected + [s.output[0]], output := s.output[1..])
    case Join => s.(joined := s.joined + 1)
  }

  predicate Finished(s: Pool) {
    s.joined == |s.workers|
  }

  // ------------------------------------------------------------ invariant

  function HeldBy(w: Worker): multiset<Job> {
    if w.Holding? || w.Running? then multiset{w.job} else multiset{}
  }

  function Held(workers: seq<Worker>): multiset<Job> {
    if workers == [] then multiset{} else Held(workers[..|workers| - 1]) + HeldBy(workers[|workers| - 1])
  }

  function Exited(workers: seq<Worker>): nat {
    if workers == [] then 0
    else Exited(workers[..|workers| - 1]) + if workers[|workers| - 1].Gone? then 1 else 0
  }

  function JobList(results: seq<Result>): seq<Job> {
    seq(|results|, i requires 0 <= i < |results| => results[i].job)
  }

  function JobsOf(results: seq<Result>): multiset<Job> {
    multiset(JobList(results))
  }

  predicate Sound(s: Pool, r: Result) {
    match r.outcome
    case Broken => s.interrupted
    case Skipped => r.job.skip
    case Code(_) => !r.job.skip
  }

  ghost predicate Queue(s: Pool) {
    && s.taken <= s.dispatched <= |Items(s)|
    && s.input == Items(s)[s.taken..s.dispatched]
    && Exited(s.workers) == if s.taken <= |s.jobs| then 0 else s.taken - |s.jobs|
  }

  function TakenOf(jobs: seq<Job>, taken: nat): multiset<Job> {
    multiset(jobs[..if taken <= |jobs| then taken else |jobs|])
  }

  function TakenJobs(s: Pool): multiset<Job> {
    TakenOf(s.jobs, s.taken)
  }

  /** Every job taken so far is with a worker, in the output queue, or collected: exactly once. */
  ghost predicate Conserved(s: Pool) {
    Held(s.workers) + JobsOf(s.output) + JobsOf(s.collected)
      == TakenJobs(s)
  }

  ghost predicate Truthful(s: Pool) {
    && (forall i :: 0 <= i < |s.output| ==> Sound(s, s.output[i]))
    && (forall i :: 0 <= i < |s.collected| ==> Sound(s, s.collected[i]))
    && (forall w :: 0 <= w < |s.workers| && s.workers[w].Running? ==> !s.workers[w].job.skip)
  }

  ghost predicate MainOrder(s: Pool) {
    && (s.collected != [] ==> s.dispatched == |Items(s)|)
    && |s.collected| <= |s.jobs| && s.joined <= |s.workers|
    && (s.joined > 0 ==> |s.collected| == |s.jobs| && s.dispatched == |Items(s)|)
    && (forall i :: 0 <= i < s.joined ==> s.workers[i].Gone?)
  }

  ghost predicate Inv(s: Pool) {
    Queue(s) && Conserved(s) && Truthful(s) && MainOrder(s)
  }

  lemma Swap(a: multiset<Job>, b: multiset<Job>, c: multiset<Job>)
    ensures a + b + c == a + c + b
  {
  }

  lemma {:induction false} HeldUpdate(workers: seq<Worker>, w: nat, x: Worker)
    requires w < |workers|
    ensures Held(workers[w := x]) + HeldBy(workers[w]) == Held(workers) + HeldBy(x)
  {
    var n := |workers| - 1;
    var changed := workers[w := x];
    if w < n {
      HeldUpdate(workers[..n], w, x);
      assert changed[..n] == workers[..n][w := x];
      Swap(Held(changed[..n]), HeldBy(workers[n]), HeldBy(workers[w]));
      Swap(Held(workers[..n]), HeldBy(workers[n]), HeldBy(x));
    } else {
      assert changed[..n] == workers[..n];
      Swap(Held(workers[..n]), HeldBy(x), HeldBy(workers[w]));
    }
  }

  lemma HeldFromIdle(workers: seq<Worker>, w: nat, x: Worker)
    requires w < |workers| && workers[w].Idle?
    ensures Held(workers[w := x]) == Held(workers) + HeldBy(x)
  {
    HeldUpdate(workers, w, x);
  }

  lemma HeldToIdle(workers: seq<Worker>, w: nat)
    requires w < |workers|
    ensures Held(workers[w := Idle]) + HeldBy(workers[w]) == Held(workers)
  {
    HeldUpdate(workers, w, Idle);
  }

  lemma {:induction false} ExitedUpdate(workers: seq<Worker>, w: nat, x: Worker)
    requires w < |workers| && !workers[w].Gone?
    ensures Exited(workers[w := x]) == Exited(workers) + if x.Gone? then 1 else 0
  {
    var n := |workers| - 1;
    if w < n {
      ExitedUpdate(workers[..n], w, x);
      assert workers[w := x][..n] == workers[..n][w := x];
    } else {
      assert workers[w := x][..n] == workers[..n];
    }
  }

  lemma JobsOfSnoc(rs: seq<Result>, r: Result)
    ensures JobsOf(rs + [r]) == JobsOf(rs) + multiset{r.job}
  {
    assert JobList(rs + [r]) == JobList(rs) + [r.job];
  }

  lemma JobsOfFront(rs: seq<Result>)
    requires rs != []
    ensures JobsOf(rs) == multiset{rs[0].job} + JobsOf(rs[1..])
  {
    assert JobList(rs) == [rs[0].job] + JobList(rs[1..]);
  }

  lemma MoveOut(held': multiset<Job>, j: Job, out: multiset<Job>, got: multiset<Job>)
    ensures held' + (out + multiset{j}) + got == held' + multiset{j} + out + got
  {
  }

  lemma ShipConserves(s: Pool, w: nat, o: Outcome)
    requires Conserved(s) && w < |s.workers| && (s.workers[w].Holding? || s.workers[w].Running?)
    ensures Conserved(Ship(s, w, Result(s.workers[w].job, o)))
  {
    var job := s.workers[w].job;
    HeldToIdle(s.workers, w);
    JobsOfSnoc(s.output, Result(job, o));
    MoveOut(Held(s.workers[w := Idle]), job, JobsOf(s.output), JobsOf(s.collected));
  }

  lemma MoveIn(held: multiset<Job>, j: multiset<Job>, out: multiset<Job>, got: multiset<Job>)
    ensures held + j + out + got == held + out + got + j
  {
  }

  lemma HeadItem(s: Pool)
    requires Queue(s) && s.input != []
    ensures s.input[0] == if s.taken < |s.jobs| then Work(s.jobs[s.taken]) else Pill
  {
  }

  lemma TakenOne(jobs: seq<Job>, taken: nat)
    ensures TakenOf(jobs, taken + 1) == TakenOf(jobs, taken) + if taken < |jobs| then multiset{jobs[taken]} else multiset{}
  {
    if taken < |jobs| {
      assert jobs[..taken + 1] == jobs[..taken] + [jobs[taken]];
    }
  }

  lemma TakenStep(s: Pool, w: nat)
    requires Queue(s) && Enabled(s, Take(w))
    ensures TakenJobs(Next(s, Take(w))) == TakenJobs(s) + HeldBy(Next(s, Take(w)).workers[w])
  {
    HeadItem(s);
    TakenOne(s.jobs, s.taken);
  }

  lemma TakeConserves(s: Pool, w: nat)
    requires Conserved(s) && Queue(s) && Enabled(s, Take(w))
    ensures Conserved(Next(s, Take(w)))
  {
    var x := Next(s, Take(w)).workers[w];
    TakenStep(s, w);
    HeldFromIdle(s.workers, w, x);
    MoveIn(Held(s.workers), HeldBy(x), JobsOf(s.output), JobsOf(s.collected));
  }

  lemma CollectConserves(s: Pool)
    requires Conserved(s) && Enabled(s, Collect)
    ensures Conserved(Next(s, Collect))
  {
    JobsOfSnoc(s.collected, s.output[0]);
    JobsOfFront(s.output);
  }

  lemma Cancel(a: multiset<Job>, b: multiset<Job>, j: Job)
    requires a + multiset{j} == b + multiset{j}
    ensures a == b
  {
    assert a == (a + multiset{j}) - multiset{j};
    assert b == (b + multiset{j}) - multiset{j};
  }

  lemma RunConserves(s: Pool, w: nat)
    requires Conserved(s) && w < |s.workers| && s.workers[w].Holding?
    ensures Conserved(s.(workers := s.workers[w := Running(s.workers[w].job)]))
  {
    var job := s.workers[w].job;
    HeldUpdate(s.workers, w, Running(job));
    Cancel(Held(s.workers[w := Running(job)]), Held(s.workers), job);
  }

  lemma TakeQueue(s: Pool, w: nat)
    requires Queue(s) && Enabled(s, Take(w))
    ensures Queue(Next(s, Take(w)))
  {
    var t := Next(s, Take(w));
    assert s.input[0] == Items(s)[s.taken];
    assert Items(t) == Items(s);
    ExitedUpdate(s.workers, w, t.workers[w]);
  }

  lemma StepConserves(s: Pool, e: Step)
    requires Queue(s) && Conserved(s) && Enabled(s, e)
    ensures Conserved(Next(s, e))
  {
    match e
    case Take(w) => TakeConserves(s, w);
    case Look(w) =>
      if s.interrupted {
        ShipConserves(s, w, Broken);
      } else if s.workers[w].job.skip {
        ShipConserves(s, w, Skipped);
      } else {
        RunConserves(s, w);
      }
    case Finish(w, returncode) => ShipConserves(s, w, Code(returncode));
    case Collect => CollectConserves(s);
    case Dispatch =>
    case Interrupt =>
    case Join =>
  }

  lemma DispatchQueue(s: Pool)
    requires Queue(s) && Enabled(s, Dispatch)
    ensures Queue(Next(s, Dispatch))
  {
    var items := Items(s);
    assert Items(Next(s, Dispatch)) == items;
    assert items[s.taken..s.dispatched] + [items[s.dispatched]] == items[s.taken..s.dispatched + 1];
  }

  lemma WorkerQueue(s: Pool, e: Step)
    requires Queue(s) && Enabled(s, e) && (e.Look? || e.Finish?)
    ensures Queue(Next(s, e))
  {
    ExitedUpdate(s.workers, e.w, Next(s, e).workers[e.w]);
    assert Items(Next(s, e)) == Items(s);
  }

  lemma SameItems(s: Pool, e: Step)
    requires Enabled(s, e)
    ensures Items(Next(s, e)) == Items(s)
  {
  }

  lemma StepQueue(s: Pool, e: Step)
    requires Queue(s) && Enabled(s, e)
    ensures Queue(Next(s, e)) && Items(Next(s, e)) == Items(s)
  {
    SameItems(s, e);
    match e
    case Take(w) => TakeQueue(s, w);
    case Look(_) => WorkerQueue(s, e);
    case Finish(_, _) => WorkerQueue(s, e);
    case Dispatch => DispatchQueue(s);
    case Collect =>
    case Interrupt =>
    case Join =>
  }

  lemma StepTruthful(s: Pool, e: Step)
    requires Truthful(s) && Enabled(s, e)
    ensures Truthful(Next(s, e))
  {
    var t := Next(s, e);
    forall i | 0 <= i < |t.output| ensures Sound(t, t.output[i]) {
      if e.Collect? {
        assert t.output[i] == s.output[i + 1];
      } else if i < |s.output| {
        assert t.output[i] == s.output[i];
      }
    }
    forall i | 0 <= i < |t.collected| ensures Sound(t, t.collected[i]) {
      if i < |s.collected| {
        assert t.collected[i] == s.collected[i];
      }
    }
  }

  lemma StepMainOrder(s: Pool, e: Step)
    requires MainOrder(s) && Enabled(s, e)
    ensures MainOrder(Next(s, e))
  {
    assert |Items(Next(s, e))| == |Items(s)|;
  }

  lemma {:induction false} NobodyYet(n: nat)
    ensures Held(seq(n, _ => Idle)) == multiset{} && Exited(seq(n, _ => Idle)) == 0
  {
    if n == 0 {
    } else {
      NobodyYet(n - 1);
      assert seq(n, _ => Idle)[..n - 1] == seq(n - 1, _ => Idle);
    }
  }

  lemma StartInv(jobs: seq<Job>, workers: nat)
    ensures Inv(Start(jobs, workers))
  {
    NobodyYet(workers);
    assert jobs[..0] == [];
  }

  function Run(s: Pool, es: seq<Step>): Pool {
    if es == [] then s
    else
      var u, e := Run(s, es[..|es| - 1]), es[|es| - 1];
      if Enabled(u, e) then Next(u, e) else u
  }

  predicate Valid(s: Pool, es: seq<Step>) {
    es == [] || (Valid(s, es[..|es| - 1]) && Enabled(Run(s, es[..|es| - 1]), es[|es| - 1]))
  }

  lemma {:induction false} AlwaysQueue(jobs: seq<Job>, workers: nat, es: seq<Step>)
    requires Valid(Start(jobs, workers), es)
    ensures Queue(Run(Start(jobs, workers), es))
    ensures Run(Start(jobs, workers), es).jobs == jobs && |Run(Start(jobs, workers), es).workers| == workers
  {
    if es == [] {
      StartInv(jobs, workers);
    } else {
      AlwaysQueue(jobs, workers, es[..|es| - 1]);
      StepQueue(Run(Start(jobs, workers), es[..|es| - 1]), es[|es| - 1]);
    }
  }

  lemma {:induction false} AlwaysConserved(jobs: seq<Job>, workers: nat, es: seq<Step>)
    requires Valid(Start(jobs, workers), es)
    ensures Conserved(Run(Start(jobs, workers), es))
  {
    if es == [] {
      StartInv(jobs, workers);
    } else {
      AlwaysConserved(jobs, workers, es[..|es| - 1]);
      AlwaysQueue(jobs, workers, es[..|es| - 1]);
      StepConserves(Run(Start(jobs, workers), es[..|es| - 1]), es[|es| - 1]);
    }
  }

  lemma {:induction false} AlwaysTruthful(jobs: seq<Job>, workers: nat, es: seq<Step>)
    requires Valid(Start(jobs, workers), es)
    ensures Truthful(Run(Start(jobs, workers), es)) && MainOrder(Run(Start(jobs, workers), es))
  {
    if es == [] {
      StartInv(jobs, workers);
    } else {
      var u, e := Run(Start(jobs, workers), es[..|es| - 1]), es[|es| - 1];
      AlwaysTruthful(jobs, workers, es[..|es| - 1]);
      StepTruthful(u, e);
      StepMainOrder(u, e);
    }
  }

  // ------------------------------------------------ where results come from

  /** All results shipped so far, in their order. */
  function Results(s: Pool): seq<Result> {
    s.collected + s.output
  }

  /** What a step ships: the code that the run of a job ends with, or that a job was not run because the
      flag is up or because it asks to be skipped. */
  function Found(u: Pool, e: Step): seq<Result>
    requires Enabled(u, e)
  {
    if e.Finish? then [Result(u.workers[e.w].job, Code(e.returncode))]
    else if e.Look? && u.interrupted then [Result(u.workers[e.w].job, Broken)]
    else if e.Look? && u.workers[e.w].job.skip then [Result(u.workers[e.w].job, Skipped)]
    else []
  }

  /** What all steps of a run ship. */
  function History(s: Pool, es: seq<Step>): seq<Result>
    requires Valid(s, es)
  {
    if es == [] then [] else History(s, es[..|es| - 1]) + Found(Run(s, es[..|es| - 1]), es[|es| - 1])
  }

  lemma FoundIsShipped(s: Pool, e: Step)
    requires Enabled(s, e)
    ensures Results(Next(s, e)) == Results(s) + Found(s, e)
  {
    if e.Collect? {
      assert s.output == [s.output[0]] + s.output[1..];
    }
  }

  /** Results are neither made up, lost, changed nor put in another order. */
  lemma {:induction false} ResultsAreHistory(jobs: seq<Job>, workers: nat, es: seq<Step>)
    requires Valid(Start(jobs, workers), es)
    ensures Results(Run(Start(jobs, workers), es)) == History(Start(jobs, workers), es)
  {
    if es == [] {
    } else {
      ResultsAreHistory(jobs, workers, es[..|es| - 1]);
      FoundIsShipped(Run(Start(jobs, workers), es[..|es| - 1]), es[|es| - 1]);
    }
  }

  /** Each result was shipped by a step of the run: a return code by the end of a run of that very job. */
  lemma {:induction false} ResultHasStep(s: Pool, es: seq<Step>, r: Result) returns (k: nat)
    requires Valid(s, es) && r in History(s, es)
    ensures k < |es| && (es[k].Finish? || es[k].Look?) && es[k].w < |Run(s, es[..k]).workers|
    ensures r.outcome.Code? ==>
      es[k] == Finish(es[k].w, r.outcome.returncode) && Run(s, es[..k]).workers[es[k].w] == Running(r.job)
    ensures r.outcome == Broken ==> es[k].Look? && Run(s, es[..k]).interrupted
    ensures r.outcome == Skipped ==> es[k].Look? && !Run(s, es[..k]).interrupted && r.job.skip
  {
    var pre, e := es[..|es| - 1], es[|es| - 1];
    if r in Found(Run(s, pre), e) {
      k := |pre|;
    } else {
      k := ResultHasStep(s, pre, r);
      assert es[..k] == pre[..k];
    }
  }

  /** The invariant holds in every reachable state, whatever the interleaving and whenever the
      interrupt flag is raised, and the results are what the steps of the run found. */
  lemma AlwaysInv(jobs: seq<Job>, workers: nat, es: seq<Step>)
    requires Valid(Start(jobs, workers), es)
    ensures var s := Run(Start(jobs, workers), es);
      Inv(s) && s.jobs == jobs && |s.workers| == workers && Results(s) == History(Start(jobs, workers), es)
  {
    AlwaysQueue(jobs, workers, es);
    AlwaysConserved(jobs, workers, es);
    AlwaysTruthful(jobs, workers, es);
    ResultsAreHistory(jobs, workers, es);
  }

  // -------------------------------------------------------------- results

  lemma {:induction false} ExitedAtMost(workers: seq<Worker>)
    ensures Exited(workers) <= |workers|
    ensures Exited(workers) == |workers| <==> forall w :: 0 <= w < |workers| ==> workers[w].Gone?
  {
    if workers == [] {
    } else {
      var n := |workers| - 1;
      ExitedAtMost(workers[..n]);
      assert forall w :: 0 <= w < n ==> workers[..n][w] == workers[w];
    }
  }

  lemma {:induction false} NobodyExited(workers: seq<Worker>)
    ensures Exited(workers) == 0 <==> forall w :: 0 <= w < |workers| ==> !workers[w].Gone?
  {
    if workers == [] {
    } else {
      var n := |workers| - 1;
      NobodyExited(workers[..n]);
      assert forall w :: 0 <= w < n ==> workers[..n][w] == workers[w];
    }
  }

  lemma {:induction false} NobodyHolds(workers: seq<Worker>)
    requires forall w :: 0 <= w < |workers| ==> workers[w].Idle? || workers[w].Gone?
    ensures Held(workers) == multiset{}
  {
    if workers == [] {
    } else {
      NobodyHolds(workers[..|workers| - 1]);
    }
  }

  lemma AllExited(workers: seq<Worker>)
    ensures Exited(workers) <= |workers|
    ensures Exited(workers) == |workers| <==> forall w :: 0 <= w < |workers| ==> workers[w].Gone?
    ensures Exited(workers) == |workers| ==> Held(workers) == multiset{}
    ensures Exited(workers) == 0 <==> forall w :: 0 <= w < |workers| ==> !workers[w].Gone?
  {
    ExitedAtMost(workers);
    NobodyExited(workers);
    if Exited(workers) == |workers| {
      NobodyHolds(workers);
    }
  }

  lemma JobsOfSize(rs: seq<Result>)
    ensures |JobsOf(rs)| == |rs|
  {
    assert |JobList(rs)| == |rs|;
  }

  /** In every reachable state: no worker has exited before every dispatched job was taken, each exit
      consumed exactly one pill, and each job taken is in exactly one place. */
  lemma PoolSafety(jobs: seq<Job>, workers: nat, es: seq<Step>)
    requires Valid(Start(jobs, workers), es)
    ensures var s := Run(Start(jobs, workers), es);
      && |s.workers| == workers
      && ((exists w :: 0 <= w < workers && s.workers[w].Gone?) ==> s.taken > |jobs|)
      && (s.taken > |jobs| ==> Exited(s.workers) == s.taken - |jobs|)
      && Held(s.workers) + JobsOf(s.output) + JobsOf(s.collected) == TakenJobs(s)
      && Truthful(s)
  {
    AlwaysInv(jobs, workers, es);
    AllExited(Run(Start(jobs, workers), es).workers);
  }

  /** When the main thread has joined every worker, each job has been collected exactly once. */
  lemma FinishedCollectsAll(jobs: seq<Job>, workers: nat, es: seq<Step>)
    requires workers > 0
    requires Valid(Start(jobs, workers), es) && Finished(Run(Start(jobs, workers), es))
    ensures var s := Run(Start(jobs, workers), es);
      && JobsOf(s.collected) == multiset(jobs) && |s.collected| == |jobs|
      && s.output == [] && s.input == []
  {
    var s := Run(Start(jobs, workers), es);
    AlwaysInv(jobs, workers, es);
    AllExited(s.workers);
    assert s.taken == |jobs| + workers;
    assert jobs[..|jobs|] == jobs;
    JobsOfSize(s.collected);
    JobsOfSize(s.output);
    assert |JobsOf(s.output)| + |JobsOf(s.collected)| == |multiset(jobs)|;
  }

  // ------------------------------------------------------------- progress

  function Weight(w: Worker): nat {
    match w
    case Idle => 0
    case Holding(_) => 3
    case Running(_) => 2
    case Gone => 0
  }

  function Load(workers: seq<Worker>): nat {
    if workers == [] then 0 else Load(workers[..|workers| - 1]) + Weight(workers[|workers| - 1])
  }

  lemma {:induction false} LoadUpdate(workers: seq<Worker>, w: nat, x: Worker)
    requires w < |workers|
    ensures Load(workers[w := x]) + Weight(workers[w]) == Load(workers) + Weight(x)
  {
    var n := |workers| - 1;
    if w < n {
      LoadUpdate(workers[..n], w, x);
      assert workers[w := x][..n] == workers[..n][w := x];
    } else {
      assert workers[w := x][..n] == workers[..n];
    }
  }

  /** How much work is left: an item is worth 5 before it is dispatched, 4 in the queue, and so on. */
  function Measure(s: Pool): int {
    5 * (|Items(s)| - s.dispatched) + 4 * |s.input| + Load(s.workers) + |s.output|
    + (|s.workers| - s.joined) + if s.interrupted then 0 else 1
  }

  lemma StepShrinks(s: Pool, e: Step)
    requires Enabled(s, e)
    ensures Measure(Next(s, e)) < Measure(s)
  {
    assert |Items(Next(s, e))| == |Items(s)|;
    match e
    case Take(w) => LoadUpdate(s.workers, w, Next(s, e).workers[w]);
    case Look(w) => LoadUpdate(s.workers, w, Next(s, e).workers[w]);
    case Finish(w, _) => LoadUpdate(s.workers, w, Next(s, e).workers[w]);
    case Dispatch =>
    case Collect =>
    case Interrupt =>
    case Join =>
  }

  lemma MeasureNonNegative(s: Pool)
    requires Inv(s)
    ensures Measure(s) >= 0
  {
  }

  lemma {:induction false} NoLoad(n: nat)
    ensures Load(seq(n, _ => Idle)) == 0
  {
    if n == 0 {
    } else {
      NoLoad(n - 1);
      assert seq(n, _ => Idle)[..n - 1] == seq(n - 1, _ => Idle);
    }
  }

  lemma {:induction false} StartMeasure(jobs: seq<Job>, workers: nat)
    ensures Measure(Start(jobs, workers)) == 5 * |jobs| + 6 * workers + 1
  {
    NoLoad(workers);
  }

  /** No run is longer than 5 steps a job and 6 a worker, and one interrupt. */
  lemma {:induction false} RunsAreFinite(jobs: seq<Job>, workers: nat, es: seq<Step>)
    requires Valid(Start(jobs, workers), es)
    ensures |es| + Measure(Run(Start(jobs, workers), es)) <= 5 * |jobs| + 6 * workers + 1
    ensures |es| <= 5 * |jobs| + 6 * workers + 1
  {
    if es == [] {
      StartMeasure(jobs, workers);
    } else {
      RunsAreFinite(jobs, workers, es[..|es| - 1]);
      StepShrinks(Run(Start(jobs, workers), es[..|es| - 1]), es[|es| - 1]);
    }
    AlwaysInv(jobs, workers, es);
    MeasureNonNegative(Run(Start(jobs, workers), es));
  }

  lemma SomeoneCanTake(s: Pool) returns (w: nat)
    requires Inv(s) && s.input != [] && |s.workers| > 0
    requires forall w :: 0 <= w < |s.workers| ==> s.workers[w].Idle? || s.workers[w].Gone?
    ensures Enabled(s, Take(w))
  {
    AllExited(s.workers);
    assert Exited(s.workers) < |s.workers|;
    w :| 0 <= w < |s.workers| && !s.workers[w].Gone?;
  }

  lemma OutputWaits(s: Pool)
    requires Inv(s) && s.input == [] && s.dispatched == |Items(s)| && |s.collected| < |s.jobs|
    requires forall w :: 0 <= w < |s.workers| ==> s.workers[w].Idle? || s.workers[w].Gone?
    requires |s.workers| > 0
    ensures s.output != []
  {
    NobodyHolds(s.workers);
    assert s.jobs[..|s.jobs|] == s.jobs;
    JobsOfSize(s.collected);
    JobsOfSize(s.output);
    assert |JobsOf(s.output)| + |JobsOf(s.collected)| == |multiset(s.jobs)|;
  }

  /** Everything is dispatched and no worker has a job in hand. */
  predicate Quiet(s: Pool) {
    && s.dispatched >= |Items(s)|
    && forall w :: 0 <= w < |s.workers| ==> s.workers[w].Idle? || s.workers[w].Gone?
  }

  lemma QuietStep(s: Pool) returns (e: Step)
    requires Inv(s) && |s.workers| > 0 && !Finished(s) && Quiet(s)
    ensures Enabled(s, e) && !e.Interrupt?
  {
    if s.input != [] {
      var w := SomeoneCanTake(s);
      e := Take(w);
    } else if |s.collected| < |s.jobs| {
      OutputWaits(s);
      e := Collect;
    } else {
      AllExited(s.workers);
      e := Join;
    }
  }

  /** Until everything is joined, some step other than an interrupt is possible: nobody deadlocks. */
  lemma NeverStuck(s: Pool) returns (e: Step)
    requires Inv(s) && |s.workers| > 0 && !Finished(s)
    ensures Enabled(s, e) && !e.Interrupt?
  {
    if s.dispatched < |Items(s)| {
      e := Dispatch;
    } else if w: nat :| w < |s.workers| && s.workers[w].Holding? {
      e := Look(w);
    } else if w: nat :| w < |s.workers| && s.workers[w].Running? {
      e := Finish(w, 0);
    } else {
      assert Quiet(s);
      e := QuietStep(s);
    }
  }

  // ---------------------------------------------------------- exit status

  function Outcomes(rs: seq<Result>): seq<Outcome> {
    seq(|rs|, i requires 0 <= i < |rs| => rs[i].outcome)
  }

  /** How many of the results have the outcome o. */
  function HowMany(rs: seq<Result>, o: Outcome): nat {
    multiset(Outcomes(rs))[o]
  }

  lemma HowManySnoc(rs: seq<Result>, r: Result)
    ensures forall o :: HowMany(rs + [r], o) == HowMany(rs, o) + if r.outcome == o then 1 else 0
  {
    assert Outcomes(rs + [r]) == Outcomes(rs) + [r.outcome];
  }

  predicate Fine(o: Outcome) {
    o == Code(0) || o == Skipped
  }

  predicate AllFine(rs: seq<Result>) {
    forall i :: 0 <= i < |rs| ==> Fine(rs[i].outcome)
  }

  lemma AllFineAppend(a: seq<Result>, b: seq<Result>)
    ensures AllFine(a + b) <==> AllFine(a) && AllFine(b)
  {
    if AllFine(a + b) {
      assert forall i :: 0 <= i < |a| ==> a[i] == (a + b)[i];
      assert forall i :: 0 <= i < |b| ==> b[i] == (a + b)[|a| + i];
    }
  }

  /** Passed and skipped results are all there are exactly if every single one is fine. */
  lemma {:induction false} AllFineByCount(rs: seq<Result>)
    ensures HowMany(rs, Code(0)) + HowMany(rs, Skipped) <= |rs|
    ensures HowMany(rs, Code(0)) + HowMany(rs, Skipped) == |rs| <==> AllFine(rs)
  {
    if rs == [] {
    } else {
      var init, last := rs[..|rs| - 1], rs[|rs| - 1];
      AllFineByCount(init);
      assert rs == init + [last];
      HowManySnoc(init, last);
      AllFineAppend(init, [last]);
      assert AllFine([last]) <==> Fine(last.outcome);
    }
  }

  datatype Tally = Tally(passed: nat, failed: nat, valgrind: nat, crashed: nat, skipped: nat, broken: nat)

  /** Each counter is the number of results of its own kind; crashes are all the rest. */
  predicate Counts(t: Tally, rs: seq<Result>) {
    && t.passed == HowMany(rs, Code(0)) && t.failed == HowMany(rs, Code(1)) && t.valgrind == HowMany(rs, Code(2))
    && t.skipped == HowMany(rs, Skipped) && t.broken == HowMany(rs, Broken)
    && t.passed + t.failed + t.valgrind + t.crashed + t.skipped + t.broken == |rs|
  }

  /** The main thread's counting over the collected results, and the exit status of the runner. */
  method Summarise(results: seq<Result>, totalTests: nat) returns (t: Tally, status: int)
    ensures Counts(t, results)
    ensures status == if t.passed + t.skipped == totalTests then 0 else 1
    ensures totalTests == |results| ==> (status == 0 <==> AllFine(results))
  {
    t := Tally(0, 0, 0, 0, 0, 0);
    for i := 0 to |results|
      invariant Counts(t, results[..i])
    {
      assert results[..i + 1] == results[..i] + [results[i]];
      HowManySnoc(results[..i], results[i]);
      match results[i].outcome {
        case Broken => t := t.(broken := t.broken + 1);
        case Skipped => t := t.(skipped := t.skipped + 1);
        case Code(rc) =>
          if rc == 0 {
            t := t.(passed := t.passed + 1);
          } else if rc == 1 {
            t := t.(failed := t.failed + 1);
          } else if rc == 2 {
            t := t.(valgrind := t.valgrind + 1);
          } else {
            t := t.(crashed := t.crashed + 1);
          }
      }
    }
    assert results[..|results|] == results;
    AllFineByCount(results);
    status := if t.passed + t.skipped == totalTests then 0 else 1;
  }

  /** Every run of a job ends with code 0, and no worker looks at a job while the flag is up. */
  predicate NothingBad(s: Pool, es: seq<Step>) {
    es == [] ||
    (var pre, e := es[..|es| - 1], es[|es| - 1];
     NothingBad(s, pre) && (e.Finish? ==> e.returncode == 0) && (e.Look? ==> !Run(s, pre).interrupted))
  }

  lemma FoundFine(u: Pool, e: Step)
    requires Enabled(u, e)
    ensures AllFine(Found(u, e)) <==> (e.Finish? ==> e.returncode == 0) && (e.Look? ==> !u.interrupted)
  {
    var found := Found(u, e);
    assert AllFine(found) <==> found == [] || Fine(found[0].outcome);
  }

  lemma {:induction false} AllFineIff(s: Pool, es: seq<Step>)
    requires Valid(s, es)
    ensures AllFine(History(s, es)) <==> NothingBad(s, es)
  {
    if es == [] {
    } else {
      var pre, e := es[..|es| - 1], es[|es| - 1];
      AllFineIff(s, pre);
      AllFineAppend(History(s, pre), Found(Run(s, pre), e));
      FoundFine(Run(s, pre), e);
    }
  }

  /** For every finished run, each job is collected once, and the exit status is 0 if and only if every
      run of a job ended with code 0 and no worker looked at a job while the interrupt flag was up. */
  lemma ExitStatus(jobs: seq<Job>, workers: nat, es: seq<Step>)
    requires workers > 0
    requires Valid(Start(jobs, workers), es) && Finished(Run(Start(jobs, workers), es))
    ensures var rs := Run(Start(jobs, workers), es).collected;
      && rs == History(Start(jobs, workers), es) && |rs| == |jobs| && JobsOf(rs) == multiset(jobs)
      && (HowMany(rs, Code(0)) + HowMany(rs, Skipped) == |jobs| <==> NothingBad(Start(jobs, workers), es))
  {
    FinishedCollectsAll(jobs, workers, es);
    ResultsAreHistory(jobs, workers, es);
    AllFineByCount(Run(Start(jobs, workers), es).collected);
    AllFineIff(Start(jobs, workers), es);
  }
}
