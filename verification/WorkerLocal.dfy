// Models the claiming side of apps/worker/src/worker/worker.service.ts inside one process: poll and
// processReadyJob run concurrently, and each stretch of code between two awaits is one step.
module WorkerLocal {
  import opened Wrappers

  type JobId = nat

  // `active` holds the keys of the activeJobs map, `live` the executions that have not settled.
  // `recovering` and `claiming` count the poll calls that wait for recovery and for a claim, `hints`
  // the processReadyJob calls that wait for a claim.
  datatype Local = Local(
    accepting: bool,
    polling: bool,
    active: set<JobId>,
    live: multiset<JobId>,
    recovering: nat,
    claiming: nat,
    hints: nat)

  datatype Settings = Settings(concurrency: nat, deliveries: nat)   // deliveries: hints handled at once

  datatype Label =
    | BeginPoll
    | AfterRecovery(ok: bool)
    | AfterClaim(claimed: Option<JobId>)
    | BeginHint
    | AfterHintClaim(claimed: Option<JobId>)
    | Settle(id: JobId)
    | Shutdown

  const IDLE := Local(true, false, {}, multiset{}, 0, 0, 0)

  // execute(claimed), activeJobs.set: a job that is still executing here keeps its one key.
  function Launch(s: Local, id: JobId): Local {
    s.(active := s.active + {id}, live := s.live + multiset{id})
  }

  // The head of poll's while loop.
  function LoopHead(s: Local, c: Settings): Local {
    if s.accepting && |s.active| < c.concurrency then s.(claiming := s.claiming + 1) else s.(polling := false)
  }

  function Apply(s: Local, c: Settings, l: Label): Local {
    match l
    case BeginPoll =>
      if s.accepting && !s.polling then s.(polling := true, recovering := s.recovering + 1) else s
    case AfterRecovery(ok) =>
      if s.recovering == 0 then s
      else
        var r := s.(recovering := s.recovering - 1);
        if ok then LoopHead(r, c) else r.(polling := false)
    case AfterClaim(claimed) =>
      if s.claiming == 0 then s
      else
        var r := s.(claiming := s.claiming - 1);
        if claimed.Some? && r.accepting then LoopHead(Launch(r, claimed.value), c) else r.(polling := false)
    case BeginHint =>
      if s.hints < c.deliveries && s.accepting && |s.active| < c.concurrency then s.(hints := s.hints + 1) else s
    case AfterHintClaim(claimed) =>
      if s.hints == 0 then s
      else
        var r := s.(hints := s.hints - 1);
        if claimed.Some? then Launch(r, claimed.value) else r
    case Settle(id) =>
      if id in s.live then s.(live := s.live - multiset{id}, active := s.active - {id}) else s
    case Shutdown => s.(accepting := false)
  }

  function Run(c: Settings, ls: seq<Label>): Local {
    if ls == [] then IDLE else Apply(Run(c, ls[..|ls| - 1]), c, ls[|ls| - 1])
  }

  // ---- the process itself, one method per step ----

  class WorkerService {
    const settings: Settings
    var activeJobs: map<JobId, nat>   // from a job to the number of its last execution here
    var acceptingClaims: bool
    var polling: bool
    var executions: nat
    var live: multiset<JobId>
    var recovering: nat
    var claiming: nat
    var hints: nat

    constructor (settings: Settings)
      ensures this.settings == settings && View() == IDLE && Valid()
    {
      this.settings := settings;
      activeJobs, acceptingClaims, polling, executions := map[], true, false, 0;
      live, recovering, claiming, hints := multiset{}, 0, 0, 0;
    }

    ghost function View(): Local
      reads this
    {
      Local(acceptingClaims, polling, activeJobs.Keys, live, recovering, claiming, hints)
    }

    ghost predicate Valid()
      reads this
    {
      Bounded(View(), settings)
    }

    method Start(id: JobId)
      modifies this
      ensures View() == Launch(old(View()), id)
    {
      executions := executions + 1;
      activeJobs, live := activeJobs[id := executions], live + multiset{id};
    }

    method ContinuePolling()
      modifies this
      ensures View() == LoopHead(old(View()), settings)
    {
      assert |activeJobs| == |activeJobs.Keys|;
      if acceptingClaims && |activeJobs| < settings.concurrency {
        claiming := claiming + 1;
      } else {
        polling := false;
      }
    }

    method BeginPoll() returns (started: bool)
      requires Valid()
      modifies this
      ensures Valid() && View() == Apply(old(View()), settings, Label.BeginPoll)
      ensures started <==> old(acceptingClaims) && !old(polling)
      ensures started ==> polling && old(recovering + claiming) == 0 && recovering == 1
      ensures !started ==> View() == old(View())
    {
      StepKeepsBound(View(), settings, Label.BeginPoll);
      if !acceptingClaims || polling {
        return false;
      }
      polling, recovering := true, recovering + 1;
      return true;
    }

    method AfterRecovery(ok: bool)
      requires Valid() && recovering > 0
      modifies this
      ensures Valid() && View() == Apply(old(View()), settings, Label.AfterRecovery(ok))
      ensures claiming > old(claiming) <==> ok && acceptingClaims && |activeJobs| < settings.concurrency
      ensures polling <==> claiming > old(claiming)
    {
      StepKeepsBound(View(), settings, Label.AfterRecovery(ok));
      recovering := recovering - 1;
      if ok {
        ContinuePolling();
      } else {
        polling := false;
      }
    }

    method AfterClaim(claimed: Option<JobId>)
      requires Valid() && claiming > 0
      modifies this
      ensures Valid() && View() == Apply(old(View()), settings, Label.AfterClaim(claimed))
      ensures live == old(live) + (if claimed.Some? && acceptingClaims then multiset{claimed.value} else multiset{})
      ensures polling <==> claimed.Some? && acceptingClaims && |activeJobs| < settings.concurrency
    {
      StepKeepsBound(View(), settings, Label.AfterClaim(claimed));
      claiming := claiming - 1;
      if claimed.None? || !acceptingClaims {
        polling := false;
        return;
      }
      Start(claimed.value);
      ContinuePolling();
    }

    method BeginHint() returns (started: bool)
      requires Valid() && hints < settings.deliveries
      modifies this
      ensures Valid() && View() == Apply(old(View()), settings, Label.BeginHint)
      ensures started <==> acceptingClaims && |activeJobs| < settings.concurrency
      ensures hints == old(hints) + (if started then 1 else 0)
    {
      StepKeepsBound(View(), settings, Label.BeginHint);
      assert |activeJobs| == |activeJobs.Keys|;
      if !acceptingClaims || |activeJobs| >= settings.concurrency {
        return false;
      }
      hints := hints + 1;
      return true;
    }

    method AfterHintClaim(claimed: Option<JobId>)
      requires Valid() && hints > 0
      modifies this
      ensures Valid() && View() == Apply(old(View()), settings, Label.AfterHintClaim(claimed))
      ensures live == old(live) + (if claimed.Some? then multiset{claimed.value} else multiset{})
    {
      StepKeepsBound(View(), settings, Label.AfterHintClaim(claimed));
      hints := hints - 1;
      if claimed.Some? {
        Start(claimed.value);
      }
    }

    // execution.finally: the key goes, whichever execution of the job it stood for.
    method Settle(id: JobId)
      requires Valid() && id in live
      modifies this
      ensures Valid() && View() == Apply(old(View()), settings, Label.Settle(id))
      ensures live == old(live) - multiset{id} && activeJobs.Keys == old(activeJobs).Keys - {id}
    {
      StepKeepsBound(View(), settings, Label.Settle(id));
      live, activeJobs := live - multiset{id}, activeJobs - {id};
      assert activeJobs.Keys == old(activeJobs).Keys - {id};
    }

    method Shutdown()
      requires Valid()
      modifies this
      ensures Valid() && View() == Apply(old(View()), settings, Label.Shutdown)
      ensures !acceptingClaims && live == old(live) && activeJobs == old(activeJobs) && polling == old(polling)
    {
      acceptingClaims := false;
    }
  }

  // ---- every interleaving ----

  // The polling flag admits one poller; what is active and what may still be claimed stay within
  // the configured concurrency plus the hints handled at once.
  ghost predicate Bounded(s: Local, c: Settings) {
    && s.recovering + s.claiming == (if s.polling then 1 else 0)
    && s.hints <= c.deliveries
    && |s.active| + s.claiming + s.hints <= c.concurrency + c.deliveries
  }

  lemma OneMore(active: set<JobId>, id: JobId)
    ensures |active + {id}| <= |active| + 1 && |active - {id}| <= |active|
  {
    if id in active {
      assert active + {id} == active;
    }
    SubsetSize(active - {id}, active);
  }

  lemma StepKeepsBound(s: Local, c: Settings, l: Label)
    requires Bounded(s, c)
    ensures Bounded(Apply(s, c, l), c)
  {
    match l
    case AfterClaim(claimed) => OneMore(s.active, if claimed.Some? then claimed.value else 0);
    case AfterHintClaim(claimed) => OneMore(s.active, if claimed.Some? then claimed.value else 0);
    case Settle(id) => OneMore(s.active, id);
    case _ =>
  }

  // Local worker bound, over every interleaving of pollers, hints, settling executions and shutdown.
  lemma {:induction false} LocalWorkerBound(c: Settings, ls: seq<Label>)
    ensures Bounded(Run(c, ls), c)
    ensures |Run(c, ls).active| <= c.concurrency + c.deliveries
  {
    if ls != [] {
      LocalWorkerBound(c, ls[..|ls| - 1]);
      StepKeepsBound(Run(c, ls[..|ls| - 1]), c, ls[|ls| - 1]);
    }
  }

  // The job a step launches, if it launches one.
  function Launches(s: Local, l: Label): Option<JobId> {
    match l
    case AfterClaim(claimed) => if s.claiming > 0 && s.accepting then claimed else None
    case AfterHintClaim(claimed) => if s.hints > 0 then claimed else None
    case _ => None
  }

  // No step launches a job that is still executing in this process.
  predicate Fresh(s: Local, l: Label) {
    Launches(s, l).Some? ==> Launches(s, l).value !in s.live
  }

  // ... at every step of a run.
  predicate NeverReclaims(c: Settings, ls: seq<Label>) {
    ls == [] || (NeverReclaims(c, ls[..|ls| - 1]) && Fresh(Run(c, ls[..|ls| - 1]), ls[|ls| - 1]))
  }

  // The map shows every execution.
  ghost predicate ShowsAll(s: Local) {
    s.live == multiset(s.active)
  }

  // ... in every state of a run.
  ghost predicate AlwaysShowsAll(c: Settings, ls: seq<Label>) {
    ShowsAll(Run(c, ls)) && (ls == [] || AlwaysShowsAll(c, ls[..|ls| - 1]))
  }

  lemma LaunchShowsAll(s: Local, id: JobId)
    requires ShowsAll(s)
    ensures ShowsAll(Launch(s, id)) <==> id !in s.live
  {
    if id in s.live {
      assert Launch(s, id).live[id] == 2;
    } else {
      assert multiset(s.active + {id}) == multiset(s.active) + multiset{id};
    }
  }

  lemma StepShowsAll(s: Local, c: Settings, l: Label)
    requires ShowsAll(s)
    ensures ShowsAll(Apply(s, c, l)) <==> Fresh(s, l)
  {
    if Launches(s, l).Some? {
      LaunchShowsAll(s, Launches(s, l).value);
    } else if l.Settle? {
      assert multiset(s.active - {l.id}) == multiset(s.active) - multiset{l.id};
    }
  }

  // The map shows every execution throughout a run exactly when the run never launches a job that
  // is still executing in this process; the number of executions then obeys the bound too.
  lemma {:induction false} ExecutionsBounded(c: Settings, ls: seq<Label>)
    ensures AlwaysShowsAll(c, ls) <==> NeverReclaims(c, ls)
    ensures NeverReclaims(c, ls) ==> |Run(c, ls).live| <= c.concurrency + c.deliveries
  {
    LocalWorkerBound(c, ls);
    if ls == [] {
      assert multiset(IDLE.active) == IDLE.live;
    } else {
      var earlier := ls[..|ls| - 1];
      ExecutionsBounded(c, earlier);
      assert AlwaysShowsAll(c, earlier) ==> ShowsAll(Run(c, earlier));
      if ShowsAll(Run(c, earlier)) {
        StepShowsAll(Run(c, earlier), c, ls[|ls| - 1]);
      }
    }
  }

  lemma LongerRun(c: Settings, ls: seq<Label>, l: Label)
    ensures Run(c, ls + [l]) == Apply(Run(c, ls), c, l)
  {
    assert (ls + [l])[..|ls|] == ls;
  }

  lemma PollerWaits(c: Settings)
    requires c.concurrency >= 1
    ensures Run(c, [BeginPoll, AfterRecovery(true)]) == IDLE.(polling := true, claiming := 1)
  {
    LongerRun(c, [], BeginPoll);
    LongerRun(c, [BeginPoll], AfterRecovery(true));
    assert [] + [BeginPoll] == [BeginPoll] && [BeginPoll] + [AfterRecovery(true)] == [BeginPoll, AfterRecovery(true)];
  }

  function Reclaims(n: nat): seq<Label> {
    if n == 0 then [BeginPoll, AfterRecovery(true)] else Reclaims(n - 1) + [AfterClaim(Some(7))]
  }

  lemma Reclaimed(s: Local, n: nat)
    requires s.accepting && s.claiming == 1 && s.active <= {7} && |s.live| == n
    ensures
      var t := Apply(s, Settings(2, 0), AfterClaim(Some(7)));
      t.accepting && t.claiming == 1 && t.active == {7} && |t.live| == n + 1
  {
    assert s.active + {7} == {7};
  }

  // ... and the condition is needed: a job whose lease keeps expiring while it executes can be
  // claimed by the same process any number of times, and the map never shows more than one key.
  lemma {:induction false} ReclaimsAreUnbounded(n: nat)
    ensures
      var s := Run(Settings(2, 0), Reclaims(n));
      |s.live| == n && |s.active| <= 1 && s.claiming == 1 && s.accepting && s.active <= {7}
  {
    if n == 0 {
      PollerWaits(Settings(2, 0));
    } else {
      ReclaimsAreUnbounded(n - 1);
      LongerRun(Settings(2, 0), Reclaims(n - 1), AfterClaim(Some(7)));
      Reclaimed(Run(Settings(2, 0), Reclaims(n - 1)), n - 1);
    }
  }

  // ---- shutdown ----

  // Once claims are no longer accepted, only the hints that wait for a claim already can start a job.
  lemma DrainStep(s: Local, c: Settings, l: Label)
    requires !s.accepting
    ensures
      var t := Apply(s, c, l);
      && !t.accepting && t.recovering <= s.recovering && t.claiming <= s.claiming && t.hints <= s.hints
      && (t.polling ==> s.polling) && |t.live| + t.hints <= |s.live| + s.hints
      && (forall id :: t.live[id] > s.live[id] ==> l == AfterHintClaim(Some(id)) && t.hints < s.hints)
  {
  }

  // Shutdown drains the process, over every continuation: no poll, recovery, claim or hint begins, the
  // poller's claim is dropped, and the executions ahead are those that run and those of the hints that
  // were waiting for a claim.
  lemma {:induction false} ShutdownDrains(c: Settings, ls: seq<Label>, n: nat)
    requires n <= |ls| && !Run(c, ls[..n]).accepting
    ensures
      var s, t := Run(c, ls[..n]), Run(c, ls);
      && !t.accepting && t.recovering <= s.recovering && t.claiming <= s.claiming && t.hints <= s.hints
      && (t.polling ==> s.polling) && |t.live| + t.hints <= |s.live| + s.hints
  {
    if n == |ls| {
      assert ls[..n] == ls;
    } else {
      var front := ls[..|ls| - 1];
      assert front[..n] == ls[..n];
      ShutdownDrains(c, front, n);
      DrainStep(Run(c, front), c, ls[|ls| - 1]);
    }
  }

  // ---- the bound is reached ----

  // The map shows n different executions; `hints` calls and, unless the map is full, the poller wait for
  // a claim.
  ghost predicate Filled(c: Settings, s: Local, n: nat, hints: nat) {
    && s.accepting && s.recovering == 0 && s.hints == hints && |s.active| == n && ShowsAll(s)
    && s.polling == (n < c.concurrency) && s.claiming == One(n < c.concurrency)
  }

  lemma PollerLaunches(c: Settings, s: Local, n: nat, id: JobId)
    requires Filled(c, s, n, s.hints) && n < c.concurrency && id !in s.active
    ensures Fresh(s, AfterClaim(Some(id))) && Filled(c, Apply(s, c, AfterClaim(Some(id))), n + 1, s.hints)
  {
    LaunchShowsAll(s, id);
  }

  lemma HintLaunches(c: Settings, s: Local, n: nat, hints: nat, id: JobId)
    requires Filled(c, s, n, hints) && n >= c.concurrency && hints > 0 && id !in s.active
    ensures Fresh(s, AfterHintClaim(Some(id))) && Filled(c, Apply(s, c, AfterHintClaim(Some(id))), n + 1, hints - 1)
  {
    LaunchShowsAll(s, id);
  }

  lemma GoesOn(c: Settings, ls: seq<Label>, l: Label)
    requires NeverReclaims(c, ls) && Fresh(Run(c, ls), l)
    ensures NeverReclaims(c, ls + [l]) && Run(c, ls + [l]) == Apply(Run(c, ls), c, l)
  {
    assert (ls + [l])[..|ls|] == ls;
  }

  lemma {:induction false} HintsBegin(c: Settings, n: nat) returns (ls: seq<Label>)
    requires c.concurrency >= 1 && n <= c.deliveries
    ensures NeverReclaims(c, ls) && Run(c, ls) == IDLE.(hints := n)
  {
    ls := [];
    if n > 0 {
      ls := HintsBegin(c, n - 1);
      GoesOn(c, ls, BeginHint);
      ls := ls + [BeginHint];
    }
  }

  lemma PollerBegins(c: Settings) returns (ls: seq<Label>)
    requires c.concurrency >= 1
    ensures NeverReclaims(c, ls) && Filled(c, Run(c, ls), 0, c.deliveries)
  {
    ls := HintsBegin(c, c.deliveries);
    GoesOn(c, ls, BeginPoll);
    ls := ls + [BeginPoll];
    GoesOn(c, ls, AfterRecovery(true));
    ls := ls + [AfterRecovery(true)];
  }

  lemma {:induction false} PollerFills(c: Settings, n: nat) returns (ls: seq<Label>)
    requires c.concurrency >= 1 && n <= c.concurrency
    ensures NeverReclaims(c, ls) && Filled(c, Run(c, ls), n, c.deliveries)
  {
    if n == 0 {
      ls := PollerBegins(c);
    } else {
      var before := PollerFills(c, n - 1);
      var id := FreshFor(Run(c, before).active);
      PollerLaunches(c, Run(c, before), n - 1, id);
      GoesOn(c, before, AfterClaim(Some(id)));
      ls := before + [AfterClaim(Some(id))];
    }
  }

  lemma {:induction false} HintsOverfill(c: Settings, n: nat) returns (ls: seq<Label>)
    requires c.concurrency >= 1 && n <= c.deliveries
    ensures NeverReclaims(c, ls) && Filled(c, Run(c, ls), c.concurrency + n, c.deliveries - n)
  {
    if n == 0 {
      ls := PollerFills(c, c.concurrency);
    } else {
      var before := HintsOverfill(c, n - 1);
      var id := FreshFor(Run(c, before).active);
      HintLaunches(c, Run(c, before), c.concurrency + n - 1, c.deliveries - n + 1, id);
      GoesOn(c, before, AfterHintClaim(Some(id)));
      ls := before + [AfterHintClaim(Some(id))];
    }
  }

  // The local bound is tight for every setting: hints that looked at the map before the poller filled it
  // carry the process past its concurrency, by as many different jobs as it handles hints at once.
  lemma BoundIsReached(c: Settings) returns (ls: seq<Label>)
    requires c.concurrency >= 1
    ensures NeverReclaims(c, ls) && |Run(c, ls).active| == |Run(c, ls).live| == c.concurrency + c.deliveries
  {
    ls := HintsOverfill(c, c.deliveries);
  }
}
