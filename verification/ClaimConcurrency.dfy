// Models the claiming transaction of apps/worker/src/claiming/job-claim.service.ts at the grain of
// its statements: begin, lock a queue, count its active jobs, pick and row-lock a job, commit.
// Statements of many claimers interleave with each other and with every other transaction of the
// system; those block on the rows a claimer has locked.
module ClaimConcurrency {
  import opened Wrappers
  import opened Tables
  import opened Protocol
  import opened Lifecycle
  import opened History
  import opened Capacity
  import T = Transactions

  type TxId = nat

  // Where a claiming transaction stands.  `count` and `limit` are what its last statement read.
  datatype Stage =
    | Searching
    | Counted(q: QueueId, count: nat, limit: nat)
    | Picked(q: QueueId, count: nat, limit: nat, j: JobId)

  // `at` is the transaction's NOW(); `held` the queues whose advisory and row lock it holds.
  datatype Claimer = Claimer(w: WorkerId, leaseMs: nat, at: Time, held: set<QueueId>, stage: Stage)

  datatype Conc = Conc(sys: Sys, claimers: map<TxId, Claimer>)

  datatype Action =
    | Begin(tx: TxId, w: WorkerId, leaseMs: nat)
    | LockQueue(tx: TxId, q: QueueId)
    | CountActive(tx: TxId, q: QueueId)
    | PickJob(tx: TxId, j: JobId)
    | Commit(tx: TxId)
    | Abort(tx: TxId)
    | Other(l: Label)

  predicate RowLocked(c: Conc, j: JobId) {
    exists tx :: tx in c.claimers && c.claimers[tx].stage.Picked? && c.claimers[tx].stage.j == j
  }

  predicate QueueLocked(c: Conc, q: QueueId) {
    exists tx :: tx in c.claimers && q in c.claimers[tx].held
  }

  // A transaction that would write a locked row waits instead.
  predicate Blocked(c: Conc, t: Sys) {
    || (exists j :: j in c.sys.db.jobs && RowLocked(c, j) && (j !in t.db.jobs || t.db.jobs[j] != c.sys.db.jobs[j]))
    || (exists q :: q in c.sys.db.queues && QueueLocked(c, q)
                    && (q !in t.db.queues || t.db.queues[q] != c.sys.db.queues[q]))
  }

  // The UPDATE as it is written: it re-checks neither the count nor the limit.
  function RawClaim(s: Sys, j: JobId, w: WorkerId, leaseMs: nat, at: Time): Sys
    requires j in s.db.jobs
  {
    var c := TallyOf(s.tally, j);
    s.(db := s.db.(jobs := s.db.jobs[j := T.ClaimedJob(s.db.jobs[j], w, leaseMs, at)]),
       hands := Given(s.hands, j, w), tally := s.tally[j := c.(claimants := c.claimants + [w])])
  }

  function Next(c: Conc, a: Action): Conc {
    var db := c.sys.db;
    match a
    case Begin(tx, w, leaseMs) =>
      if tx in c.claimers then c
      else c.(claimers := c.claimers[tx := Claimer(w, leaseMs, db.now, {}, Searching)])
    case LockQueue(tx, q) =>
      if tx in c.claimers && !QueueLocked(c, q) && q in db.queues && db.queues[q].active && !db.queues[q].archived
      then c.(claimers := c.claimers[tx := c.claimers[tx].(held := c.claimers[tx].held + {q}, stage := Searching)])
      else c
    case CountActive(tx, q) =>
      if tx in c.claimers && q in c.claimers[tx].held && q in db.queues
      then c.(claimers := c.claimers[tx := c.claimers[tx].(
                stage := Counted(q, |ActiveJobs(db.jobs, q)|, db.queues[q].concurrencyLimit))])
      else c
    case PickJob(tx, j) =>
      if tx in c.claimers && c.claimers[tx].stage.Counted? && c.claimers[tx].stage.count < c.claimers[tx].stage.limit
         && T.CanClaimRow(db, j, c.claimers[tx].at) && db.jobs[j].queueId == c.claimers[tx].stage.q && !RowLocked(c, j)
      then var stage := c.claimers[tx].stage;
           c.(claimers := c.claimers[tx := c.claimers[tx].(stage := Picked(stage.q, stage.count, stage.limit, j))])
      else c
    case Commit(tx) =>
      if tx in c.claimers && c.claimers[tx].stage.Picked? && c.claimers[tx].stage.j in db.jobs
      then var me := c.claimers[tx];
           Conc(RawClaim(c.sys, me.stage.j, me.w, me.leaseMs, me.at), c.claimers - {tx})
      else c
    case Abort(tx) => c.(claimers := c.claimers - {tx})
    case Other(l) =>
      if l.Claim? || Blocked(c, Apply(c.sys, l)) then c else c.(sys := Apply(c.sys, l))
  }

  function Interleave(acts: seq<Action>): Conc {
    if acts == [] then Conc(INITIAL, map[])
    else Next(Interleave(acts[..|acts| - 1]), acts[|acts| - 1])
  }

  // ---- what the locks guarantee ----

  // While the queue lock is held, the true count is at most the count read, and the limit is frozen.
  ghost predicate ReadHolds(db: Db, me: Claimer, q: QueueId, count: nat, limit: nat) {
    && q in me.held && q in db.queues && limit == db.queues[q].concurrencyLimit
    && |ActiveJobs(db.jobs, q)| <= count
  }

  ghost predicate ClaimerOk(db: Db, me: Claimer) {
    && me.at <= db.now
    && (forall q :: q in me.held ==> q in db.queues && db.queues[q].active && !db.queues[q].archived)
    && match me.stage
       case Searching => true
       case Counted(q, count, limit) => ReadHolds(db, me, q, count, limit)
       case Picked(q, count, limit, j) =>
         ReadHolds(db, me, q, count, limit) && count < limit && T.CanClaimRow(db, j, me.at) && db.jobs[j].queueId == q
  }

  ghost predicate Exclusive(claimers: map<TxId, Claimer>) {
    forall a, b | a in claimers && b in claimers && a != b ::
      claimers[a].held !! claimers[b].held
      && !(claimers[a].stage.Picked? && claimers[b].stage.Picked? && claimers[a].stage.j == claimers[b].stage.j)
  }

  ghost predicate ConcOk(c: Conc) {
    && Inv(c.sys) && CapOk(c.sys) && Exclusive(c.claimers)
    && (forall tx :: tx in c.claimers ==> ClaimerOk(c.sys.db, c.claimers[tx]))
  }

  lemma RawClaimIsClaim(s: Sys, j: JobId, w: WorkerId, leaseMs: nat, at: Time)
    requires T.CanClaim(s.db, j, at)
    ensures RawClaim(s, j, w, leaseMs, at) == DoClaim(s, j, w, leaseMs, at)
  {
  }

  // When a claimer commits, the claim is still allowed.
  lemma CommitIsAllowed(c: Conc, tx: TxId)
    requires ConcOk(c) && tx in c.claimers && c.claimers[tx].stage.Picked?
    ensures
      var me := c.claimers[tx];
      && T.CanClaim(c.sys.db, me.stage.j, me.at)
      && RawClaim(c.sys, me.stage.j, me.w, me.leaseMs, me.at) == DoClaim(c.sys, me.stage.j, me.w, me.leaseMs, me.at)
  {
    var me := c.claimers[tx];
    assert ClaimerOk(c.sys.db, me);
    RawClaimIsClaim(c.sys, me.stage.j, me.w, me.leaseMs, me.at);
  }

  // Another claimer's commit, in another queue and on another row, does not disturb a claimer.
  lemma OtherCommitHarmless(s: Sys, me: Claimer, j: JobId, w: WorkerId, leaseMs: nat, at: Time)
    requires ClaimerOk(s.db, me) && T.CanClaim(s.db, j, at) && s.db.jobs[j].queueId !in me.held
    requires me.stage.Picked? ==> me.stage.j != j
    ensures ClaimerOk(DoClaim(s, j, w, leaseMs, at).db, me)
  {
    if !me.stage.Searching? {
      ClaimAddsOne(s, j, w, leaseMs, at, me.stage.q);
    }
  }

  ghost predicate Undisturbed(db: Db, later: Db, me: Claimer)
    requires ClaimerOk(db, me)
  {
    && db.now <= later.now
    && (forall q :: q in me.held ==> q in later.queues && later.queues[q] == db.queues[q])
    && (me.stage.Picked? ==> me.stage.j in later.jobs && later.jobs[me.stage.j] == db.jobs[me.stage.j])
    && (!me.stage.Searching? ==> |ActiveJobs(later.jobs, me.stage.q)| <= |ActiveJobs(db.jobs, me.stage.q)|)
  }

  lemma UndisturbedIsOk(db: Db, later: Db, me: Claimer)
    requires ClaimerOk(db, me)
    requires Undisturbed(db, later, me)
    ensures ClaimerOk(later, me)
  {
  }

  // Any other transaction leaves the locked rows alone and cannot raise the count.
  lemma OtherStepHarmless(c: Conc, l: Label, tx: TxId)
    requires ConcOk(c) && tx in c.claimers && !l.Claim? && !Blocked(c, Apply(c.sys, l))
    ensures ClaimerOk(Apply(c.sys, l).db, c.claimers[tx])
  {
    var s, t, me := c.sys, Apply(c.sys, l), c.claimers[tx];
    assert ClaimerOk(s.db, me);
    assert Undisturbed(s.db, t.db, me) by {
      LocksHold(c, t, tx);
      var newcomer := EveryLabelSteps(s, l);
      OthersDoNotClaim(s, l);
      if !me.stage.Searching? {
        OnlyClaimsOccupy(s, t, newcomer, me.stage.q);
      }
    }
    UndisturbedIsOk(s.db, t.db, me);
  }

  lemma LocksHold(c: Conc, t: Sys, tx: TxId)
    requires tx in c.claimers && ClaimerOk(c.sys.db, c.claimers[tx]) && !Blocked(c, t)
    ensures
      var me := c.claimers[tx];
      && (forall q :: q in me.held ==> q in t.db.queues && t.db.queues[q] == c.sys.db.queues[q])
      && (me.stage.Picked? ==> me.stage.j in t.db.jobs && t.db.jobs[me.stage.j] == c.sys.db.jobs[me.stage.j])
  {
    var me := c.claimers[tx];
    assert forall q :: q in me.held ==> QueueLocked(c, q);
    if me.stage.Picked? {
      assert RowLocked(c, me.stage.j);
    }
  }

  // The step of the atomic system that an action performs, if it performs one.
  function LabelOf(c: Conc, a: Action): Option<Label> {
    match a
    case Commit(tx) =>
      if tx in c.claimers && c.claimers[tx].stage.Picked? && c.claimers[tx].stage.j in c.sys.db.jobs
      then Some(Claim(c.claimers[tx].stage.j, c.claimers[tx].w, c.claimers[tx].leaseMs, c.claimers[tx].at))
      else None
    case Other(l) => if l.Claim? || Blocked(c, Apply(c.sys, l)) then None else Some(l)
    case _ => None
  }

  // Refinement, one action: the fine-grained system stutters or takes a step of the atomic one.
  lemma ActionRefines(c: Conc, a: Action)
    requires ConcOk(c)
    ensures Next(c, a).sys == if LabelOf(c, a).Some? then Apply(c.sys, LabelOf(c, a).value) else c.sys
  {
    if a.Commit? && a.tx in c.claimers && c.claimers[a.tx].stage.Picked? && c.claimers[a.tx].stage.j in c.sys.db.jobs {
      CommitIsAllowed(c, a.tx);
      var me := c.claimers[a.tx];
      ClaimApplies(c.sys, me.stage.j, me.w, me.leaseMs, me.at);
    }
  }

  lemma SysKept(c: Conc, a: Action)
    requires ConcOk(c)
    ensures Inv(Next(c, a).sys) && CapOk(Next(c, a).sys)
  {
    ActionRefines(c, a);
    if LabelOf(c, a).Some? {
      var newcomer := EveryLabelSteps(c.sys, LabelOf(c, a).value);
      StepKeepsInv(c.sys, Apply(c.sys, LabelOf(c, a).value), newcomer);
      StepKeepsCap(c.sys, LabelOf(c, a).value);
    }
  }

  lemma ExclusiveKept(c: Conc, a: Action)
    requires Exclusive(c.claimers)
    ensures Exclusive(Next(c, a).claimers)
  {
    assert a.LockQueue? && !QueueLocked(c, a.q) ==> forall tx :: tx in c.claimers ==> a.q !in c.claimers[tx].held;
    assert a.PickJob? && !RowLocked(c, a.j) ==>
      forall tx :: tx in c.claimers ==> !(c.claimers[tx].stage.Picked? && c.claimers[tx].stage.j == a.j);
  }

  lemma CommitIsRaw(c: Conc, mine: TxId)
    requires mine in c.claimers && c.claimers[mine].stage.Picked? && c.claimers[mine].stage.j in c.sys.db.jobs
    ensures
      var me := c.claimers[mine];
      Next(c, Commit(mine)).sys == RawClaim(c.sys, me.stage.j, me.w, me.leaseMs, me.at)
  {
  }

  lemma CommitIsClaim(c: Conc, mine: TxId)
    requires ConcOk(c) && mine in c.claimers && c.claimers[mine].stage.Picked?
    requires c.claimers[mine].stage.j in c.sys.db.jobs
    ensures
      var me := c.claimers[mine];
      Next(c, Commit(mine)).sys == DoClaim(c.sys, me.stage.j, me.w, me.leaseMs, me.at)
  {
    CommitIsRaw(c, mine);
    CommitIsAllowed(c, mine);
  }

  // Two claimers hold different queues and have picked different rows.
  lemma ClaimersApart(c: Conc, mine: TxId, tx: TxId)
    requires ConcOk(c) && mine in c.claimers && c.claimers[mine].stage.Picked? && tx in c.claimers && mine != tx
    ensures
      var j := c.claimers[mine].stage.j;
      && T.CanClaim(c.sys.db, j, c.claimers[mine].at) && c.sys.db.jobs[j].queueId !in c.claimers[tx].held
      && (c.claimers[tx].stage.Picked? ==> c.claimers[tx].stage.j != j)
  {
    CommitIsAllowed(c, mine);
    assert ClaimerOk(c.sys.db, c.claimers[mine]);
  }

  lemma CommitKeepsOthers(c: Conc, mine: TxId, tx: TxId)
    requires ConcOk(c) && mine in c.claimers && c.claimers[mine].stage.Picked? && tx in c.claimers && mine != tx
    requires c.claimers[mine].stage.j in c.sys.db.jobs
    ensures ClaimerOk(Next(c, Commit(mine)).sys.db, c.claimers[tx])
  {
    var me := c.claimers[mine];
    CommitIsClaim(c, mine);
    ClaimersApart(c, mine, tx);
    OtherCommitHarmless(c.sys, c.claimers[tx], me.stage.j, me.w, me.leaseMs, me.at);
  }

  // A claimer's own statements, and those of claimers that do not commit.
  lemma ReadsKeepClaimers(c: Conc, a: Action, tx: TxId)
    requires ConcOk(c) && !a.Commit? && !a.Other? && tx in Next(c, a).claimers
    ensures Next(c, a).sys == c.sys && ClaimerOk(c.sys.db, Next(c, a).claimers[tx])
  {
    assert tx in c.claimers ==> ClaimerOk(c.sys.db, c.claimers[tx]);
  }

  lemma ClaimersKept(c: Conc, a: Action, tx: TxId)
    requires ConcOk(c) && tx in Next(c, a).claimers
    ensures ClaimerOk(Next(c, a).sys.db, Next(c, a).claimers[tx])
  {
    if a.Commit? {
      if a.tx in c.claimers && c.claimers[a.tx].stage.Picked? && c.claimers[a.tx].stage.j in c.sys.db.jobs {
        CommitKeepsOthers(c, a.tx, tx);
      }
    } else if a.Other? {
      if !a.l.Claim? && !Blocked(c, Apply(c.sys, a.l)) {
        OtherStepHarmless(c, a.l, tx);
      }
    } else {
      ReadsKeepClaimers(c, a, tx);
    }
  }

  lemma {:induction false} AlwaysConcOk(acts: seq<Action>)
    ensures ConcOk(Interleave(acts))
  {
    if acts != [] {
      var c, a := Interleave(acts[..|acts| - 1]), acts[|acts| - 1];
      AlwaysConcOk(acts[..|acts| - 1]);
      SysKept(c, a);
      ExclusiveKept(c, a);
      forall tx | tx in Next(c, a).claimers
        ensures ClaimerOk(Next(c, a).sys.db, Next(c, a).claimers[tx])
      {
        ClaimersKept(c, a, tx);
      }
    }
  }

  function Flatten(acts: seq<Action>): seq<Label> {
    if acts == [] then []
    else
      var l := LabelOf(Interleave(acts[..|acts| - 1]), acts[|acts| - 1]);
      Flatten(acts[..|acts| - 1]) + (if l.Some? then [l.value] else [])
  }

  // Refinement, whole runs: every interleaving of claim statements with everything else ends in a
  // state the atomic system reaches, so whatever holds of all atomic runs holds here.
  lemma {:induction false} InterleavingRefinesAtomic(acts: seq<Action>)
    ensures Interleave(acts).sys == Run(INITIAL, Flatten(acts))
  {
    if acts != [] {
      var front, a := acts[..|acts| - 1], acts[|acts| - 1];
      InterleavingRefinesAtomic(front);
      AlwaysConcOk(front);
      ActionRefines(Interleave(front), a);
      var l := LabelOf(Interleave(front), a);
      if l.Some? {
        assert Flatten(acts)[..|Flatten(acts)| - 1] == Flatten(front);
      } else {
        assert Flatten(acts) == Flatten(front);
      }
    }
  }

  // Queue cap: however claimers interleave, the active jobs of a queue never exceed the largest
  // limit the queue has had.
  lemma QueueCapUnderConcurrency(acts: seq<Action>, q: QueueId)
    requires q in Interleave(acts).sys.db.queues
    ensures q in Interleave(acts).sys.peak
    ensures |ActiveJobs(Interleave(acts).sys.db.jobs, q)| <= Interleave(acts).sys.peak[q]
  {
    AlwaysConcOk(acts);
  }

  // ---- what gets through ----

  // The locks delay another transaction only when it would change a queue or a row that a claimer holds.
  lemma OthersGoThrough(c: Conc, l: Label)
    requires !l.Claim?
    requires forall tx, q :: tx in c.claimers && q in c.claimers[tx].held && q in c.sys.db.queues ==>
      q in Apply(c.sys, l).db.queues && Apply(c.sys, l).db.queues[q] == c.sys.db.queues[q]
    requires forall tx :: tx in c.claimers && c.claimers[tx].stage.Picked? ==>
      var j := c.claimers[tx].stage.j;
      j in c.sys.db.jobs ==> j in Apply(c.sys, l).db.jobs && Apply(c.sys, l).db.jobs[j] == c.sys.db.jobs[j]
    ensures Next(c, Other(l)) == c.(sys := Apply(c.sys, l))
  {
    assert !Blocked(c, Apply(c.sys, l));
  }

  // Nobody else holds the queue or the row.
  predicate Free(c: Conc, j: JobId) {
    j in c.sys.db.jobs && !QueueLocked(c, c.sys.db.jobs[j].queueId) && !RowLocked(c, j)
  }

  lemma LocksAndCounts(c: Conc, tx: TxId, w: WorkerId, leaseMs: nat, q: QueueId)
    requires tx !in c.claimers && !QueueLocked(c, q)
    requires q in c.sys.db.queues && c.sys.db.queues[q].active && !c.sys.db.queues[q].archived
    ensures
      var counted := Counted(q, |ActiveJobs(c.sys.db.jobs, q)|, c.sys.db.queues[q].concurrencyLimit);
      Next(Next(Next(c, Begin(tx, w, leaseMs)), LockQueue(tx, q)), CountActive(tx, q))
      == c.(claimers := c.claimers[tx := Claimer(w, leaseMs, c.sys.db.now, {q}, counted)])
  {
    var begun := Next(c, Begin(tx, w, leaseMs));
    assert !QueueLocked(begun, q);
    var locked := Next(begun, LockQueue(tx, q));
    assert locked.claimers[tx] == Claimer(w, leaseMs, c.sys.db.now, {q}, Searching);
  }

  lemma Picks(c: Conc, tx: TxId, me: Claimer, j: JobId, count: nat, limit: nat)
    requires tx !in c.claimers && Free(c, j) && T.CanClaimRow(c.sys.db, j, me.at)
    requires me.stage == Counted(c.sys.db.jobs[j].queueId, count, limit) && count < limit
    ensures
      Next(c.(claimers := c.claimers[tx := me]), PickJob(tx, j))
      == c.(claimers := c.claimers[tx := me.(stage := Picked(c.sys.db.jobs[j].queueId, count, limit, j))])
  {
    var counted := c.(claimers := c.claimers[tx := me]);
    assert counted.claimers[tx] == me && !RowLocked(counted, j);
  }

  lemma Commits(c: Conc, tx: TxId, me: Claimer, j: JobId)
    requires tx !in c.claimers && me.stage.Picked? && me.stage.j == j && T.CanClaim(c.sys.db, j, me.at)
    ensures
      Next(c.(claimers := c.claimers[tx := me]), Commit(tx))
      == Conc(DoClaim(c.sys, j, me.w, me.leaseMs, me.at), c.claimers)
  {
    RawClaimIsClaim(c.sys, j, me.w, me.leaseMs, me.at);
    assert c.claimers[tx := me] - {tx} == c.claimers;
  }

  // The locks keep nothing out that the atomic claim lets through: a job that can be claimed, in a queue
  // and a row that nobody holds, is claimed by the five statements in turn, whoever else is under way.
  lemma ClaimGoesThrough(c: Conc, tx: TxId, w: WorkerId, leaseMs: nat, j: JobId)
    requires tx !in c.claimers && Free(c, j) && T.CanClaim(c.sys.db, j, c.sys.db.now)
    ensures
      var q := c.sys.db.jobs[j].queueId;
      var counted := Next(Next(Next(c, Begin(tx, w, leaseMs)), LockQueue(tx, q)), CountActive(tx, q));
      Next(Next(counted, PickJob(tx, j)), Commit(tx))
      == Conc(Apply(c.sys, Claim(j, w, leaseMs, c.sys.db.now)), c.claimers)
  {
    var q := c.sys.db.jobs[j].queueId;
    LocksAndCounts(c, tx, w, leaseMs, q);
    var count, limit := |ActiveJobs(c.sys.db.jobs, q)|, c.sys.db.queues[q].concurrencyLimit;
    var me := Claimer(w, leaseMs, c.sys.db.now, {q}, Counted(q, count, limit));
    Picks(c, tx, me, j, count, limit);
    Commits(c, tx, me.(stage := Picked(q, count, limit, j)), j);
    ClaimApplies(c.sys, j, w, leaseMs, c.sys.db.now);
  }
}
