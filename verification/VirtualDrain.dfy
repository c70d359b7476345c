/** Draining virtual in chunks. Inserting a block with a virtual update, and building a block, first resolve
    what is pending, chunk by chunk, releasing the consensus lock between chunks. */
module VirtualDrain {
  import opened Utxo
  import opened Trace

  type Thread = nat
  type Block = nat

  datatype Job =
    | InsertUpdating(block: Block)   // ValidateAndInsertBlock with updateVirtual
    | InsertOnly(block: Block)       // ValidateAndInsertBlock without it
    | Build                          // BuildBlock, BuildBlockTemplate
    | ResolveAll                     // ResolveVirtual

  datatype Pc =
    | Waiting(job: Job)    // before its first Lock
    | Testing(job: Job)    // holds the lock, about to read virtualNotUpdated
    | Draining(job: Job)   // holds the lock, about to resolve a chunk
    | Between(job: Job)    // released the lock between two chunks
    | Running(job: Job)    // holds the lock, does what it came for
    | Finished

  /** `pending` are the inserted blocks with a body that virtual was not resolved over; `slipped` are those of them
      whose insert failed after the block was stored and before the flag was raised. */
  datatype State = State(
    holder: Option<Thread>,
    virtualNotUpdated: bool,
    threads: map<Thread, Pc>,
    pending: set<Block>,
    slipped: set<Block>)

  datatype ChunkOutcome =
    | ResolveFails                                     // ResolveVirtual itself fails
    | LaterFails(complete: bool, resolved: set<Block>) // a step after it fails, the flag is already set
    | Resolves(complete: bool, resolved: set<Block>)

  datatype InsertOutcome = Rejected | HeaderOnly | Stored | StoredThenFails

  datatype Action =
    | Arrive(t: Thread, job: Job)
    | Acquire(t: Thread)
    | Test(t: Thread)
    | Chunk(t: Thread, outcome: ChunkOutcome)
    | Run(t: Thread, insert: InsertOutcome)

  predicate Holds(pc: Pc) {
    pc.Testing? || pc.Draining? || pc.Running?
  }

  /** The work that must not see a virtual that is only partly resolved. */
  predicate NeedsResolved(job: Job) {
    job.InsertUpdating? || job.Build?
  }

  ghost predicate Enabled(s: State, a: Action) {
    match a
    case Arrive(t, _) => t !in s.threads
    case Acquire(t) => t in s.threads && (s.threads[t].Waiting? || s.threads[t].Between?) && s.holder.None?
    case Test(t) => t in s.threads && s.threads[t].Testing?
    case Chunk(t, outcome) =>
      && t in s.threads && s.threads[t].Draining?
      && (outcome.ResolveFails? || outcome.resolved <= s.pending)
      && (!outcome.ResolveFails? && outcome.complete ==> outcome.resolved == s.pending)
    case Run(t, _) => t in s.threads && s.threads[t].Running?
  }

  function Release(s: State, t: Thread, pc: Pc): State {
    s.(holder := None, threads := s.threads[t := pc])
  }

  /** Virtual is resolved over more of the pending blocks. */
  function Resolved(s: State, complete: bool, resolved: set<Block>): State {
    s.(virtualNotUpdated := !complete, pending := s.pending - resolved, slipped := s.slipped - resolved)
  }

  /** The job's step after taking the lock, for the first time or again. */
  function AfterAcquire(pc: Pc): Pc
    requires pc.Waiting? || pc.Between?
  {
    match pc.job
    case InsertOnly(_) => Running(pc.job)
    case InsertUpdating(_) => if pc.Waiting? then Testing(pc.job) else Draining(pc.job)
    case Build => Testing(pc.job)
    case ResolveAll => Draining(pc.job)
  }

  ghost function Do(s: State, a: Action): State
    requires Enabled(s, a)
  {
    match a
    case Arrive(t, job) => s.(threads := s.threads[t := Waiting(job)])
    case Acquire(t) => s.(holder := Some(t), threads := s.threads[t := AfterAcquire(s.threads[t])])
    case Test(t) =>
      var job := s.threads[t].job;
      s.(threads := s.threads[t := if s.virtualNotUpdated then Draining(job) else Running(job)])
    case Chunk(t, outcome) =>
      var job := s.threads[t].job;
      (match outcome
       case ResolveFails => Release(s, t, Finished)
       case LaterFails(complete, resolved) =>
         Release(Resolved(s, complete, resolved), t, Finished)
       case Resolves(complete, resolved) =>
         var s' := Resolved(s, complete, resolved);
         if !complete then Release(s', t, Between(job))
         else if job.ResolveAll? then Release(s', t, Finished)
         else s'.(threads := s'.threads[t := Running(job)]))
    case Run(t, insert) =>
      var job := s.threads[t].job;
      Release(if !job.InsertOnly? then s else
                match insert
                case Stored => s.(pending := s.pending + {job.block}, virtualNotUpdated := true)
                case StoredThenFails => s.(pending := s.pending + {job.block}, slipped := s.slipped + {job.block})
                case _ => s,
              t, Finished)
  }

  /** A fresh consensus: nobody holds the lock and virtual counts as not updated. */
  ghost predicate Initial(s: State) {
    s.holder.None? && s.virtualNotUpdated && s.threads == map[] && s.slipped == {}
  }

  ghost predicate Reaches(s: State, run: seq<Action>, t: State)
    decreases |run|
  {
    if run == [] then s == t else Enabled(s, run[0]) && Reaches(Do(s, run[0]), run[1..], t)
  }

  ghost predicate Inv(s: State) {
    && (forall t :: t in s.threads && Holds(s.threads[t]) ==> s.holder == Some(t))
    && (s.holder.Some? ==> s.holder.value in s.threads && Holds(s.threads[s.holder.value]))
    && (forall t :: t in s.threads && s.threads[t].Running? && NeedsResolved(s.threads[t].job) ==>
          !s.virtualNotUpdated)
    && s.slipped <= s.pending && (!s.virtualNotUpdated ==> s.pending == s.slipped)
  }

  lemma ActionKeepsInv(s: State, a: Action)
    requires Inv(s) && Enabled(s, a)
    ensures Inv(Do(s, a))
  {
  }

  lemma {:induction false} RunKeepsInv(s: State, run: seq<Action>, t: State)
    requires Inv(s) && Reaches(s, run, t)
    ensures Inv(t)
    decreases |run|
  {
    if run != [] {
      ActionKeepsInv(s, run[0]);
      RunKeepsInv(Do(s, run[0]), run[1..], t);
    }
  }

  // ----- What the run itself says

  /** The state a run is in after its first `n` actions. */
  ghost predicate At(s: State, run: seq<Action>, n: nat, t: State) {
    n <= |run| && Reaches(s, run[..n], t)
  }

  lemma LastStep(s: State, run: seq<Action>, n: nat, u: State) returns (t: State)
    requires 0 < n && At(s, run, n, u)
    ensures At(s, run, n - 1, t) && Enabled(t, run[n-1]) && u == Do(t, run[n-1])
  {
    assert run[..n][..n-1] == run[..n-1];
    t := Unsnoc(s, run[..n], u);
  }

  lemma {:induction false} Unsnoc(s: State, run: seq<Action>, u: State) returns (t: State)
    requires run != [] && Reaches(s, run, u)
    ensures Reaches(s, run[..|run|-1], t) && Enabled(t, run[|run|-1]) && u == Do(t, run[|run|-1])
    decreases |run|
  {
    if |run| == 1 {
      t := s;
      assert run[1..] == [];
    } else {
      assert run[1..][..|run|-2] == run[..|run|-1][1..];
      t := Unsnoc(Do(s, run[0]), run[1..], u);
    }
  }

  /** Among the first `n` actions thread `x` came to do `job`. */
  ghost predicate Came(run: seq<Action>, n: nat, x: Thread, job: Job) {
    exists i :: 0 <= i < n <= |run| && run[i] == Arrive(x, job)
  }

  /** Which actions store block `b`, with a body, without resolving virtual over it. */
  ghost function StoredBy(run: seq<Action>, b: Block): nat -> bool {
    (i: nat) => i < |run| && run[i].Run? && (run[i].insert.Stored? || run[i].insert.StoredThenFails?) &&
         Came(run, i, run[i].t, InsertOnly(b))
  }

  /** Which of them fail after that, before the flag is raised. */
  ghost function FailsAfterStoring(run: seq<Action>, b: Block): nat -> bool {
    (i: nat) => i < |run| && run[i].Run? && run[i].insert.StoredThenFails? && Came(run, i, run[i].t, InsertOnly(b))
  }

  /** Which resolve virtual over `b`. */
  ghost function ResolvedBy(run: seq<Action>, b: Block): nat -> bool {
    (i: nat) => i < |run| && run[i].Chunk? && !run[i].outcome.ResolveFails? && b in run[i].outcome.resolved
  }

  /** Virtual does not cover `b`: it was not covered from the start, or it was stored, and nothing resolved it since. */
  ghost predicate Uncovered(before: set<Block>, run: seq<Action>, n: nat, b: Block) {
    (b in before && NoneFrom(ResolvedBy(run, b), 0, n)) || Standing(StoredBy(run, b), ResolvedBy(run, b), n)
  }

  lemma CameOn(run: seq<Action>, n: nat, x: Thread, job: Job)
    requires n < |run|
    ensures Came(run, n + 1, x, job) <==> Came(run, n, x, job) || run[n] == Arrive(x, job)
  {
  }

  lemma StepKeepsJob(t: State, a: Action, x: Thread)
    requires Enabled(t, a)
    ensures x in Do(t, a).threads <==> x in t.threads || (a.Arrive? && a.t == x)
    ensures x in t.threads ==> Do(t, a).threads[x].Finished? || Do(t, a).threads[x] == t.threads[x] ||
                               (!t.threads[x].Finished? && Do(t, a).threads[x].job == t.threads[x].job)
    ensures a.Arrive? && a.t == x ==> x !in t.threads && Do(t, a).threads[x] == Waiting(a.job)
  {
  }

  /** A thread that has not finished has the job it came with. */
  lemma {:induction false} JobFollows(s: State, run: seq<Action>, n: nat, t: State, x: Thread)
    requires Initial(s) && At(s, run, n, t)
    ensures forall job :: Came(run, n, x, job) ==>
              x in t.threads && (t.threads[x].Finished? || t.threads[x].job == job)
    ensures x in t.threads && !t.threads[x].Finished? ==> Came(run, n, x, t.threads[x].job)
    decreases n
  {
    if n > 0 {
      var before := LastStep(s, run, n, t);
      JobFollows(s, run, n - 1, before, x);
      StepKeepsJob(before, run[n-1], x);
      forall job ensures Came(run, n, x, job) <==> Came(run, n - 1, x, job) || run[n-1] == Arrive(x, job) {
        CameOn(run, n - 1, x, job);
      }
    }
  }

  lemma StepPending(t: State, a: Action, b: Block)
    requires Enabled(t, a)
    ensures var stores := a.Run? && t.threads[a.t].job == InsertOnly(b);
            var resolves := a.Chunk? && !a.outcome.ResolveFails? && b in a.outcome.resolved;
            && (b in Do(t, a).pending <==>
                (stores && (a.insert.Stored? || a.insert.StoredThenFails?)) || (b in t.pending && !resolves))
            && (b in Do(t, a).slipped <==> (stores && a.insert.StoredThenFails?) || (b in t.slipped && !resolves))
  {
  }

  /** In every run the pending blocks are those the run leaves uncovered, and the slipped ones those of them whose
      insert failed after storing the block. */
  lemma {:induction false} PendingFollows(s: State, run: seq<Action>, n: nat, t: State, b: Block)
    requires Initial(s) && At(s, run, n, t)
    ensures b in t.pending <==> Uncovered(s.pending, run, n, b)
    ensures b in t.slipped <==> Standing(FailsAfterStoring(run, b), ResolvedBy(run, b), n)
    decreases n
  {
    if n > 0 {
      var before := LastStep(s, run, n, t);
      PendingFollows(s, run, n - 1, before, b);
      StandingOn(StoredBy(run, b), ResolvedBy(run, b), n - 1);
      StandingOn(FailsAfterStoring(run, b), ResolvedBy(run, b), n - 1);
      NoneFromOn(ResolvedBy(run, b), 0, n - 1);
      StepPending(before, run[n-1], b);
      JobFollows(s, run, n - 1, before, run[n-1].t);
    }
  }

  /** Which actions say that virtual is updated, and which that it is not. */
  ghost function SaysUpdated(run: seq<Action>): nat -> bool {
    (i: nat) => i < |run| && run[i].Chunk? && !run[i].outcome.ResolveFails? && run[i].outcome.complete
  }

  ghost function SaysNotUpdated(run: seq<Action>): nat -> bool {
    (i: nat) => i < |run| &&
         ((run[i].Chunk? && !run[i].outcome.ResolveFails? && !run[i].outcome.complete) ||
          (run[i].Run? && run[i].insert.Stored? && exists b :: Came(run, i, run[i].t, InsertOnly(b))))
  }

  /** The flag is down exactly while the last chunk or stored block to speak of it was a chunk that completed. */
  lemma {:induction false} FlagFollows(s: State, run: seq<Action>, n: nat, t: State)
    requires Initial(s) && At(s, run, n, t)
    ensures !t.virtualNotUpdated <==> Standing(SaysUpdated(run), SaysNotUpdated(run), n)
    decreases n
  {
    if n > 0 {
      var before := LastStep(s, run, n, t);
      FlagFollows(s, run, n - 1, before);
      StandingOn(SaysUpdated(run), SaysNotUpdated(run), n - 1);
      JobFollows(s, run, n - 1, before, run[n-1].t);
    }
  }

  /** Which actions end thread `x`'s work: what it came for is done, or its resolving fails, or, where that is all it
      came for, completes. */
  ghost function Ends(run: seq<Action>, x: Thread): nat -> bool {
    (i: nat) => i < |run| && run[i].t == x &&
         (run[i].Run? ||
          (run[i].Chunk? && (!run[i].outcome.Resolves? || (run[i].outcome.complete && Came(run, i, x, ResolveAll)))))
  }

  /** Which actions give up the lock: those, and a chunk after which more is to be resolved. */
  ghost function Unlocks(run: seq<Action>, x: Thread): nat -> bool {
    (i: nat) => Ends(run, x)(i) ||
         (i < |run| && run[i].Chunk? && run[i].t == x && run[i].outcome.Resolves? && !run[i].outcome.complete)
  }

  ghost function Locks(run: seq<Action>, x: Thread): nat -> bool {
    (i: nat) => i < |run| && run[i] == Acquire(x)
  }

  lemma StepThread(t: State, a: Action, x: Thread)
    requires Inv(t) && Enabled(t, a)
    ensures var ends := a.t == x && (a.Run? || (a.Chunk? && (!a.outcome.Resolves? ||
                                     (a.outcome.complete && t.threads[x].job.ResolveAll?))));
            var unlocks := ends || (a.t == x && a.Chunk? && a.outcome.Resolves? && !a.outcome.complete);
            && (x in Do(t, a).threads && Do(t, a).threads[x].Finished? <==>
                ends || (x in t.threads && t.threads[x].Finished?))
            && (Do(t, a).holder == Some(x) <==> a == Acquire(x) || (t.holder == Some(x) && !unlocks))
  {
  }

  /** A thread has finished exactly when its work ended, and holds the lock exactly from taking it until it gives it
      up. */
  lemma {:induction false} ThreadFollows(s: State, run: seq<Action>, n: nat, t: State, x: Thread)
    requires Initial(s) && At(s, run, n, t)
    ensures x in t.threads && t.threads[x].Finished? <==> !NoneFrom(Ends(run, x), 0, n)
    ensures t.holder == Some(x) <==> Standing(Locks(run, x), Unlocks(run, x), n)
    decreases n
  {
    if n > 0 {
      var before := LastStep(s, run, n, t);
      ThreadFollows(s, run, n - 1, before, x);
      assert run[..n-1] == run[..n][..n-1];
      RunKeepsInv(s, run[..n-1], before);
      StandingOn(Locks(run, x), Unlocks(run, x), n - 1);
      NoneFromOn(Ends(run, x), 0, n - 1);
      JobFollows(s, run, n - 1, before, x);
      StepThread(before, run[n-1], x);
    }
  }

  ghost predicate CameToInsertUpdating(run: seq<Action>, n: nat, x: Thread) {
    exists b :: Came(run, n, x, InsertUpdating(b))
  }

  ghost predicate CameToInsertOnly(run: seq<Action>, n: nat, x: Thread) {
    exists b :: Came(run, n, x, InsertOnly(b))
  }

  /** Which actions bring thread `x` to the test of the flag: a build takes it whenever it gets the lock, a
      virtual-updating insert only the first time. */
  ghost function BeginsTest(run: seq<Action>, x: Thread): nat -> bool {
    (i: nat) => i < |run| && run[i] == Acquire(x) &&
                (Came(run, i, x, Build) || (CameToInsertUpdating(run, i, x) && NoneFrom(Locks(run, x), 0, i)))
  }

  ghost function EndsTest(run: seq<Action>, x: Thread): nat -> bool {
    (i: nat) => i < |run| && run[i] == Test(x)
  }

  /** Which bring it to resolving a chunk: the test finds virtual not updated, or it has the lock again, or came to
      resolve. */
  ghost function BeginsChunk(run: seq<Action>, x: Thread): nat -> bool {
    (i: nat) => i < |run| &&
                ((run[i] == Test(x) && !Standing(SaysUpdated(run), SaysNotUpdated(run), i)) ||
                 (run[i] == Acquire(x) &&
                  (Came(run, i, x, ResolveAll) ||
                   (CameToInsertUpdating(run, i, x) && !NoneFrom(Locks(run, x), 0, i)))))
  }

  ghost function EndsChunk(run: seq<Action>, x: Thread): nat -> bool {
    (i: nat) => i < |run| && run[i].Chunk? && run[i].t == x
  }

  /** Which bring it to what it came for. */
  ghost function BeginsWork(run: seq<Action>, x: Thread): nat -> bool {
    (i: nat) => i < |run| &&
                ((run[i] == Test(x) && Standing(SaysUpdated(run), SaysNotUpdated(run), i)) ||
                 (run[i] == Acquire(x) && CameToInsertOnly(run, i, x)) ||
                 (run[i].Chunk? && run[i].t == x && run[i].outcome.Resolves? && run[i].outcome.complete &&
                  !Came(run, i, x, ResolveAll)))
  }

  ghost function EndsWork(run: seq<Action>, x: Thread): nat -> bool {
    (i: nat) => i < |run| && run[i].Run? && run[i].t == x
  }

  /** Where the thread stands; one that has not come counts as finished. */
  function PcOf(s: State, x: Thread): Pc {
    if x in s.threads then s.threads[x] else Finished
  }

  lemma StepPc(t: State, a: Action, x: Thread)
    requires Inv(t) && Enabled(t, a)
    ensures var pc, next := PcOf(t, x), PcOf(Do(t, a), x);
            && (next.Waiting? <==> (a.Arrive? && a.t == x) || (pc.Waiting? && a != Acquire(x)))
            && (next.Testing? <==>
                || (a == Acquire(x) && (pc.job.Build? || (pc.job.InsertUpdating? && pc.Waiting?)))
                || (pc.Testing? && a != Test(x)))
            && (next.Draining? <==>
                || (a == Test(x) && t.virtualNotUpdated)
                || (a == Acquire(x) && (pc.job.ResolveAll? || (pc.job.InsertUpdating? && !pc.Waiting?)))
                || (pc.Draining? && !(a.Chunk? && a.t == x)))
            && (next.Running? <==>
                || (a == Test(x) && !t.virtualNotUpdated) || (a == Acquire(x) && pc.job.InsertOnly?)
                || (a.Chunk? && a.t == x && a.outcome.Resolves? && a.outcome.complete && !pc.job.ResolveAll?)
                || (pc.Running? && !(a.Run? && a.t == x)))
  {
  }

  lemma {:induction false} WaitingFollows(s: State, run: seq<Action>, n: nat, t: State, x: Thread)
    requires Initial(s) && At(s, run, n, t)
    ensures NoneFrom(Locks(run, x), 0, n) <==> x !in t.threads || PcOf(t, x).Waiting?
    decreases n
  {
    if n > 0 {
      var before := LastStep(s, run, n, t);
      WaitingFollows(s, run, n - 1, before, x);
      NoneFromOn(Locks(run, x), 0, n - 1);
      RunKeepsInv(s, run[..n-1], before);
      StepPc(before, run[n-1], x);
      StepKeepsJob(before, run[n-1], x);
    }
  }

  /** A thread is at the test of the flag exactly when the run brought it there. */
  lemma {:induction false} TestFollows(s: State, run: seq<Action>, n: nat, t: State, x: Thread)
    requires Initial(s) && At(s, run, n, t)
    ensures PcOf(t, x).Testing? <==> Standing(BeginsTest(run, x), EndsTest(run, x), n)
    decreases n
  {
    if n > 0 {
      var before := LastStep(s, run, n, t);
      TestFollows(s, run, n - 1, before, x);
      WaitingFollows(s, run, n - 1, before, x);
      FlagFollows(s, run, n - 1, before);
      JobFollows(s, run, n - 1, before, x);
      StandingOn(BeginsTest(run, x), EndsTest(run, x), n - 1);
      RunKeepsInv(s, run[..n-1], before);
      StepPc(before, run[n-1], x);
    }
  }

  /** The same for resolving a chunk. */
  lemma {:induction false} ChunkFollows(s: State, run: seq<Action>, n: nat, t: State, x: Thread)
    requires Initial(s) && At(s, run, n, t)
    ensures PcOf(t, x).Draining? <==> Standing(BeginsChunk(run, x), EndsChunk(run, x), n)
    decreases n
  {
    if n > 0 {
      var before := LastStep(s, run, n, t);
      ChunkFollows(s, run, n - 1, before, x);
      WaitingFollows(s, run, n - 1, before, x);
      FlagFollows(s, run, n - 1, before);
      JobFollows(s, run, n - 1, before, x);
      StandingOn(BeginsChunk(run, x), EndsChunk(run, x), n - 1);
      RunKeepsInv(s, run[..n-1], before);
      StepPc(before, run[n-1], x);
    }
  }

  /** And for what it came for. */
  lemma {:induction false} WorkFollows(s: State, run: seq<Action>, n: nat, t: State, x: Thread)
    requires Initial(s) && At(s, run, n, t)
    ensures PcOf(t, x).Running? <==> Standing(BeginsWork(run, x), EndsWork(run, x), n)
    decreases n
  {
    if n > 0 {
      var before := LastStep(s, run, n, t);
      WorkFollows(s, run, n - 1, before, x);
      WaitingFollows(s, run, n - 1, before, x);
      FlagFollows(s, run, n - 1, before);
      JobFollows(s, run, n - 1, before, x);
      StandingOn(BeginsWork(run, x), EndsWork(run, x), n - 1);
      RunKeepsInv(s, run[..n-1], before);
      StepPc(before, run[n-1], x);
    }
  }

  /** In every interleaving, when a thread is about to insert with a virtual update or to build a block it alone
      holds the lock and virtual was last said to be updated; and a block that was stored and not resolved since is
      one whose insert failed between storing the block and raising the flag. So virtual covers every inserted
      block if and only if there is none of those. */
  lemma RunsOnlyOnResolvedVirtual(s: State, run: seq<Action>, t: State, x: Thread)
    requires Initial(s) && Reaches(s, run, t)
    requires x in t.threads && t.threads[x].Running?
    requires t.threads[x].job.InsertUpdating? || t.threads[x].job.Build?
    ensures !t.virtualNotUpdated && Standing(SaysUpdated(run), SaysNotUpdated(run), |run|)
    ensures t.pending == t.slipped
    ensures forall b :: Uncovered(s.pending, run, |run|, b) <==>
                        Standing(FailsAfterStoring(run, b), ResolvedBy(run, b), |run|)
    ensures forall y :: y in t.threads && y != x ==> !Holds(t.threads[y])
  {
    assert run[..|run|] == run;
    RunKeepsInv(s, run, t);
    FlagFollows(s, run, |run|, t);
    forall b
      ensures Uncovered(s.pending, run, |run|, b) <==> Standing(FailsAfterStoring(run, b), ResolvedBy(run, b), |run|)
    {
      PendingFollows(s, run, |run|, t, b);
    }
  }

  /** The exception is real: an insert that fails after storing its block leaves a later build to run over a
      virtual that does not cover that block. */
  lemma FailedInsertSlipsThrough(b: Block)
    ensures exists s, run, t, x :: Initial(s) && s.pending == {} && Reaches(s, run, t) &&
              x in t.threads && t.threads[x] == Running(Build) && b in t.pending
  {
    var s := State(None, true, map[], {}, {});
    var r1, t1 := Extend(s, [], s, Arrive(0, ResolveAll));
    var r2, t2 := Extend(s, r1, t1, Acquire(0));
    var r3, t3 := Extend(s, r2, t2, Chunk(0, Resolves(true, {})));
    assert t3 == State(None, false, map[0 := Finished], {}, {});
    var r6, t6 := Slip(s, r3, t3, b);
    var r7, t7 := Extend(s, r6, t6, Arrive(2, Build));
    var r8, t8 := Extend(s, r7, t7, Acquire(2));
    var r9, t9 := Extend(s, r8, t8, Test(2));
    assert t9.threads[2] == Running(Build) && b in t9.pending;
  }

  lemma Slip(s: State, run: seq<Action>, t: State, b: Block) returns (run': seq<Action>, u: State)
    requires Reaches(s, run, t) && t == State(None, false, map[0 := Finished], {}, {})
    ensures Reaches(s, run', u) && u == State(None, false, map[0 := Finished, 1 := Finished], {b}, {b})
  {
    var r4, t4 := Extend(s, run, t, Arrive(1, InsertOnly(b)));
    var r5, t5 := Extend(s, r4, t4, Acquire(1));
    run', u := Extend(s, r5, t5, Run(1, StoredThenFails));
  }

  lemma {:induction false} Extend(s: State, run: seq<Action>, t: State, a: Action)
    returns (longer: seq<Action>, u: State)
    requires Reaches(s, run, t) && Enabled(t, a)
    ensures longer == run + [a] && u == Do(t, a) && Reaches(s, longer, u)
    decreases |run|
  {
    longer, u := run + [a], Do(t, a);
    if run == [] {
      assert longer[1..] == [];
      assert Reaches(u, [], u);
    } else {
      assert longer[1..] == run[1..] + [a];
      var _, _ := Extend(Do(s, run[0]), run[1..], t, a);
    }
  }

  /** Whatever a step can come to, it can come to: a chunk may fail at either point, resolve any part of what is
      pending or all of it, and an insert may end in each of its ways. */
  lemma AnyOutcome(s: State, x: Thread, part: set<Block>, complete: bool, insert: InsertOutcome)
    requires x in s.threads
    ensures s.threads[x].Draining? ==> Enabled(s, Chunk(x, ResolveFails))
    ensures s.threads[x].Draining? && part <= s.pending && (complete ==> part == s.pending) ==>
              Enabled(s, Chunk(x, LaterFails(complete, part))) && Enabled(s, Chunk(x, Resolves(complete, part)))
    ensures s.threads[x].Running? ==> Enabled(s, Run(x, insert))
  {
  }

  // ----- Everyone can finish

  ghost function Unfinished(s: State): set<Thread> {
    set t | t in s.threads && !s.threads[t].Finished?
  }

  /** How many steps the thread that holds the lock is from finishing. */
  function StepsLeft(s: State): nat {
    if s.holder.Some? && s.holder.value in s.threads then
      match s.threads[s.holder.value]
      case Testing(_) => 3
      case Draining(_) => 2
      case Running(_) => 1
      case _ => 0
    else 4
  }

  /** A step with no new thread and nothing failing, after which a thread is finished or the one that holds the lock is
      nearer to that. */
  ghost predicate Nearer(s: State, a: Action) {
    && Enabled(s, a) && !a.Arrive? && (a.Chunk? ==> a.outcome.Resolves? && a.outcome.complete)
    && Unfinished(Do(s, a)) <= Unfinished(s)
    && (Unfinished(Do(s, a)) < Unfinished(s) || StepsLeft(Do(s, a)) < StepsLeft(s))
  }

  lemma FinishingStep(s: State) returns (a: Action)
    requires Inv(s) && Unfinished(s) != {}
    ensures Nearer(s, a)
  {
    if s.holder.None? {
      var t :| t in Unfinished(s);
      a := Acquire(t);
    } else {
      var h := s.holder.value;
      a := match s.threads[h]
           case Testing(_) => Test(h)
           case Draining(_) => Chunk(h, Resolves(true, s.pending))
           case Running(_) => Run(h, Rejected);
      assert h in Unfinished(s);
      assert Do(s, a).threads[h].Finished? ==> h !in Unfinished(Do(s, a));
    }
  }

  /** Nothing deadlocks and no drain loop keeps another thread out for good: from every reachable state there is a run,
      with no new thread and nothing failing, that finishes every thread. */
  lemma EveryoneCanFinish(s: State, run: seq<Action>, t: State) returns (rest: seq<Action>, u: State)
    requires Initial(s) && Reaches(s, run, t)
    ensures Reaches(t, rest, u) && Unfinished(u) == {} && u.threads.Keys == t.threads.Keys
    ensures forall a :: a in rest ==> !a.Arrive? && (a.Chunk? ==> a.outcome.Resolves? && a.outcome.complete)
  {
    RunKeepsInv(s, run, t);
    rest, u := FinishingRun(t);
  }

  lemma {:induction false} FinishingRun(t: State) returns (rest: seq<Action>, u: State)
    requires Inv(t)
    ensures Reaches(t, rest, u) && Unfinished(u) == {} && u.threads.Keys == t.threads.Keys
    ensures forall a :: a in rest ==> !a.Arrive? && (a.Chunk? ==> a.outcome.Resolves? && a.outcome.complete)
    decreases Unfinished(t), StepsLeft(t)
  {
    if Unfinished(t) == {} {
      rest, u := [], t;
    } else {
      var a := FinishingStep(t);
      ActionKeepsInv(t, a);
      var more;
      more, u := FinishingRun(Do(t, a));
      rest := [a] + more;
      assert rest[1..] == more;
    }
  }
}
