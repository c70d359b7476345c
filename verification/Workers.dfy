/** The consensus background workers: the pruning point UTXO set scanner and the history deletion owner. Each
    takes requests from a one-slot channel, so that requests made during a run coalesce into one more. */
module Workers {
  import opened Arithmetic
  import opened Trace

  type Request = nat

  const RETRY_MIN: nat := 60   // seconds
  const RETRY_MAX: nat := 600

  /** A worker goroutine: waiting in its select, inside one run, or gone. */
  datatype Loop = Selecting | Running | Exited

  /** `unserved` are the requests no run started after. */
  datatype Worker = Worker(token: bool, cancelled: bool, loop: Loop, unserved: set<Request>)

  /** The owner's timer: whether it is armed, the delay it was last armed with, and the delay of the next
      failure; `failures` counts the failed runs since the last run that did not fail. */
  datatype Retry = Retry(armed: bool, armedWith: nat, next: nat, failures: nat)

  datatype ClosePc = NotClosing | AwaitingScanner | AwaitingOwner | Closed

  datatype State = State(scanner: Worker, mismatch: bool, owner: Worker, retry: Retry, close: ClosePc)

  datatype ScanResult = Checked | Failed | Mismatched

  datatype Action =
    | RequestScan(id: Request)
    | ScannerTakes
    | ScannerHandsJob(id: Request)        // a finished pruning point update records a deletion job
    | ScannerEnds(result: ScanResult)
    | ScannerSeesDone
    | RequestDeletion(id: Request)
    | OwnerTakes
    | OwnerTimerFires
    | OwnerEnds(failed: bool)
    | OwnerSeesDone
    | BeginClose
    | CloseStep

  ghost predicate Enabled(s: State, a: Action) {
    match a
    case RequestScan(_) => true
    case ScannerTakes => s.scanner.loop.Selecting? && s.scanner.token
    case ScannerHandsJob(_) => s.scanner.loop.Running?
    case ScannerEnds(_) => s.scanner.loop.Running?
    case ScannerSeesDone => s.scanner.loop.Selecting? && s.scanner.cancelled
    case RequestDeletion(_) => true
    case OwnerTakes => s.owner.loop.Selecting? && s.owner.token
    case OwnerTimerFires => s.owner.loop.Selecting? && s.retry.armed
    case OwnerEnds(_) => s.owner.loop.Running?
    case OwnerSeesDone => s.owner.loop.Selecting? && s.owner.cancelled
    case BeginClose => s.close.NotClosing?
    case CloseStep =>
      (s.close.AwaitingScanner? && s.scanner.loop.Exited?) || (s.close.AwaitingOwner? && s.owner.loop.Exited?)
  }

  /** A non-blocking send: with the slot taken the request rides on the token already there. */
  function Ask(w: Worker, id: Request): Worker {
    w.(token := true, unserved := w.unserved + {id})
  }

  function StartRun(w: Worker): Worker {
    w.(loop := Running, unserved := {})
  }

  function Min(a: nat, b: nat): nat {
    if a < b then a else b
  }

  ghost function Do(s: State, a: Action): State
    requires Enabled(s, a)
  {
    match a
    case RequestScan(id) => s.(scanner := Ask(s.scanner, id))
    case ScannerTakes => s.(scanner := StartRun(s.scanner.(token := false)))
    case ScannerHandsJob(id) => s.(owner := Ask(s.owner, id))
    case ScannerEnds(result) =>
      if result.Mismatched? then s.(scanner := s.scanner.(loop := Exited), mismatch := true)
      else s.(scanner := s.scanner.(loop := Selecting))
    case ScannerSeesDone => s.(scanner := s.scanner.(loop := Exited))
    case RequestDeletion(id) => s.(owner := Ask(s.owner, id))
    case OwnerTakes => s.(owner := StartRun(s.owner.(token := false)))
    case OwnerTimerFires => s.(owner := StartRun(s.owner), retry := s.retry.(armed := false))
    case OwnerEnds(failed) =>
      var back := s.owner.(loop := Selecting);
      if !failed || s.owner.cancelled then s.(owner := back, retry := Retry(false, s.retry.armedWith, RETRY_MIN, 0))
      else s.(owner := back,
              retry := Retry(true, s.retry.next, Min(2 * s.retry.next, RETRY_MAX), s.retry.failures + 1))
    case OwnerSeesDone => s.(owner := s.owner.(loop := Exited))
    case BeginClose => s.(scanner := s.scanner.(cancelled := true), close := AwaitingScanner)
    case CloseStep =>
      if s.close.AwaitingScanner? then s.(owner := s.owner.(cancelled := true), close := AwaitingOwner)
      else s.(close := Closed)
  }

  const STARTED: Worker := Worker(false, false, Selecting, {})

  ghost predicate Initial(s: State) {
    s == State(STARTED, false, STARTED, Retry(false, RETRY_MIN, RETRY_MIN, 0), NotClosing)
  }

  ghost predicate Reaches(s: State, run: seq<Action>, t: State)
    decreases |run|
  {
    if run == [] then s == t else Enabled(s, run[0]) && Reaches(Do(s, run[0]), run[1..], t)
  }

  // ----- The backoff

  /** The delay after the `failures + 1`-th failed run in a row. */
  function Backoff(failures: nat): nat {
    Min(RETRY_MIN * Pow2(failures), RETRY_MAX)
  }

  // ----- The invariant

  ghost predicate Inv(s: State) {
    && (s.scanner.unserved != {} ==> s.scanner.token || s.scanner.loop.Exited?)
    && (s.owner.unserved != {} ==> s.owner.token || s.owner.loop.Exited?)
    && (s.scanner.loop.Exited? ==> s.scanner.cancelled || s.mismatch)
    && (s.owner.loop.Exited? ==> s.owner.cancelled)
    && s.retry.next == Backoff(s.retry.failures)
    && (s.retry.armed ==> s.retry.failures > 0 && s.retry.armedWith == Backoff(s.retry.failures - 1))
    && (s.owner.loop.Selecting? && s.retry.failures > 0 ==> s.retry.armed)
    && (s.scanner.cancelled <==> !s.close.NotClosing?)
    && (s.owner.cancelled <==> s.close.AwaitingOwner? || s.close.Closed?)
    && (s.owner.cancelled ==> s.scanner.loop.Exited?)
    && (s.close.Closed? ==> s.owner.loop.Exited?)
  }

  lemma ActionKeepsInv(s: State, a: Action)
    requires Inv(s) && Enabled(s, a)
    ensures Inv(Do(s, a))
  {
  }

  lemma {:induction false} RunKeepsInv(s: State, run: seq<Action>, t: State)
    requires Inv(s) && Reaches(s, run, t)
    ensures Inv(t)
    decreases |run|
  {
    if run != [] {
      ActionKeepsInv(s, run[0]);
      RunKeepsInv(Do(s, run[0]), run[1..], t);
    }
  }

  lemma InitialInv(s: State)
    requires Initial(s)
    ensures Inv(s)
  {
    assert Pow2(0) == 1;
  }

  lemma ReachableInv(s: State, run: seq<Action>, t: State)
    requires Initial(s) && Reaches(s, run, t)
    ensures Inv(t)
  {
    InitialInv(s);
    RunKeepsInv(s, run, t);
  }

  // ----- What the actions of a run say about the workers

  /** The state a run is in after its first `n` actions. */
  ghost predicate At(s: State, run: seq<Action>, n: nat, t: State) {
    n <= |run| && Reaches(s, run[..n], t)
  }

  lemma {:induction false} Unsnoc(s: State, run: seq<Action>, u: State) returns (t: State)
    requires run != [] && Reaches(s, run, u)
    ensures Reaches(s, run[..|run|-1], t) && Enabled(t, run[|run|-1]) && u == Do(t, run[|run|-1])
    decreases |run|
  {
    if |run| == 1 {
      t := s;
      assert run[1..] == [];
    } else {
      assert run[1..][..|run|-2] == run[..|run|-1][1..];
      t := Unsnoc(Do(s, run[0]), run[1..], u);
    }
  }

  lemma LastStep(s: State, run: seq<Action>, n: nat, u: State) returns (t: State)
    requires 0 < n && At(s, run, n, u)
    ensures At(s, run, n - 1, t) && Enabled(t, run[n-1]) && u == Do(t, run[n-1])
  {
    assert run[..n][..n-1] == run[..n-1];
    t := Unsnoc(s, run[..n], u);
  }

  ghost function AsksScanner(run: seq<Action>): nat -> bool {
    (i: nat) => i < |run| && run[i].RequestScan?
  }

  ghost function StartsScan(run: seq<Action>): nat -> bool {
    (i: nat) => i < |run| && run[i].ScannerTakes?
  }

  ghost function EndsScan(run: seq<Action>): nat -> bool {
    (i: nat) => i < |run| && run[i].ScannerEnds?
  }

  ghost function StopsScanner(run: seq<Action>): nat -> bool {
    (i: nat) => i < |run| && (run[i].ScannerSeesDone? || run[i] == ScannerEnds(Mismatched))
  }

  ghost function AsksOwner(run: seq<Action>): nat -> bool {
    (i: nat) => i < |run| && (run[i].RequestDeletion? || run[i].ScannerHandsJob?)
  }

  ghost function TakesJob(run: seq<Action>): nat -> bool {
    (i: nat) => i < |run| && run[i].OwnerTakes?
  }

  ghost function StartsDeletion(run: seq<Action>): nat -> bool {
    (i: nat) => i < |run| && (run[i].OwnerTakes? || run[i].OwnerTimerFires?)
  }

  ghost function EndsDeletion(run: seq<Action>): nat -> bool {
    (i: nat) => i < |run| && run[i].OwnerEnds?
  }

  ghost function StopsOwner(run: seq<Action>): nat -> bool {
    (i: nat) => i < |run| && run[i].OwnerSeesDone?
  }

  ghost function BeginsClose(run: seq<Action>): nat -> bool {
    (i: nat) => i < |run| && run[i].BeginClose?
  }

  ghost function GoesOnClosing(run: seq<Action>): nat -> bool {
    (i: nat) => i < |run| && run[i].CloseStep?
  }

  /** The scanner's token is there exactly from a request until the scanner takes it; it scans from then until the scan
      ends; and it is gone exactly when it saw that it is told to stop or a scan found a mismatch. */
  lemma {:induction false} ScannerFollows(s: State, run: seq<Action>, n: nat, t: State)
    requires Initial(s) && At(s, run, n, t)
    ensures t.scanner.token <==> Standing(AsksScanner(run), StartsScan(run), n)
    ensures t.scanner.loop.Running? <==> Standing(StartsScan(run), EndsScan(run), n)
    ensures t.scanner.loop.Exited? <==> !NoneFrom(StopsScanner(run), 0, n)
    ensures t.scanner.cancelled <==> !NoneFrom(BeginsClose(run), 0, n)
    decreases n
  {
    if n > 0 {
      var before := LastStep(s, run, n, t);
      ScannerFollows(s, run, n - 1, before);
      StandingOn(AsksScanner(run), StartsScan(run), n - 1);
      StandingOn(StartsScan(run), EndsScan(run), n - 1);
      NoneFromOn(StopsScanner(run), 0, n - 1);
      NoneFromOn(BeginsClose(run), 0, n - 1);
    }
  }

  /** The same for the owner, which also starts when its timer fires. */
  lemma {:induction false} OwnerFollows(s: State, run: seq<Action>, n: nat, t: State)
    requires Initial(s) && At(s, run, n, t)
    ensures t.owner.token <==> Standing(AsksOwner(run), TakesJob(run), n)
    ensures t.owner.loop.Running? <==> Standing(StartsDeletion(run), EndsDeletion(run), n)
    ensures t.owner.loop.Exited? <==> !NoneFrom(StopsOwner(run), 0, n)
    ensures t.owner.cancelled <==> !NoneFrom(GoesOnClosing(run), 0, n)
    decreases n
  {
    if n > 0 {
      var before := LastStep(s, run, n, t);
      OwnerFollows(s, run, n - 1, before);
      StandingOn(AsksOwner(run), TakesJob(run), n - 1);
      StandingOn(StartsDeletion(run), EndsDeletion(run), n - 1);
      NoneFromOn(StopsOwner(run), 0, n - 1);
      NoneFromOn(GoesOnClosing(run), 0, n - 1);
      assert run[..n-1] == run[..n][..n-1];
      ReachableInv(s, run[..n-1], before);
    }
  }

  /** Requests by their number: one is unserved exactly until the next run starts. */
  ghost function ScanAsked(run: seq<Action>, id: Request): nat -> bool {
    (i: nat) => i < |run| && run[i] == RequestScan(id)
  }

  ghost function DeletionAsked(run: seq<Action>, id: Request): nat -> bool {
    (i: nat) => i < |run| && (run[i] == RequestDeletion(id) || run[i] == ScannerHandsJob(id))
  }

  lemma {:induction false} UnservedFollow(s: State, run: seq<Action>, n: nat, t: State, id: Request)
    requires Initial(s) && At(s, run, n, t)
    ensures id in t.scanner.unserved <==> Standing(ScanAsked(run, id), StartsScan(run), n)
    ensures id in t.owner.unserved <==> Standing(DeletionAsked(run, id), StartsDeletion(run), n)
    decreases n
  {
    if n > 0 {
      var before := LastStep(s, run, n, t);
      UnservedFollow(s, run, n - 1, before, id);
      StandingOn(ScanAsked(run, id), StartsScan(run), n - 1);
      StandingOn(DeletionAsked(run, id), StartsDeletion(run), n - 1);
    }
  }

  /** Which actions end a deletion in a failure that is retried: the owner has not been told to stop. */
  ghost function FailsDeletion(run: seq<Action>): nat -> bool {
    (i: nat) => i < |run| && run[i] == OwnerEnds(true) && NoneFrom(GoesOnClosing(run), 0, i)
  }

  /** Which end a wait for the timer. */
  ghost function EndsWait(run: seq<Action>): nat -> bool {
    (i: nat) => i < |run| && (run[i].OwnerTimerFires? || run[i].OwnerEnds?)
  }

  /** How many deletions failed since one did not. */
  ghost function FailedInARow(run: seq<Action>, n: nat): nat
    requires n <= |run|
  {
    if n == 0 then 0
    else if FailsDeletion(run)(n - 1) then FailedInARow(run, n - 1) + 1
    else if run[n-1].OwnerEnds? then 0
    else FailedInARow(run, n - 1)
  }

  lemma {:induction false} RetryFollows(s: State, run: seq<Action>, n: nat, t: State)
    requires Initial(s) && At(s, run, n, t)
    ensures t.retry.failures == FailedInARow(run, n)
    ensures t.retry.armed <==> Standing(FailsDeletion(run), EndsWait(run), n)
    decreases n
  {
    if n > 0 {
      var before := LastStep(s, run, n, t);
      RetryFollows(s, run, n - 1, before);
      OwnerFollows(s, run, n - 1, before);
      StandingOn(FailsDeletion(run), EndsWait(run), n - 1);
    }
  }

  /** How far Close got. */
  ghost function CloseSteps(run: seq<Action>, n: nat): nat
    requires n <= |run|
  {
    if n == 0 then 0 else CloseSteps(run, n - 1) + if run[n-1].BeginClose? || run[n-1].CloseStep? then 1 else 0
  }

  lemma {:induction false} CloseFollows(s: State, run: seq<Action>, n: nat, t: State)
    requires Initial(s) && At(s, run, n, t)
    ensures CloseSteps(run, n) == match t.close
                                  case NotClosing => 0
                                  case AwaitingScanner => 1
                                  case AwaitingOwner => 2
                                  case Closed => 3
    decreases n
  {
    if n > 0 {
      var before := LastStep(s, run, n, t);
      CloseFollows(s, run, n - 1, before);
    }
  }

  // ----- The promises, over every run

  /** No request is lost: in every run a request after which no run has started yet still has its token in the channel,
      unless the worker was told to stop or stopped on a mismatch; and while it goes on, taking the token, or
      ending the run before that, is what it can do. */
  lemma NoRequestLost(s: State, run: seq<Action>, t: State, id: Request)
    requires Initial(s) && Reaches(s, run, t)
    ensures Standing(ScanAsked(run, id), StartsScan(run), |run|) && !t.scanner.loop.Exited? ==>
              t.scanner.token && (Enabled(t, ScannerTakes) || t.scanner.loop.Running?)
    ensures Standing(DeletionAsked(run, id), StartsDeletion(run), |run|) && !t.owner.loop.Exited? ==>
              t.owner.token && (Enabled(t, OwnerTakes) || t.owner.loop.Running?)
    ensures t.scanner.unserved != {} ==> t.scanner.token || t.scanner.cancelled || t.mismatch
    ensures t.owner.unserved != {} ==> t.owner.token || t.owner.cancelled
  {
    assert run[..|run|] == run;
    ReachableInv(s, run, t);
    UnservedFollow(s, run, |run|, t, id);
  }

  /** After a deletion that failed a retry is armed until the timer fires or the next one ends, with the delay doubling
      from a minute to ten with every failure in a row. */
  lemma FailureArmsRetry(s: State, run: seq<Action>, t: State)
    requires Initial(s) && Reaches(s, run, t) && t.owner.loop.Selecting? && FailedInARow(run, |run|) > 0
    ensures t.retry.armed && Enabled(t, OwnerTimerFires)
    ensures t.retry.armedWith == Min(60 * Pow2(FailedInARow(run, |run|) - 1), 600)
    ensures 60 <= t.retry.armedWith <= 600
  {
    assert run[..|run|] == run;
    RetryFollows(s, run, |run|, t);
    ReachableInv(s, run, t);
  }

  /** Close returns only when both workers are gone, and stays so; and it stops the owner only after the scanner,
      so a job the scanner hands over always reaches an owner that has not been told to stop. */
  lemma CloseWaitsForBoth(s: State, run: seq<Action>, t: State)
    requires Initial(s) && Reaches(s, run, t)
    ensures t.close.Closed? ==> t.scanner.loop.Exited? && t.owner.loop.Exited?
    ensures CloseSteps(run, |run|) == 3 ==>
              !NoneFrom(StopsScanner(run), 0, |run|) && !NoneFrom(StopsOwner(run), 0, |run|)
    ensures forall id :: Enabled(t, ScannerHandsJob(id)) ==> !t.owner.cancelled && !t.owner.loop.Exited?
  {
    assert run[..|run|] == run;
    ReachableInv(s, run, t);
    CloseFollows(s, run, |run|, t);
    ScannerFollows(s, run, |run|, t);
    OwnerFollows(s, run, |run|, t);
  }

  /** Requests come at any time, a job is handed over at any time of a scan, and a run can end in each of its ways. */
  lemma AnyOutcome(s: State, id: Request, result: ScanResult, failed: bool)
    ensures Enabled(s, RequestScan(id)) && Enabled(s, RequestDeletion(id))
    ensures s.scanner.loop.Running? ==> Enabled(s, ScannerHandsJob(id)) && Enabled(s, ScannerEnds(result))
    ensures s.owner.loop.Running? ==> Enabled(s, OwnerEnds(failed))
    ensures s.close.NotClosing? ==> Enabled(s, BeginClose)
  {
  }

  /** Nor does a close hang: while it waits, the worker it waits for can take a step towards its exit. */
  lemma CloseCanProgress(s: State, run: seq<Action>, t: State)
    requires Initial(s) && Reaches(s, run, t) && (t.close.AwaitingScanner? || t.close.AwaitingOwner?)
    ensures exists a :: Enabled(t, a) &&
              (a.CloseStep? || a.ScannerSeesDone? || a.OwnerSeesDone? || a.ScannerEnds? || a.OwnerEnds?)
  {
    ReachableInv(s, run, t);
    var w := if t.close.AwaitingScanner? then t.scanner else t.owner;
    match w.loop {
      case Exited => assert Enabled(t, CloseStep);
      case Selecting => assert Enabled(t, if t.close.AwaitingScanner? then ScannerSeesDone else OwnerSeesDone);
      case Running => assert Enabled(t, if t.close.AwaitingScanner? then ScannerEnds(Checked) else OwnerEnds(false));
    }
  }
}
