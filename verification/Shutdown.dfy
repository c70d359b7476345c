/** Shutting the node down: request handlers, p2p routers, the consensus events channel and its handler, the
    consensus background workers and the database, with every step of each interleaved. */
module Shutdown {
  import Workers
  import opened Trace

  type Id = nat

  /** Where ComponentManager.Stop stands. */
  datatype StopPc =
    | NotStopping
    | WaitingForHandlers     // StopRequestHandlers set handlersStopped and waits
    | ClosingProtocol
    | WaitingForRouters      // Close set isClosed and waits
    | ClosingChannel
    | WaitingForEvents       // the events channel is closed
    | ClosingConsensus
    | WaitingForWorkers      // the consensus is closing its background workers
    | ReturnedTrue
    | ReturnedFalse

  /** Where the process stands: stopComponents either closes the database or exits without closing it. */
  datatype Process = Serving | StoppingComponents | DatabaseClosed | Exited

  /** Who uses the consensus from outside. */
  datatype Sessions = Sessions(
    handlers: set<Id>,          // handlersRunning
    handlersStopped: bool,
    routers: set<Id>,           // routersWaitGroup
    protocolClosed: bool)

  /** The consensus events channel and its handler. */
  datatype Channel = Channel(
    queued: nat,                // events in the channel
    closed: bool,
    handling: bool,             // the events handler is inside one event
    over: bool,                 // the events handler has returned
    sentOnClosed: bool)         // a send on the closed channel, which panics

  /** `workers` are the scanner and the history deletion owner. */
  datatype State = State(
    sessions: Sessions,
    channel: Channel,
    workers: Workers.State,
    stop: StopPc,
    process: Process)

  datatype Action =
    | StartHandler(id: Id)
    | HandlerSends(id: Id)
    | HandlerDone(id: Id)
    | AddRouter(id: Id)
    | RouterSends(id: Id)
    | RouterDone(id: Id)
    | TakeEvent
    | FinishEvent
    | EventsHandlerExits
    | WorkerSteps(action: Workers.Action)
    | BeginStop              // the shutdown counter lets one caller through
    | StopAgain              // another caller of Stop is refused, and exits the process
    | StopStep               // Stop's next step, once what it waits for happened
    | StopTimesOut           // a bounded wait of Stop expires
    | StopReturns            // stopComponents sees Stop's result
    | GracePeriodEnds        // stopComponents gives up waiting

  ghost predicate Enabled(s: State, a: Action) {
    !s.process.Exited? &&
    match a
    case StartHandler(id) => id !in s.sessions.handlers
    case HandlerSends(id) => id in s.sessions.handlers
    case HandlerDone(id) => id in s.sessions.handlers
    case AddRouter(id) => id !in s.sessions.routers
    case RouterSends(id) => id in s.sessions.routers
    case RouterDone(id) => id in s.sessions.routers
    case TakeEvent => s.channel.queued > 0 && !s.channel.handling && !s.channel.over
    case FinishEvent => s.channel.handling
    case EventsHandlerExits =>
      s.channel.closed && s.channel.queued == 0 && !s.channel.handling && !s.channel.over
    case WorkerSteps(action) => !action.BeginClose? && Workers.Enabled(s.workers, action)
    case BeginStop => s.process.Serving?
    case StopAgain => s.process.StoppingComponents?
    case StopStep =>
      (match s.stop
       case WaitingForHandlers => s.sessions.handlers == {}
       case WaitingForRouters => s.sessions.routers == {}
       case WaitingForEvents => s.channel.over
       case WaitingForWorkers => s.workers.close.Closed?
       case ClosingProtocol => true
       case ClosingChannel => true
       case ClosingConsensus => Workers.Enabled(s.workers, Workers.BeginClose)
       case _ => false)
    case StopTimesOut => s.stop.WaitingForHandlers? || s.stop.WaitingForEvents?
    case StopReturns => s.process.StoppingComponents? && (s.stop.ReturnedTrue? || s.stop.ReturnedFalse?)
    case GracePeriodEnds => s.process.StoppingComponents?
  }

  function Send(c: Channel): Channel {
    if c.closed then c.(sentOnClosed := true) else c.(queued := c.queued + 1)
  }

  function Started(s: Sessions, id: Id): Sessions {
    if s.handlersStopped then s else s.(handlers := s.handlers + {id})
  }

  function RouterAdded(s: Sessions, id: Id): Sessions {
    if s.protocolClosed then s else s.(routers := s.routers + {id})
  }

  ghost function Do(s: State, a: Action): State
    requires Enabled(s, a)
  {
    match a
    case StartHandler(id) => s.(sessions := Started(s.sessions, id))
    case HandlerSends(_) => s.(channel := Send(s.channel))
    case HandlerDone(id) => s.(sessions := s.sessions.(handlers := s.sessions.handlers - {id}))
    case AddRouter(id) => s.(sessions := RouterAdded(s.sessions, id))
    case RouterSends(_) => s.(channel := Send(s.channel))
    case RouterDone(id) => s.(sessions := s.sessions.(routers := s.sessions.routers - {id}))
    case TakeEvent => s.(channel := s.channel.(queued := s.channel.queued - 1, handling := true))
    case FinishEvent => s.(channel := s.channel.(handling := false))
    case EventsHandlerExits => s.(channel := s.channel.(over := true))
    case WorkerSteps(action) => s.(workers := Workers.Do(s.workers, action))
    case BeginStop =>
      s.(process := StoppingComponents, sessions := s.sessions.(handlersStopped := true), stop := WaitingForHandlers)
    case StopAgain => s.(process := Exited)
    case StopStep =>
      (match s.stop
       case WaitingForHandlers => s.(stop := ClosingProtocol)
       case ClosingProtocol => s.(sessions := s.sessions.(protocolClosed := true), stop := WaitingForRouters)
       case WaitingForRouters => s.(stop := ClosingChannel)
       case ClosingChannel => s.(channel := s.channel.(closed := true), stop := WaitingForEvents)
       case WaitingForEvents => s.(stop := ClosingConsensus)
       case ClosingConsensus =>
         s.(workers := Workers.Do(s.workers, Workers.BeginClose), stop := WaitingForWorkers)
       case WaitingForWorkers => s.(stop := ReturnedTrue)
       case _ => s)
    case StopTimesOut => s.(stop := ReturnedFalse)
    case StopReturns => s.(process := if s.stop.ReturnedTrue? then DatabaseClosed else Exited)
    case GracePeriodEnds => s.(process := Exited)
  }

  ghost predicate Initial(s: State) {
    && s.sessions == Sessions({}, false, {}, false) && s.channel == Channel(0, false, false, false, false)
    && Workers.Initial(s.workers) && s.stop.NotStopping? && s.process.Serving?
  }

  ghost predicate Reaches(s: State, run: seq<Action>, t: State)
    decreases |run|
  {
    if run == [] then s == t else Enabled(s, run[0]) && Reaches(Do(s, run[0]), run[1..], t)
  }

  /** No handler runs and none can start; likewise for routers. */
  ghost predicate HandlersOver(s: State) { s.sessions.handlersStopped && s.sessions.handlers == {} }
  ghost predicate RoutersOver(s: State) { s.sessions.protocolClosed && s.sessions.routers == {} }

  predicate AfterChannel(stop: StopPc) {
    stop.WaitingForEvents? || stop.ClosingConsensus? || stop.WaitingForWorkers? || stop.ReturnedTrue?
  }

  ghost predicate Inv(s: State) {
    && !s.channel.sentOnClosed
    && (s.stop.NotStopping? <==> s.process.Serving?)
    && (!s.stop.NotStopping? ==> s.sessions.handlersStopped)
    && (s.stop.ClosingProtocol? || s.stop.WaitingForRouters? || s.stop.ClosingChannel? ==> HandlersOver(s))
    && (s.stop.WaitingForRouters? || s.stop.ClosingChannel? ==> s.sessions.protocolClosed)
    && (s.stop.ClosingChannel? ==> RoutersOver(s))
    && (s.channel.closed ==> HandlersOver(s) && RoutersOver(s))
    && (AfterChannel(s.stop) ==> s.channel.closed)
    && (s.channel.over ==> s.channel.closed && s.channel.queued == 0 && !s.channel.handling)
    && (AfterChannel(s.stop) && !s.stop.WaitingForEvents? ==> s.channel.over)
    && Workers.Inv(s.workers)
    && (s.workers.close.NotClosing? <==> !s.stop.WaitingForWorkers? && !s.stop.ReturnedTrue?)
    && (s.stop.ReturnedTrue? ==> s.workers.close.Closed?)
    && (s.process.DatabaseClosed? ==> s.stop.ReturnedTrue?)
  }

  lemma ActionKeepsInv(s: State, a: Action)
    requires Inv(s) && Enabled(s, a)
    ensures Inv(Do(s, a))
  {
    if a.WorkerSteps? {
      Workers.ActionKeepsInv(s.workers, a.action);
    } else if a.StopStep? && s.stop.ClosingConsensus? {
      Workers.ActionKeepsInv(s.workers, Workers.BeginClose);
    }
  }

  lemma {:induction false} RunKeepsInv(s: State, run: seq<Action>, t: State)
    requires Inv(s) && Reaches(s, run, t)
    ensures Inv(t)
    decreases |run|
  {
    if run != [] {
      ActionKeepsInv(s, run[0]);
      RunKeepsInv(Do(s, run[0]), run[1..], t);
    }
  }

  // ----- What the actions of a run say about the state it reaches

  /** The state a run is in after its first `n` actions. */
  ghost predicate At(s: State, run: seq<Action>, n: nat, t: State) {
    n <= |run| && Reaches(s, run[..n], t)
  }

  lemma {:induction false} Unsnoc(s: State, run: seq<Action>, u: State) returns (t: State)
    requires run != [] && Reaches(s, run, u)
    ensures Reaches(s, run[..|run|-1], t) && Enabled(t, run[|run|-1]) && u == Do(t, run[|run|-1])
    decreases |run|
  {
    if |run| == 1 {
      t := s;
      assert run[1..] == [];
    } else {
      assert run[1..][..|run|-2] == run[..|run|-1][1..];
      t := Unsnoc(Do(s, run[0]), run[1..], u);
    }
  }

  lemma LastStep(s: State, run: seq<Action>, n: nat, u: State) returns (t: State)
    requires 0 < n && At(s, run, n, u)
    ensures At(s, run, n - 1, t) && Enabled(t, run[n-1]) && u == Do(t, run[n-1])
  {
    assert run[..n][..n-1] == run[..n-1];
    t := Unsnoc(s, run[..n], u);
  }

  /** How many steps Stop took. */
  function StopSteps(run: seq<Action>, n: nat): nat
    requires n <= |run|
  {
    if n == 0 then 0 else StopSteps(run, n - 1) + if run[n-1].StopStep? then 1 else 0
  }

  ghost function BeginsStop(run: seq<Action>): nat -> bool {
    (i: nat) => i < |run| && run[i].BeginStop?
  }

  ghost function GivesUp(run: seq<Action>): nat -> bool {
    (i: nat) => i < |run| && run[i].StopTimesOut?
  }

  /** How many steps Stop has taken, where it has not given up. */
  function StepsTo(stop: StopPc): nat {
    match stop
    case NotStopping => 0
    case WaitingForHandlers => 0
    case ClosingProtocol => 1
    case WaitingForRouters => 2
    case ClosingChannel => 3
    case WaitingForEvents => 4
    case ClosingConsensus => 5
    case WaitingForWorkers => 6
    case ReturnedTrue => 7
    case ReturnedFalse => 0
  }

  lemma StepStop(t: State, a: Action)
    requires Inv(t) && Enabled(t, a)
    ensures var u := Do(t, a);
            && (u.sessions.handlersStopped <==> t.sessions.handlersStopped || a.BeginStop?)
            && (u.sessions.protocolClosed <==> t.sessions.protocolClosed || (a.StopStep? && StepsTo(t.stop) == 1))
            && (u.channel.closed <==> t.channel.closed || (a.StopStep? && StepsTo(t.stop) == 3))
            && (u.stop.NotStopping? <==> t.stop.NotStopping? && !a.BeginStop?)
            && (u.stop.ReturnedFalse? <==> t.stop.ReturnedFalse? || a.StopTimesOut?)
            && (a.StopStep? ==> !t.stop.ReturnedFalse? && StepsTo(u.stop) == StepsTo(t.stop) + 1)
            && (a.BeginStop? ==> t.stop.NotStopping? && u.stop.WaitingForHandlers?)
            && (a.StopTimesOut? ==> StepsTo(t.stop) == 0 || StepsTo(t.stop) == 4)
            && (!a.StopStep? && !a.BeginStop? && !a.StopTimesOut? ==> u.stop == t.stop)
  {
  }

  /** What Stop did by then: its second step closes the protocol, its fourth the channel, its sixth begins to close the
      workers and its seventh returns. */
  lemma {:induction false} StopFollows(s: State, run: seq<Action>, n: nat, t: State)
    requires Initial(s) && At(s, run, n, t)
    ensures Inv(t)
    ensures t.stop.NotStopping? <==> NoneFrom(BeginsStop(run), 0, n)
    ensures t.stop.ReturnedFalse? <==> !NoneFrom(GivesUp(run), 0, n)
    ensures t.sessions.handlersStopped <==> !NoneFrom(BeginsStop(run), 0, n)
    ensures t.sessions.protocolClosed <==> StopSteps(run, n) >= 2
    ensures t.channel.closed <==> StopSteps(run, n) >= 4
    ensures if t.stop.ReturnedFalse? then StopSteps(run, n) == 0 || StopSteps(run, n) == 4
            else StopSteps(run, n) == StepsTo(t.stop)
    decreases n
  {
    if n > 0 {
      var before := LastStep(s, run, n, t);
      StopFollows(s, run, n - 1, before);
      ActionKeepsInv(before, run[n-1]);
      StepStop(before, run[n-1]);
      NoneFromOn(BeginsStop(run), 0, n - 1);
      NoneFromOn(GivesUp(run), 0, n - 1);
    } else {
      Workers.InitialInv(s.workers);
    }
  }

  /** Which actions start a handler: none after Stop began. */
  ghost function StartsHandler(run: seq<Action>, id: Id): nat -> bool {
    (i: nat) => i < |run| && run[i] == StartHandler(id) && NoneFrom(BeginsStop(run), 0, i)
  }

  ghost function EndsHandler(run: seq<Action>, id: Id): nat -> bool {
    (i: nat) => i < |run| && run[i] == HandlerDone(id)
  }

  /** Which add a router: none after Stop closed the protocol. */
  ghost function StartsRouter(run: seq<Action>, id: Id): nat -> bool {
    (i: nat) => i < |run| && run[i] == AddRouter(id) && StopSteps(run, i) < 2
  }

  ghost function EndsRouter(run: seq<Action>, id: Id): nat -> bool {
    (i: nat) => i < |run| && run[i] == RouterDone(id)
  }

  lemma StepHandlers(t: State, a: Action, id: Id)
    requires Enabled(t, a)
    ensures id in Do(t, a).sessions.handlers <==>
            || (a == StartHandler(id) && !t.sessions.handlersStopped)
            || (id in t.sessions.handlers && a != HandlerDone(id))
  {
  }

  lemma StepRouters(t: State, a: Action, id: Id)
    requires Enabled(t, a)
    ensures id in Do(t, a).sessions.routers <==>
            (a == AddRouter(id) && !t.sessions.protocolClosed) || (id in t.sessions.routers && a != RouterDone(id))
  {
  }

  /** A handler runs exactly from an accepted start until it is done, and so does a router. */
  lemma {:induction false} HandlersFollow(s: State, run: seq<Action>, n: nat, t: State, id: Id)
    requires Initial(s) && At(s, run, n, t)
    ensures id in t.sessions.handlers <==> Standing(StartsHandler(run, id), EndsHandler(run, id), n)
    ensures id in t.sessions.routers <==> Standing(StartsRouter(run, id), EndsRouter(run, id), n)
    decreases n
  {
    if n > 0 {
      var before := LastStep(s, run, n, t);
      HandlersFollow(s, run, n - 1, before, id);
      StopFollows(s, run, n - 1, before);
      StepHandlers(before, run[n-1], id);
      StepRouters(before, run[n-1], id);
      StandingOn(StartsHandler(run, id), EndsHandler(run, id), n - 1);
      StandingOn(StartsRouter(run, id), EndsRouter(run, id), n - 1);
    }
  }

  /** Which actions send on the channel after it was closed. */
  ghost function SendsLate(run: seq<Action>): nat -> bool {
    (i: nat) => i < |run| && (run[i].HandlerSends? || run[i].RouterSends?) && StopSteps(run, i) >= 4
  }

  ghost function TakesEvent(run: seq<Action>): nat -> bool {
    (i: nat) => i < |run| && run[i].TakeEvent?
  }

  ghost function FinishesEvent(run: seq<Action>): nat -> bool {
    (i: nat) => i < |run| && run[i].FinishEvent?
  }

  ghost function EventsOver(run: seq<Action>): nat -> bool {
    (i: nat) => i < |run| && run[i].EventsHandlerExits?
  }

  /** Events sent while the channel was open, and events taken. */
  function SentEvents(run: seq<Action>, n: nat): nat
    requires n <= |run|
  {
    if n == 0 then 0 else
      SentEvents(run, n - 1) +
      if (run[n-1].HandlerSends? || run[n-1].RouterSends?) && StopSteps(run, n - 1) < 4 then 1 else 0
  }

  function TakenEvents(run: seq<Action>, n: nat): nat
    requires n <= |run|
  {
    if n == 0 then 0 else TakenEvents(run, n - 1) + if run[n-1].TakeEvent? then 1 else 0
  }

  lemma StepQueued(t: State, a: Action)
    requires Enabled(t, a)
    ensures Do(t, a).channel.queued + (if a.TakeEvent? then 1 else 0) ==
            t.channel.queued + (if (a.HandlerSends? || a.RouterSends?) && !t.channel.closed then 1 else 0)
  {
  }

  lemma StepSentOnClosed(t: State, a: Action)
    requires Enabled(t, a)
    ensures Do(t, a).channel.sentOnClosed <==>
            t.channel.sentOnClosed || ((a.HandlerSends? || a.RouterSends?) && t.channel.closed)
  {
  }

  lemma StepHandling(t: State, a: Action)
    requires Enabled(t, a)
    ensures Do(t, a).channel.handling <==> a.TakeEvent? || (t.channel.handling && !a.FinishEvent?)
    ensures Do(t, a).channel.over <==> t.channel.over || a.EventsHandlerExits?
  {
  }

  /** The channel holds what was sent while it was open and not taken yet; its handler is inside one event from taking
      it until it is finished, and over when it exited. */
  lemma {:induction false} EventsFollow(s: State, run: seq<Action>, n: nat, t: State)
    requires Initial(s) && At(s, run, n, t)
    ensures t.channel.queued + TakenEvents(run, n) == SentEvents(run, n)
    ensures t.channel.sentOnClosed <==> !NoneFrom(SendsLate(run), 0, n)
    ensures t.channel.handling <==> Standing(TakesEvent(run), FinishesEvent(run), n)
    ensures t.channel.over <==> !NoneFrom(EventsOver(run), 0, n)
    decreases n
  {
    if n > 0 {
      var before := LastStep(s, run, n, t);
      EventsFollow(s, run, n - 1, before);
      StopFollows(s, run, n - 1, before);
      StepQueued(before, run[n-1]);
      StepSentOnClosed(before, run[n-1]);
      StepHandling(before, run[n-1]);
      StandingOn(TakesEvent(run), FinishesEvent(run), n - 1);
      NoneFromOn(SendsLate(run), 0, n - 1);
      NoneFromOn(EventsOver(run), 0, n - 1);
    }
  }

  /** The steps of the background workers in a run; Stop's sixth step begins to close them. */
  function WorkerRun(run: seq<Action>, n: nat): seq<Workers.Action>
    requires n <= |run|
  {
    if n == 0 then []
    else if run[n-1].WorkerSteps? then WorkerRun(run, n - 1) + [run[n-1].action]
    else if run[n-1].StopStep? && StopSteps(run, n - 1) == 5 then WorkerRun(run, n - 1) + [Workers.BeginClose]
    else WorkerRun(run, n - 1)
  }

  lemma {:induction false} WorkersExtend(w: Workers.State, run: seq<Workers.Action>, x: Workers.State,
                                         a: Workers.Action)
    requires Workers.Reaches(w, run, x) && Workers.Enabled(x, a)
    ensures Workers.Reaches(w, run + [a], Workers.Do(x, a))
    decreases |run|
  {
    var longer := run + [a];
    if run == [] {
      assert longer[1..] == [];
      assert Workers.Reaches(Workers.Do(x, a), [], Workers.Do(x, a));
    } else {
      assert longer[1..] == run[1..] + [a];
      WorkersExtend(Workers.Do(w, run[0]), run[1..], x, a);
    }
  }

  lemma StepWorkers(t: State, a: Action)
    requires Inv(t) && Enabled(t, a)
    ensures var begins := a.StopStep? && t.stop.ClosingConsensus?;
            && (a.WorkerSteps? ==> Workers.Enabled(t.workers, a.action))
            && (begins ==> Workers.Enabled(t.workers, Workers.BeginClose))
            && Do(t, a).workers ==
               if a.WorkerSteps? then Workers.Do(t.workers, a.action)
               else if begins then Workers.Do(t.workers, Workers.BeginClose)
               else t.workers
  {
  }

  /** So what is known of every run of the workers is known here. */
  lemma {:induction false} WorkersFollow(s: State, run: seq<Action>, n: nat, t: State)
    requires Initial(s) && At(s, run, n, t)
    ensures Workers.Reaches(s.workers, WorkerRun(run, n), t.workers)
    decreases n
  {
    if n > 0 {
      var before := LastStep(s, run, n, t);
      WorkersFollow(s, run, n - 1, before);
      StopFollows(s, run, n - 1, before);
      StepWorkers(before, run[n-1]);
      if run[n-1].WorkerSteps? {
        WorkersExtend(s.workers, WorkerRun(run, n - 1), before.workers, run[n-1].action);
      } else if run[n-1].StopStep? && before.stop.ClosingConsensus? {
        WorkersExtend(s.workers, WorkerRun(run, n - 1), before.workers, Workers.BeginClose);
      }
    }
  }

  /** How the process ends: the database is closed exactly when the result of a Stop that took all seven steps is seen
      before anything else ends the process. */
  ghost function ClosesDatabase(run: seq<Action>): nat -> bool {
    (i: nat) => i < |run| && run[i].StopReturns? && StopSteps(run, i) == 7
  }

  ghost function ExitsWithoutClosing(run: seq<Action>): nat -> bool {
    (i: nat) => i < |run| && (run[i].StopAgain? || run[i].GracePeriodEnds? ||
                              (run[i].StopReturns? && StopSteps(run, i) != 7))
  }

  lemma StepProcess(t: State, a: Action)
    requires Inv(t) && Enabled(t, a)
    ensures Do(t, a).process.DatabaseClosed? <==>
            (a.StopReturns? && t.stop.ReturnedTrue?) || t.process.DatabaseClosed?
    ensures Do(t, a).process.Exited? <==>
            a.StopAgain? || a.GracePeriodEnds? || (a.StopReturns? && !t.stop.ReturnedTrue?)
  {
  }

  lemma {:induction false} ProcessFollows(s: State, run: seq<Action>, n: nat, t: State)
    requires Initial(s) && At(s, run, n, t)
    ensures t.process.DatabaseClosed? <==> !NoneFrom(ClosesDatabase(run), 0, n)
    ensures t.process.Exited? <==> !NoneFrom(ExitsWithoutClosing(run), 0, n)
    decreases n
  {
    if n > 0 {
      var before := LastStep(s, run, n, t);
      ProcessFollows(s, run, n - 1, before);
      StopFollows(s, run, n - 1, before);
      StepProcess(before, run[n-1]);
      NoneFromOn(ClosesDatabase(run), 0, n - 1);
      NoneFromOn(ExitsWithoutClosing(run), 0, n - 1);
    }
  }

  /** Nothing that uses the database runs. */
  ghost predicate Quiet(s: State) {
    && s.sessions.handlers == {} && s.sessions.routers == {}
    && s.channel.queued == 0 && !s.channel.handling && s.channel.over
    && s.workers.scanner.loop.Exited? && s.workers.owner.loop.Exited?
  }

  /** The same by the actions: every handler and router that started is done, every event that was sent was taken and
      finished, and both workers saw that they are told to stop, or the scanner a mismatch. */
  ghost predicate AllOver(run: seq<Action>) {
    && (forall id :: !Standing(StartsHandler(run, id), EndsHandler(run, id), |run|))
    && (forall id :: !Standing(StartsRouter(run, id), EndsRouter(run, id), |run|))
    && SentEvents(run, |run|) == TakenEvents(run, |run|)
    && !Standing(TakesEvent(run), FinishesEvent(run), |run|) && NoneFrom(SendsLate(run), 0, |run|)
    && var workers := WorkerRun(run, |run|);
       && !NoneFrom(Workers.StopsScanner(workers), 0, |workers|)
       && !NoneFrom(Workers.StopsOwner(workers), 0, |workers|)
  }

  lemma QuietMeansAllOver(s: State, run: seq<Action>, t: State)
    requires Initial(s) && Reaches(s, run, t) && Quiet(t) && !t.channel.sentOnClosed
    ensures AllOver(run)
  {
    assert run[..|run|] == run;
    forall id
      ensures !Standing(StartsHandler(run, id), EndsHandler(run, id), |run|)
      ensures !Standing(StartsRouter(run, id), EndsRouter(run, id), |run|)
    {
      HandlersFollow(s, run, |run|, t, id);
    }
    EventsFollow(s, run, |run|, t);
    WorkersFollow(s, run, |run|, t);
    var workers := WorkerRun(run, |run|);
    assert workers[..|workers|] == workers;
    Workers.ScannerFollows(s.workers, workers, |workers|, t.workers);
    Workers.OwnerFollows(s.workers, workers, |workers|, t.workers);
  }

  /** In every interleaving, when the database is closed nothing that uses it is running, and whatever
      happens afterwards nothing starts; nobody ever sends on the closed events channel. */
  lemma DatabaseClosesLast(s: State, before: seq<Action>, t: State, after: seq<Action>, u: State)
    requires Initial(s) && Reaches(s, before, t) && t.process.DatabaseClosed? && Reaches(t, after, u)
    ensures Quiet(t) && Quiet(u) && t.channel.closed
    ensures AllOver(before) && Standing(ClosesDatabase(before), ExitsWithoutClosing(before), |before|)
    ensures u.process.DatabaseClosed? && !u.channel.sentOnClosed
  {
    Workers.InitialInv(s.workers);
    RunKeepsInv(s, before, t);
    StaysClosed(t, after, u);
    StaysClosed(t, [], t);
    QuietMeansAllOver(s, before, t);
    assert before[..|before|] == before;
    ProcessFollows(s, before, |before|, t);
    var i: nat :| i < |before| && ClosesDatabase(before)(i);
    assert forall j: nat :: i + 1 <= j < |before| ==> !ExitsWithoutClosing(before)(j);
  }

  lemma {:induction false} StaysClosed(t: State, after: seq<Action>, u: State)
    requires Inv(t) && t.process.DatabaseClosed? && Reaches(t, after, u)
    ensures Inv(u) && u.process.DatabaseClosed? && Quiet(u)
    decreases |after|
  {
    if after != [] {
      ActionKeepsInv(t, after[0]);
      StaysClosed(Do(t, after[0]), after[1..], u);
    }
  }

  lemma NeverSendsOnClosedChannel(s: State, run: seq<Action>, t: State)
    requires Initial(s) && Reaches(s, run, t)
    ensures !t.channel.sentOnClosed
  {
    Workers.InitialInv(s.workers);
    RunKeepsInv(s, run, t);
  }

  /** Both wait groups are used as they must be: whatever the action, a count that has been waited for, or is
      being waited for, does not grow. */
  lemma NoAddAfterWait(s: State, run: seq<Action>, t: State, a: Action)
    requires Initial(s) && Reaches(s, run, t) && Enabled(t, a)
    ensures !t.stop.NotStopping? ==> Do(t, a).sessions.handlers <= t.sessions.handlers
    ensures t.stop.WaitingForRouters? || t.channel.closed ==> Do(t, a).sessions.routers <= t.sessions.routers
  {
    Workers.InitialInv(s.workers);
    RunKeepsInv(s, run, t);
  }

  /** While the process runs, whoever is there can send and be done, new work can ask to start, and what Stop waits for
      within a bound can time out, at any time. */
  lemma AnythingCanHappen(s: State, id: Id)
    requires !s.process.Exited?
    ensures id in s.sessions.handlers ==> Enabled(s, HandlerSends(id)) && Enabled(s, HandlerDone(id))
    ensures id in s.sessions.routers ==> Enabled(s, RouterSends(id)) && Enabled(s, RouterDone(id))
    ensures id !in s.sessions.handlers ==> Enabled(s, StartHandler(id))
    ensures id !in s.sessions.routers ==> Enabled(s, AddRouter(id))
    ensures s.process.Serving? ==> Enabled(s, BeginStop)
    ensures s.process.StoppingComponents? ==> Enabled(s, StopAgain) && Enabled(s, GracePeriodEnds)
    ensures s.stop.WaitingForHandlers? || s.stop.WaitingForEvents? ==> Enabled(s, StopTimesOut)
  {
  }

  // ----- Stopping can always finish

  /** What only finishes work that runs already, or goes on stopping. */
  predicate Finishes(a: Action) {
    || a.HandlerDone? || a.RouterDone? || a.TakeEvent? || a.FinishEvent? || a.EventsHandlerExits?
    || (a.WorkerSteps? && (a.action.ScannerEnds? || a.action.ScannerSeesDone? || a.action.OwnerEnds? ||
                           a.action.OwnerSeesDone? || a.action.CloseStep?))
    || a.StopStep? || a.StopReturns?
  }

  function LoopWork(loop: Workers.Loop): nat {
    match loop
    case Running => 2
    case Selecting => 1
    case Exited => 0
  }

  function CloseWork(w: Workers.State): nat {
    match w.close
    case NotClosing => 9
    case AwaitingScanner => 6 + LoopWork(w.scanner.loop)
    case AwaitingOwner => 3 + LoopWork(w.owner.loop)
    case Closed => 0
  }

  function StopWork(stop: StopPc): nat {
    match stop
    case NotStopping => 0
    case WaitingForHandlers => 9
    case ClosingProtocol => 8
    case WaitingForRouters => 7
    case ClosingChannel => 6
    case WaitingForEvents => 5
    case ClosingConsensus => 4
    case WaitingForWorkers => 3
    case ReturnedTrue => 2
    case ReturnedFalse => 0
  }

  /** What is left to do before the database closes. */
  function Work(s: State): nat {
    |s.sessions.handlers| + |s.sessions.routers| + 2 * s.channel.queued + (if s.channel.handling then 1 else 0) +
    (if s.channel.over then 0 else 1) + CloseWork(s.workers) + StopWork(s.stop)
  }

  ghost predicate Stopping(s: State) {
    Inv(s) && s.process.StoppingComponents? && !s.stop.ReturnedFalse?
  }

  ghost predicate Nearer(s: State, a: Action) {
    && Enabled(s, a) && Finishes(a)
    && (Do(s, a).process.DatabaseClosed? || (Stopping(Do(s, a)) && Work(Do(s, a)) < Work(s)))
  }

  lemma DoneIsNearer(s: State, id: Id)
    requires Stopping(s)
    ensures id in s.sessions.handlers ==> Nearer(s, HandlerDone(id))
    ensures id in s.sessions.routers ==> Nearer(s, RouterDone(id))
  {
    if id in s.sessions.handlers { ActionKeepsInv(s, HandlerDone(id)); }
    if id in s.sessions.routers { ActionKeepsInv(s, RouterDone(id)); }
  }

  lemma EventIsNearer(s: State, a: Action)
    requires Stopping(s) && s.stop.WaitingForEvents? && Enabled(s, a)
    requires a.FinishEvent? || a.TakeEvent? || a.EventsHandlerExits?
    ensures Nearer(s, a)
  {
    ActionKeepsInv(s, a);
  }

  lemma WorkersStepIsNearer(s: State)
    requires Stopping(s) && s.stop.WaitingForWorkers? && !s.workers.close.Closed?
    ensures Nearer(s, WorkerSteps(WorkersStep(s.workers)))
  {
    ActionKeepsInv(s, WorkerSteps(WorkersStep(s.workers)));
  }

  lemma StopStepIsNearer(s: State)
    requires Stopping(s) && Enabled(s, StopStep)
    ensures Nearer(s, StopStep)
  {
    ActionKeepsInv(s, StopStep);
  }

  /** Whatever Stop waits for, a step that finishes it is there, and brings the close nearer. */
  lemma FinishingStep(s: State) returns (a: Action)
    requires Stopping(s)
    ensures Nearer(s, a)
  {
    if s.stop.WaitingForHandlers? && s.sessions.handlers != {} {
      var id :| id in s.sessions.handlers;
      DoneIsNearer(s, id);
      a := HandlerDone(id);
    } else if s.stop.WaitingForRouters? && s.sessions.routers != {} {
      var id :| id in s.sessions.routers;
      DoneIsNearer(s, id);
      a := RouterDone(id);
    } else if s.stop.WaitingForEvents? && !s.channel.over {
      a := if s.channel.handling then FinishEvent else if s.channel.queued > 0 then TakeEvent else EventsHandlerExits;
      EventIsNearer(s, a);
    } else if s.stop.WaitingForWorkers? && !s.workers.close.Closed? {
      a := WorkerSteps(WorkersStep(s.workers));
      WorkersStepIsNearer(s);
    } else if s.stop.ReturnedTrue? {
      a := StopReturns;
    } else {
      a := StopStep;
      StopStepIsNearer(s);
    }
  }

  function WorkersStep(w: Workers.State): Workers.Action {
    if w.close.AwaitingScanner? then
      match w.scanner.loop
      case Running => Workers.ScannerEnds(Workers.Checked)
      case Selecting => Workers.ScannerSeesDone
      case Exited => Workers.CloseStep
    else
      match w.owner.loop
      case Running => Workers.OwnerEnds(false)
      case Selecting => Workers.OwnerSeesDone
      case Exited => Workers.CloseStep
  }

  /** From every state of a stop that has not given up, finishing what runs already, with no new work and no timeout,
      leads to the database being closed cleanly: no wait of Stop waits for something that waits for Stop. */
  lemma {:induction false} CanCloseCleanly(s: State, run: seq<Action>, t: State) returns (rest: seq<Action>, u: State)
    requires Initial(s) && Reaches(s, run, t) && t.process.StoppingComponents? && !t.stop.ReturnedFalse?
    ensures Reaches(t, rest, u) && u.process.DatabaseClosed? && forall a :: a in rest ==> Finishes(a)
  {
    Workers.InitialInv(s.workers);
    RunKeepsInv(s, run, t);
    rest, u := FinishingRun(t);
  }

  lemma {:induction false} FinishingRun(t: State) returns (rest: seq<Action>, u: State)
    requires Stopping(t)
    ensures Reaches(t, rest, u) && u.process.DatabaseClosed? && forall a :: a in rest ==> Finishes(a)
    decreases Work(t)
  {
    var a := FinishingStep(t);
    var next := Do(t, a);
    var more: seq<Action>;
    if next.process.DatabaseClosed? {
      more, u := [], next;
      assert Reaches(next, [], next);
    } else {
      more, u := FinishingRun(next);
    }
    rest := [a] + more;
    assert rest[1..] == more;
  }
}
