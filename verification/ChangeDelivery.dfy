/** Delivery of virtual's change sets to the UTXO index: a bounded events channel whose sends can fail, the
    "earlier change sets dropped" flag, the queued index reset after a consensus is replaced, the index that
    replays diffs, and the check at the next start that decides whether to rebuild it. */
module ChangeDelivery {
  import opened Utxo
  import opened Trace

  /** The index stores a coin in its script's bucket, under its outpoint. */
  datatype Key = Key(script: ScriptPublicKey, outpoint: Outpoint)

  type Coins = map<Key, Entry>

  /** `parents` stands for virtual's parents after the change. Parents that were replaced do not come back, so
      they are numbered in the order virtual had them. */
  datatype ChangeSet = ChangeSet(toRemove: Coins, toAdd: Coins, parents: nat)

  datatype Event =
    | VirtualChanged(changes: ChangeSet, earlierDropped: bool)
    | LateChanged(changes: ChangeSet, earlierDropped: bool)  // a VirtualChanged that a replaced consensus sent
    | BlockAdded
    | SetOverride

  // ----- What a change set does to virtual and to the index

  function VirtualAfter(v: Coins, c: ChangeSet): Coins {
    (v - c.toRemove.Keys) + c.toAdd
  }

  predicate Empty(c: ChangeSet) {
    c.toRemove == map[] && c.toAdd == map[]
  }

  /** A change set describes a change of `v`: it removes coins `v` holds, and adds a coin where `v` holds
      none or where it removes the one there. */
  ghost predicate Describes(v: Coins, c: ChangeSet) {
    forall k :: (k in c.toRemove ==> k in v && v[k] == c.toRemove[k]) && (k in c.toAdd && k in v ==> k in c.toRemove)
  }

  /** A staged removal and addition of the same coin cancel; otherwise removals are deleted before
      additions are put. */
  predicate Cancels(c: ChangeSet, k: Key) {
    k in c.toRemove && k in c.toAdd && c.toRemove[k] == c.toAdd[k]
  }

  predicate Touches(c: ChangeSet, k: Key) {
    (k in c.toRemove || k in c.toAdd) && !Cancels(c, k)
  }

  function Touched(c: ChangeSet): set<Key> {
    set k | k in c.toRemove.Keys + c.toAdd.Keys && Touches(c, k)
  }

  function IndexAfter(index: Coins, c: ChangeSet): Coins {
    map k | k in index.Keys + c.toAdd.Keys && (Touches(c, k) ==> k in c.toAdd) && (!Touches(c, k) ==> k in index) ::
      if Touches(c, k) then c.toAdd[k] else index[k]
  }

  // ----- The system

  /** Where the consensus lock holder stands between committing virtual and sending its change set. */
  datatype Stage = Idle | BlockEvent(changes: Option<ChangeSet>) | ChangeEvent(change: ChangeSet)

  /** The consensus object and what it stores. */
  datatype Node = Node(
    virtual: Coins,
    parents: nat,
    stage: Stage,
    dropped: bool,          // virtualChangeSetDropped
    overrideDue: bool,      // consensus was replaced and the index reset is not queued yet
    replaced: bool)         // some call may still be inside a consensus this process replaced

  /** The index: its coins, the virtual parents it stores, and the needs-reset marker. */
  datatype Index = Index(coins: Coins, stored: Option<nat>, needsReset: bool)

  /** History. `committed` and `skipped` count the change sets committed, and lost before the send phase, since the
      last delivery. `held` is what the index will hold, once what the consensus itself queued is handled, where
      that is not what virtual holds: it is kept from commits, losses, resets and the change sets a replaced
      consensus sent, and read off the index only after a reset that failed or that a restart forgot. `silent` says
      that something was lost without an announcement, `late` that a change set of a replaced consensus was handled
      with no reset behind it, since a reset was last queued. */
  datatype Log = Log(committed: nat, skipped: nat, held: map<Key, Option<Entry>>, silent: bool, late: bool)

  datatype State = State(node: Node, queue: seq<Event>, capacity: nat, index: Index, log: Log)

  /** How far a reset that fails got. */
  datatype ResetFailure =
    | NothingDone
    | ParentsDeleted
    | Partial(left: Coins)  // the marker is gone too; `left` is what it left in the index

  datatype Action =
    | Insert(changes: Option<ChangeSet>)     // a block is inserted with virtual updated
    | Resolve(change: ChangeSet)             // a chunk of virtual is resolved
    | SendBlock(raisesEvent: bool)
    | SendBlockFails
    | SendChanges
    | SendChangesFails
    | AbortBeforeSend                        // the pruning point update after the commit fails
    | ReplaceConsensus(newVirtual: Coins)
    | SendReplaced(change: ChangeSet, earlierDropped: bool)  // a call inside a replaced consensus sends
    | QueueOverride
    | Handle                                 // the events handler takes one event
    | ResetFails(failure: ResetFailure)      // it takes a reset, which fails
    | Restart                                // the process ends in any way and starts again

  /** A commit takes virtual to new parents, or leaves them and its coins as they are. */
  ghost predicate Moves(s: State, c: ChangeSet) {
    Describes(s.node.virtual, c) && (c.parents == s.node.parents + 1 || (c.parents == s.node.parents && Empty(c)))
  }

  ghost predicate Enabled(s: State, a: Action) {
    match a
    case Insert(changes) => s.node.stage.Idle? && (changes.Some? ==> Moves(s, changes.value))
    case Resolve(change) => s.node.stage.Idle? && Moves(s, change)
    case SendBlock(raisesEvent) => s.node.stage.BlockEvent? && (raisesEvent ==> |s.queue| < s.capacity)
    case SendBlockFails => s.node.stage.BlockEvent? && |s.queue| == s.capacity
    case SendChanges => s.node.stage.ChangeEvent? && |s.queue| < s.capacity
    case SendChangesFails => s.node.stage.ChangeEvent?
    case AbortBeforeSend => !s.node.stage.Idle?
    case ReplaceConsensus(_) => true
    case SendReplaced(change, _) => s.node.replaced && |s.queue| < s.capacity && change.parents < s.node.parents
    case QueueOverride => s.node.overrideDue && |s.queue| < s.capacity
    case Handle => s.queue != []
    case ResetFails(_) => s.queue != [] && s.queue[0].SetOverride?
    case Restart => true
  }

  function Pending(stage: Stage): Option<ChangeSet> {
    match stage
    case Idle => None
    case BlockEvent(changes) => changes
    case ChangeEvent(change) => Some(change)
  }

  predicate PendingTouches(s: State, k: Key) {
    Pending(s.node.stage).Some? && Touches(Pending(s.node.stage).value, k)
  }

  /** What one event of the consensus, or all of them in a queue, will finally put at a key. */
  datatype Word = Nothing | Puts(value: Option<Entry>) | ReadsVirtual

  function Says(e: Event, k: Key): Word {
    match e
    case VirtualChanged(c, _) => if Touches(c, k) then Puts(Lookup(c.toAdd, k)) else Nothing
    case LateChanged(_, _) => Nothing
    case BlockAdded => Nothing
    case SetOverride => ReadsVirtual
  }

  function LastWord(queue: seq<Event>, k: Key): Word
    decreases |queue|
  {
    if queue == [] then Nothing else
      var later := LastWord(queue[1..], k);
      if later.Nothing? then Says(queue[0], k) else later
  }

  function Commit(s: State, c: ChangeSet, stage: Stage): State {
    s.(node := s.node.(virtual := VirtualAfter(s.node.virtual, c), parents := c.parents, stage := stage),
       log := s.log.(committed := s.log.committed + 1, held := HeldAfterCommit(s, c)))
  }

  /** Until it is sent, the index will hold what was there before, except where a queued reset will read virtual. */
  function HeldAfterCommit(s: State, c: ChangeSet): map<Key, Option<Entry>> {
    s.log.held +
    map k | k in Touched(c) && k !in s.log.held && !LastWord(s.queue, k).ReadsVirtual? :: Lookup(c.toRemove, k)
  }

  /** The change set in flight is not sent. */
  function Lose(s: State): State {
    s.(node := s.node.(stage := Idle), log := s.log.(held := StillWrong(s.log.held, s.node.virtual)))
  }

  function StillWrong(held: map<Key, Option<Entry>>, virtual: Coins): map<Key, Option<Entry>> {
    map k | k in held && held[k] != Lookup(virtual, k) :: held[k]
  }

  function Differences(index: Coins, virtual: Coins): map<Key, Option<Entry>> {
    map k | k in index.Keys + virtual.Keys && Lookup(index, k) != Lookup(virtual, k) :: Lookup(index, k)
  }

  /** The head of the queue is a reset that failed and left `index`. */
  function ResetGone(s: State, index: Index): State
    requires s.queue != []
  {
    s.(queue := s.queue[1..], index := index,
       log := s.log.(held := HeldAfterFailure(s, index.coins, s.queue[1..]), silent := true))
  }

  function HeldAfterFailure(s: State, index: Coins, rest: seq<Event>): map<Key, Option<Entry>> {
    s.log.held + map k | k in Differences(index, s.node.virtual) && LastWord(rest, k).Nothing? :: Lookup(index, k)
  }

  /** A replaced consensus whose reset has not been handled. */
  predicate ResetDue(s: State) {
    s.node.overrideDue || SetOverride in s.queue
  }

  /** What the check at start finds: the marker, or other parents than virtual's. */
  predicate Rebuilds(s: State) {
    s.index.needsReset || s.index.stored != Some(s.node.parents)
  }

  predicate PendingMoves(s: State) {
    Pending(s.node.stage).Some? && !Empty(Pending(s.node.stage).value)
  }

  predicate IsMove(e: Event) {
    e.VirtualChanged? && !Empty(e.changes)
  }

  /** Some change of virtual's coins is queued or in flight. */
  ghost predicate MoveAhead(s: State) {
    PendingMoves(s) || exists i :: 0 <= i < |s.queue| && IsMove(s.queue[i])
  }

  /** A restart forgets the queue and what is in flight. An index that is kept with a change still ahead is one that a
      reset just rebuilt; with a reset due it may hold anything. */
  ghost function Restarted(s: State): State {
    var node := s.node.(stage := Idle, dropped := false, overrideDue := false, replaced := false);
    if Rebuilds(s)
    then State(node, [], s.capacity, Index(node.virtual, Some(node.parents), false), Log(0, 0, map[], false, false))
    else
      var held := if ResetDue(s) then Differences(s.index.coins, node.virtual)
                  else if MoveAhead(s) then map[] else s.log.held;
      State(node, [], s.capacity, s.index, Log(0, 0, held, s.log.silent || ResetDue(s), s.log.late))
  }

  function Sent(s: State, c: ChangeSet): State {
    s.(node := s.node.(stage := Idle, dropped := false),
       queue := s.queue + [VirtualChanged(c, s.node.dropped)],
       log := s.log.(committed := 0, skipped := 0, held := s.log.held - Touched(c)))
  }

  function BlockSent(s: State, changes: Option<ChangeSet>, raisesEvent: bool): State {
    s.(node := s.node.(stage := if changes.Some? then ChangeEvent(changes.value) else Idle),
       queue := if raisesEvent then s.queue + [BlockAdded] else s.queue)
  }

  /** The send phase fails for the change set in flight, if there is one. */
  function Dropped(s: State): State {
    if Pending(s.node.stage).Some? then var t := Lose(s); t.(node := t.node.(dropped := true))
    else s.(node := s.node.(stage := Idle))
  }

  function Skipped(s: State): State {
    if Pending(s.node.stage).Some?
    then var t := Lose(s); t.(log := t.log.(silent := true, skipped := s.log.skipped + 1))
    else s.(node := s.node.(stage := Idle))
  }

  /** The new consensus starts idle; what was in flight is up to calls inside the replaced one. */
  function Replaced(s: State, v: Coins): State {
    s.(node := Node(v, s.node.parents + 1, Idle, false, true, true), log := s.log.(committed := 0, skipped := 0))
  }

  function OverrideQueued(s: State): State {
    s.(node := s.node.(overrideDue := false), queue := s.queue + [SetOverride],
       log := s.log.(held := map[], silent := false, late := false))
  }

  function Handled(s: State): State
    requires s.queue != []
  {
    var e, rest := s.queue[0], s.queue[1..];
    s.(queue := rest, index := IndexHandled(s.node, s.index, e),
       log := if e.LateChanged? then LateLog(s, e.changes, rest) else s.log)
  }

  /** The history when a change set of a replaced consensus is handled with `rest` behind it. */
  function LateLog(s: State, c: ChangeSet, rest: seq<Event>): Log {
    s.log.(held := HeldAfterLate(s, c, rest), late := s.log.late || !(s.node.overrideDue || SetOverride in rest))
  }

  /** What it puts stays, where nothing the consensus itself queued comes after it. */
  function HeldAfterLate(s: State, c: ChangeSet, rest: seq<Event>): map<Key, Option<Entry>> {
    var stays := set k | k in Touched(c) && LastWord(rest, k).Nothing?;
    (s.log.held - stays) +
    map k | k in stays && Lookup(c.toAdd, k) != Lookup(s.node.virtual, k) :: Lookup(c.toAdd, k)
  }

  function IndexHandled(node: Node, index: Index, e: Event): Index {
    match e
    case VirtualChanged(c, earlierDropped) =>
      Index(IndexAfter(index.coins, c), Some(c.parents), index.needsReset || earlierDropped)
    case LateChanged(c, earlierDropped) =>
      Index(IndexAfter(index.coins, c), Some(c.parents), index.needsReset || earlierDropped)
    case BlockAdded => index
    case SetOverride => Index(node.virtual, Some(node.parents), false)
  }

  function ResetFailed(s: State, failure: ResetFailure): State
    requires s.queue != []
  {
    ResetGone(s, match failure
                 case NothingDone => s.index
                 case ParentsDeleted => s.index.(stored := None)
                 case Partial(left) => Index(left, None, false))
  }

  ghost function Do(s: State, a: Action): State
    requires Enabled(s, a)
  {
    match a
    case Insert(changes) =>
      if changes.Some? then Commit(s, changes.value, BlockEvent(changes))
      else s.(node := s.node.(stage := BlockEvent(None)))
    case Resolve(change) => Commit(s, change, ChangeEvent(change))
    case SendBlock(raisesEvent) => BlockSent(s, s.node.stage.changes, raisesEvent)
    case SendBlockFails => Dropped(s)
    case SendChanges => Sent(s, s.node.stage.change)
    case SendChangesFails => Dropped(s)
    case AbortBeforeSend => Skipped(s)
    case ReplaceConsensus(v) => Replaced(s, v)
    case SendReplaced(change, earlierDropped) => s.(queue := s.queue + [LateChanged(change, earlierDropped)])
    case QueueOverride => OverrideQueued(s)
    case Handle => Handled(s)
    case ResetFails(failure) => ResetFailed(s, failure)
    case Restart => Restarted(s)
  }

  ghost predicate Initial(s: State) {
    && s.node.stage.Idle? && !s.node.dropped && !s.node.overrideDue && !s.node.replaced && s.queue == []
    && s.index.coins == s.node.virtual && s.index.stored == Some(s.node.parents) && !s.index.needsReset
    && s.log.committed == 0 && s.log.skipped == 0 && s.log.held == map[] && Quiet(s)
  }

  /** The state a run of enabled actions reaches. */
  ghost predicate Reaches(s: State, run: seq<Action>, t: State)
    decreases |run|
  {
    if run == [] then s == t else
      Enabled(s, run[0]) && Reaches(Do(s, run[0]), run[1..], t)
  }

  // ----- The index after everything queued

  /** What the index will hold at `k` by what it holds and what the consensus itself queued. */
  function Own(s: State, k: Key): Option<Entry> {
    match LastWord(s.queue, k)
    case Nothing => Lookup(s.index.coins, k)
    case Puts(value) => value
    case ReadsVirtual => Lookup(s.node.virtual, k)
  }

  /** What a change set of a replaced consensus puts at `k`, if the last word of the queue on `k` is one's. */
  function LateWord(queue: seq<Event>, k: Key): Option<Option<Entry>>
    decreases |queue|
  {
    if queue == [] then None else
      var rest := queue[1..];
      if LateWord(rest, k).Some? then LateWord(rest, k)
      else if LastWord(rest, k).Nothing? && queue[0].LateChanged? && Touches(queue[0].changes, k)
      then Some(Lookup(queue[0].changes.toAdd, k))
      else None
  }

  /** What the index holds at `k` once everything queued is handled, with virtual standing still. */
  function Final(s: State, k: Key): Option<Entry> {
    if LateWord(s.queue, k).Some? then LateWord(s.queue, k).value else Own(s, k)
  }

  /** Handling the whole queue, whatever is in it, makes the index that. */
  lemma {:induction false} HandlingReaches(s: State) returns (run: seq<Action>, t: State)
    ensures Reaches(s, run, t) && t.queue == [] && t.node.virtual == s.node.virtual
    ensures forall a :: a in run ==> a.Handle?
    ensures forall k :: Lookup(t.index.coins, k) == Final(s, k)
    decreases |s.queue|
  {
    if s.queue == [] {
      run, t := [], s;
    } else {
      var next := Handled(s);
      var more;
      more, t := HandlingReaches(next);
      run := [Handle] + more;
      assert run[1..] == more;
      forall k ensures Final(next, k) == Final(s, k) {
        FinalAfterHandle(s, k);
      }
    }
  }

  lemma FinalAfterHandle(s: State, k: Key)
    requires s.queue != []
    ensures Final(Handled(s), k) == Final(s, k)
    ensures !s.queue[0].LateChanged? ==> Own(Handled(s), k) == Own(s, k)
    ensures s.queue[0].LateChanged? ==>
              var c, stays := s.queue[0].changes, LastWord(s.queue[1..], k).Nothing?;
              Own(Handled(s), k) == if Touches(c, k) && stays then Lookup(c.toAdd, k) else Own(s, k)
  {
    match s.queue[0] {
      case VirtualChanged(c, _) => IndexAfterAt(s.index.coins, c, k);
      case LateChanged(c, _) => IndexAfterAt(s.index.coins, c, k);
      case BlockAdded =>
      case SetOverride =>
    }
  }

  lemma IndexAfterAt(index: Coins, c: ChangeSet, k: Key)
    ensures Lookup(IndexAfter(index, c), k) == if Touches(c, k) then Lookup(c.toAdd, k) else Lookup(index, k)
  {
  }

  lemma VirtualAfterAt(v: Coins, c: ChangeSet, k: Key)
    requires Describes(v, c)
    ensures Lookup(VirtualAfter(v, c), k) == if Touches(c, k) then Lookup(c.toAdd, k) else Lookup(v, k)
    ensures Touches(c, k) ==> Lookup(v, k) == Lookup(c.toRemove, k)
  {
  }

  lemma {:induction false} LastWordSnoc(queue: seq<Event>, e: Event, k: Key)
    ensures LastWord(queue + [e], k) == if Says(e, k).Nothing? then LastWord(queue, k) else Says(e, k)
    decreases |queue|
  {
    if queue == [] {
      assert (queue + [e])[1..] == [];
    } else {
      assert (queue + [e])[1..] == queue[1..] + [e];
      LastWordSnoc(queue[1..], e, k);
    }
  }

  // ----- The invariant

  /** Virtual already shows what `c` says. */
  ghost predicate Settled(v: Coins, c: ChangeSet) {
    forall k :: (k in c.toAdd ==> k in v && v[k] == c.toAdd[k]) && (k in c.toRemove && k !in c.toAdd ==> k !in v)
  }

  ghost predicate Counted(s: State) {
    && |s.queue| <= s.capacity
    && s.log.committed >= s.log.skipped + InFlight(s)
    && (s.node.dropped <==> s.log.committed > s.log.skipped + InFlight(s))
  }

  ghost predicate PendingSettled(s: State) {
    Pending(s.node.stage).Some? ==> Settled(s.node.virtual, Pending(s.node.stage).value)
  }

  function InFlight(s: State): nat {
    if Pending(s.node.stage).Some? then 1 else 0
  }

  /** `held` says what the index will hold at `k`. */
  ghost predicate HeldAt(s: State, k: Key) {
    && Own(s, k) == (if k in s.log.held then s.log.held[k] else Lookup(s.node.virtual, k))
    && (k in s.log.held ==> !LastWord(s.queue, k).ReadsVirtual?)
    && (k in s.log.held ==> PendingTouches(s, k) || s.log.held[k] != Lookup(s.node.virtual, k))
  }

  lemma CommitSettles(v: Coins, c: ChangeSet)
    requires Describes(v, c)
    ensures Settled(VirtualAfter(v, c), c)
  {
  }

  lemma CountedKept(s: State, a: Action)
    requires Counted(s) && Enabled(s, a)
    ensures Counted(Do(s, a))
  {
  }

  lemma SettledKept(s: State, a: Action)
    requires PendingSettled(s) && Enabled(s, a)
    ensures PendingSettled(Do(s, a))
  {
    match a {
      case Insert(changes) => if changes.Some? { CommitSettles(s.node.virtual, changes.value); }
      case Resolve(change) => CommitSettles(s.node.virtual, change);
      case _ =>
    }
  }

  lemma CommitHeld(s: State, c: ChangeSet, stage: Stage, k: Key)
    requires s.node.stage.Idle? && Pending(stage) == Some(c) && Describes(s.node.virtual, c) && HeldAt(s, k)
    ensures HeldAt(Commit(s, c, stage), k)
  {
    VirtualAfterAt(s.node.virtual, c, k);
  }

  lemma LoseHeld(s: State, k: Key)
    requires HeldAt(s, k)
    ensures HeldAt(Lose(s), k)
  {
  }

  lemma SentHeld(s: State, c: ChangeSet, k: Key)
    requires Pending(s.node.stage) == Some(c) && Settled(s.node.virtual, c) && HeldAt(s, k)
    ensures HeldAt(Sent(s, c), k)
  {
    LastWordSnoc(s.queue, VirtualChanged(c, s.node.dropped), k);
  }

  lemma BlockSentHeld(s: State, raisesEvent: bool, k: Key)
    requires s.node.stage.BlockEvent? && HeldAt(s, k)
    ensures HeldAt(BlockSent(s, s.node.stage.changes, raisesEvent), k)
  {
    LastWordSnoc(s.queue, BlockAdded, k);
  }

  lemma OverrideQueuedHeld(s: State, k: Key)
    ensures HeldAt(OverrideQueued(s), k)
  {
    LastWordSnoc(s.queue, SetOverride, k);
  }

  lemma HandledHeld(s: State, k: Key)
    requires s.queue != [] && HeldAt(s, k)
    ensures HeldAt(Handled(s), k)
  {
    FinalAfterHandle(s, k);
  }

  lemma LateSentHeld(s: State, e: Event, k: Key)
    requires e.LateChanged? && HeldAt(s, k)
    ensures HeldAt(s.(queue := s.queue + [e]), k)
  {
    LastWordSnoc(s.queue, e, k);
  }

  lemma ResetGoneHeld(s: State, index: Index, k: Key)
    requires s.queue != [] && s.queue[0].SetOverride? && HeldAt(s, k)
    ensures HeldAt(ResetGone(s, index), k)
  {
  }

  lemma UnsentHeld(s: State, k: Key)
    requires HeldAt(s, k)
    ensures HeldAt(Dropped(s), k) && HeldAt(Skipped(s), k)
  {
    LoseHeld(s, k);
  }

  /** At one key, every action but a restart keeps `held` right. */
  lemma HeldKept(s: State, a: Action, k: Key)
    requires PendingSettled(s) && Enabled(s, a) && !a.Restart? && (!s.node.overrideDue ==> HeldAt(s, k))
    ensures !Do(s, a).node.overrideDue ==> HeldAt(Do(s, a), k)
  {
    if a.QueueOverride? {
      OverrideQueuedHeld(s, k);
    } else if !s.node.overrideDue {
      match a {
        case Insert(changes) => if changes.Some? { CommitHeld(s, changes.value, BlockEvent(changes), k); }
        case Resolve(change) => CommitHeld(s, change, ChangeEvent(change), k);
        case SendBlock(raisesEvent) => BlockSentHeld(s, raisesEvent, k);
        case SendChanges => SentHeld(s, s.node.stage.change, k);
        case SendBlockFails => UnsentHeld(s, k);
        case SendChangesFails => UnsentHeld(s, k);
        case AbortBeforeSend => UnsentHeld(s, k);
        case Handle => HandledHeld(s, k);
        case ResetFails(failure) => ResetGoneHeld(s, ResetFailed(s, failure).index, k);
        case SendReplaced(change, earlierDropped) => LateSentHeld(s, LateChanged(change, earlierDropped), k);
        case ReplaceConsensus(_) =>
      }
    }
  }

  // ----- What the stored parents say about the index

  /** A change set that moves virtual has later parents than any queued before it. */
  predicate Later(e: Event, f: Event) {
    e.VirtualChanged? && IsMove(f) ==> e.changes.parents < f.changes.parents
  }

  ghost predicate Bounded(s: State) {
    && (s.index.stored.Some? ==> s.index.stored.value <= s.node.parents)
    && (forall i :: 0 <= i < |s.queue| && s.queue[i].VirtualChanged? ==> s.queue[i].changes.parents <= s.node.parents)
    && (forall i :: 0 <= i < |s.queue| && s.queue[i].LateChanged? ==> s.queue[i].changes.parents < s.node.parents)
  }

  ghost predicate Sequenced(queue: seq<Event>) {
    forall i, j :: 0 <= i < j < |queue| ==> Later(queue[i], queue[j])
  }

  ghost predicate PendingLast(s: State) {
    && (Pending(s.node.stage).Some? ==> Pending(s.node.stage).value.parents == s.node.parents)
    && (PendingMoves(s) ==>
          forall i :: 0 <= i < |s.queue| && s.queue[i].VirtualChanged? ==> s.queue[i].changes.parents < s.node.parents)
  }

  /** The consensus's change sets are queued in the order of their commits. */
  ghost predicate Ordered(s: State) {
    Bounded(s) && Sequenced(s.queue) && PendingLast(s)
  }

  /** Stored parents that are virtual's, with a change still ahead, can only be those of a reset just handled. */
  ghost predicate JustReset(s: State) {
    s.index.stored == Some(s.node.parents) && MoveAhead(s) ==> s.index.coins == s.node.virtual
  }

  lemma BoundedKept(s: State, a: Action)
    requires Bounded(s) && PendingLast(s) && Enabled(s, a)
    ensures Bounded(Do(s, a))
  {
  }

  lemma SequencedKept(s: State, a: Action)
    requires Ordered(s) && Enabled(s, a)
    ensures Sequenced(Do(s, a).queue)
  {
  }

  lemma PendingLastKept(s: State, a: Action)
    requires Bounded(s) && PendingLast(s) && Enabled(s, a)
    ensures PendingLast(Do(s, a))
  {
  }

  lemma OrderedKept(s: State, a: Action)
    requires Ordered(s) && Enabled(s, a)
    ensures Ordered(Do(s, a))
  {
    BoundedKept(s, a);
    SequencedKept(s, a);
    PendingLastKept(s, a);
  }

  lemma MoveAheadRest(s: State)
    requires s.queue != [] && MoveAhead(s.(queue := s.queue[1..]))
    ensures MoveAhead(s)
    ensures Ordered(s) && (s.queue[0].VirtualChanged? || s.queue[0].LateChanged?) ==>
              s.queue[0].changes.parents < s.node.parents
  {
    if !PendingMoves(s) {
      var i :| 0 <= i < |s.queue| - 1 && IsMove(s.queue[1..][i]);
      assert IsMove(s.queue[i+1]);
      assert Ordered(s) ==> Later(s.queue[0], s.queue[i+1]);
    }
  }

  lemma MoveAheadBefore(s: State, t: State, e: Event)
    requires t.queue == s.queue + [e] && MoveAhead(t) && (PendingMoves(t) || IsMove(e) ==> PendingMoves(s))
    ensures MoveAhead(s)
  {
    if !PendingMoves(s) {
      var i :| 0 <= i < |t.queue| && IsMove(t.queue[i]);
      assert i < |s.queue| ==> IsMove(s.queue[i]);
    }
  }

  lemma HandledJustReset(s: State, a: Action)
    requires Ordered(s) && JustReset(s) && Enabled(s, a) && (a.Handle? || a.ResetFails?)
    ensures JustReset(Do(s, a))
  {
    var t := Do(s, a);
    if t.index.stored == Some(t.node.parents) && MoveAhead(t) {
      assert MoveAhead(s.(queue := s.queue[1..]));
      MoveAheadRest(s);
    }
  }

  lemma LateSentJustReset(s: State, e: Event)
    requires JustReset(s) && e.LateChanged?
    ensures JustReset(s.(queue := s.queue + [e]))
  {
    if MoveAhead(s.(queue := s.queue + [e])) {
      MoveAheadBefore(s, s.(queue := s.queue + [e]), e);
    }
  }

  lemma JustResetKept(s: State, a: Action)
    requires Ordered(s) && JustReset(s) && Enabled(s, a)
    ensures JustReset(Do(s, a))
  {
    if a.Handle? || a.ResetFails? {
      HandledJustReset(s, a);
    } else if a.SendReplaced? {
      LateSentJustReset(s, LateChanged(a.change, a.earlierDropped));
    } else if MoveAhead(Do(s, a)) {
      match a {
        case SendChanges => MoveAheadBefore(s, Do(s, a), VirtualChanged(s.node.stage.change, s.node.dropped));
        case SendBlock(raisesEvent) => if raisesEvent { MoveAheadBefore(s, Do(s, a), BlockAdded); }
        case _ =>
      }
    }
  }

  // ----- Losses that were announced

  function MarkedAfter(needsReset: bool, e: Event): bool {
    match e
    case VirtualChanged(_, earlierDropped) => needsReset || earlierDropped
    case LateChanged(_, earlierDropped) => needsReset || earlierDropped
    case BlockAdded => needsReset
    case SetOverride => false
  }

  /** The marker once everything queued is handled. */
  function Marked(queue: seq<Event>, needsReset: bool): bool
    decreases |queue|
  {
    if queue == [] then needsReset else Marked(queue[1..], MarkedAfter(needsReset, queue[0]))
  }

  lemma {:induction false} MarkedSnoc(queue: seq<Event>, needsReset: bool, e: Event)
    ensures Marked(queue + [e], needsReset) == MarkedAfter(Marked(queue, needsReset), e)
    decreases |queue|
  {
    if queue == [] {
      assert (queue + [e])[1..] == [];
    } else {
      assert (queue + [e])[1..] == queue[1..] + [e];
      MarkedSnoc(queue[1..], MarkedAfter(needsReset, queue[0]), e);
    }
  }

  /** Nothing was lost: the index will only lack what is in flight. */
  ghost predicate NothingLost(s: State) {
    forall k :: k in s.log.held ==> PendingTouches(s, k)
  }

  /** Nothing was lost, or put into the index, without the index being told to start over. */
  predicate Quiet(s: State) {
    !s.log.silent && !s.log.late
  }

  /** A loss is on its way to the index. */
  ghost predicate Announcing(s: State) {
    Quiet(s) && !s.node.overrideDue ==> NothingLost(s) || s.node.dropped || Marked(s.queue, s.index.needsReset)
  }

  /** `queue[i]` tells the index that it is up to date. */
  ghost predicate Assures(s: State, i: nat)
    requires i < |s.queue|
  {
    && s.queue[i].VirtualChanged? && !s.queue[i].earlierDropped && s.queue[i].changes.parents == s.node.parents
    && !Marked(s.queue[..i], s.index.needsReset) && SetOverride !in s.queue[i..]
  }

  ghost predicate AssuredRightly(s: State) {
    Quiet(s) && !s.node.overrideDue ==>
      forall i :: 0 <= i < |s.queue| && Assures(s, i) ==> NothingLost(s)
  }

  /** An index that the check at start would keep misses nothing. */
  ghost predicate KeptRightly(s: State) {
    Quiet(s) && !ResetDue(s) && !Rebuilds(s) && !MoveAhead(s) ==> NothingLost(s)
  }

  lemma AnnouncingKept(s: State, a: Action)
    requires Announcing(s) && Enabled(s, a) && !a.Restart?
    ensures Announcing(Do(s, a))
  {
    match a {
      case SendBlock(raisesEvent) => MarkedSnoc(s.queue, s.index.needsReset, BlockAdded);
      case SendChanges =>
        MarkedSnoc(s.queue, s.index.needsReset, VirtualChanged(s.node.stage.change, s.node.dropped));
      case SendReplaced(change, earlierDropped) =>
        MarkedSnoc(s.queue, s.index.needsReset, LateChanged(change, earlierDropped));
      case Handle => if Quiet(Do(s, a)) && !s.node.overrideDue { QuietlyHandled(s); }
      case _ =>
    }
  }

  lemma {:induction false} ResetSpeaks(queue: seq<Event>, k: Key)
    requires SetOverride in queue
    ensures !LastWord(queue, k).Nothing?
    decreases |queue|
  {
    if queue[0] != SetOverride {
      ResetSpeaks(queue[1..], k);
    }
  }

  /** Behind a change set of a replaced consensus that is handled quietly comes a reset, which undoes it. */
  lemma QuietlyHandled(s: State)
    requires s.queue != [] && !s.node.overrideDue && Quiet(Handled(s))
    ensures Quiet(s) && Handled(s).log == s.log
  {
    if s.queue[0].LateChanged? {
      forall k ensures !LastWord(s.queue[1..], k).Nothing? {
        ResetSpeaks(s.queue[1..], k);
      }
      assert HeldAfterLate(s, s.queue[0].changes, s.queue[1..]) == s.log.held;
    }
  }

  lemma AssuresBefore(s: State, t: State, i: nat)
    requires i < |s.queue| < |t.queue| && t.queue[..|s.queue|] == s.queue && Assures(t, i)
    requires t.node.parents == s.node.parents && t.index == s.index
    ensures Assures(s, i)
  {
    assert t.queue[..i] == s.queue[..i];
    assert forall j :: i <= j < |s.queue| ==> s.queue[j] == t.queue[j] && t.queue[j] in t.queue[i..];
  }

  lemma SentAssures(s: State, c: ChangeSet)
    requires Announcing(s) && AssuredRightly(s) && Pending(s.node.stage) == Some(c) && c.parents == s.node.parents
    ensures AssuredRightly(Sent(s, c))
  {
    var t := Sent(s, c);
    if Quiet(t) && !t.node.overrideDue {
      forall i | 0 <= i < |t.queue| && Assures(t, i) ensures NothingLost(t) {
        if i < |s.queue| {
          assert t.queue[..|s.queue|] == s.queue;
          AssuresBefore(s, t, i);
        } else {
          assert t.queue[..i] == s.queue;
        }
      }
    }
  }

  lemma BlockSentAssures(s: State, raisesEvent: bool)
    requires AssuredRightly(s) && s.node.stage.BlockEvent?
    ensures AssuredRightly(BlockSent(s, s.node.stage.changes, raisesEvent))
  {
    var t := BlockSent(s, s.node.stage.changes, raisesEvent);
    if Quiet(t) && !t.node.overrideDue {
      forall i | 0 <= i < |t.queue| && Assures(t, i) ensures NothingLost(t) {
        if raisesEvent {
          assert t.queue[..|s.queue|] == s.queue;
          AssuresBefore(s, t, i);
        } else {
          assert Assures(s, i);
        }
      }
    }
  }

  lemma HandledAssures(s: State)
    requires AssuredRightly(s) && s.queue != []
    ensures AssuredRightly(Handled(s))
  {
    var t := Handled(s);
    if Quiet(t) && !t.node.overrideDue {
      QuietlyHandled(s);
      forall i | 0 <= i < |t.queue| && Assures(t, i) ensures NothingLost(t) {
        assert s.queue[..i+1][1..] == t.queue[..i] && s.queue[i+1..] == t.queue[i..];
        assert Assures(s, i + 1);
      }
    }
  }

  lemma LateSentAssures(s: State, e: Event)
    requires AssuredRightly(s) && e.LateChanged?
    ensures AssuredRightly(s.(queue := s.queue + [e]))
  {
    var t := s.(queue := s.queue + [e]);
    if Quiet(t) && !t.node.overrideDue {
      forall i | 0 <= i < |t.queue| && Assures(t, i) ensures NothingLost(t) {
        assert t.queue[..|s.queue|] == s.queue;
        AssuresBefore(s, t, i);
      }
    }
  }

  lemma OverrideQueuedAssures(s: State)
    ensures AssuredRightly(OverrideQueued(s))
  {
  }

  /** A commit, or the loss of what it committed, concerns later parents than any queued, or no coin. */
  lemma MoveAssures(s: State, t: State)
    requires Ordered(s) && AssuredRightly(s) && t.queue == s.queue && t.index == s.index
    requires Quiet(t) == Quiet(s) && t.node.overrideDue == s.node.overrideDue
    requires t.node.parents == s.node.parents && !PendingMoves(s) ==> (NothingLost(s) ==> NothingLost(t))
    requires t.node.parents == s.node.parents || t.node.parents == s.node.parents + 1
    ensures AssuredRightly(t)
  {
    forall i | 0 <= i < |t.queue| && Assures(t, i) ensures Assures(s, i) && !PendingMoves(s) {
      assert s.queue[i].changes.parents <= s.node.parents;
    }
  }

  lemma AssuredKept(s: State, a: Action)
    requires Ordered(s) && Announcing(s) && AssuredRightly(s) && Enabled(s, a)
    ensures AssuredRightly(Do(s, a))
  {
    match a {
      case Insert(changes) => MoveAssures(s, Do(s, a));
      case Resolve(_) => MoveAssures(s, Do(s, a));
      case SendBlock(raisesEvent) => BlockSentAssures(s, raisesEvent);
      case SendChanges => SentAssures(s, s.node.stage.change);
      case SendBlockFails => MoveAssures(s, Do(s, a));
      case SendChangesFails => MoveAssures(s, Do(s, a));
      case AbortBeforeSend => if Pending(s.node.stage).None? { MoveAssures(s, Do(s, a)); }
      case Handle => HandledAssures(s);
      case SendReplaced(change, earlierDropped) => LateSentAssures(s, LateChanged(change, earlierDropped));
      case QueueOverride => OverrideQueuedAssures(s);
      case _ =>
    }
  }

  ghost predicate HeldRight(s: State) {
    !s.node.overrideDue ==> forall k :: HeldAt(s, k)
  }

  lemma {:induction false} NoWords(queue: seq<Event>, k: Key)
    requires SetOverride !in queue && forall i :: 0 <= i < |queue| ==> !IsMove(queue[i])
    ensures LastWord(queue, k).Nothing?
    decreases |queue|
  {
    if queue != [] {
      NoWords(queue[1..], k);
    }
  }

  /** With no reset due and no change ahead, what the index will hold is what it holds. */
  lemma FinalIsNow(s: State, k: Key)
    requires HeldRight(s) && !ResetDue(s) && !MoveAhead(s)
    ensures Lookup(s.index.coins, k) == (if k in s.log.held then s.log.held[k] else Lookup(s.node.virtual, k))
    ensures k in s.log.held ==> s.log.held[k] != Lookup(s.node.virtual, k)
  {
    NoWords(s.queue, k);
    assert HeldAt(s, k);
  }

  lemma NowMatchesIff(s: State)
    requires HeldRight(s) && !ResetDue(s) && !MoveAhead(s)
    ensures s.index.coins == s.node.virtual <==> s.log.held == map[]
    ensures NothingLost(s) <==> s.log.held == map[]
  {
    forall k ensures k in s.log.held <==> !SameAt(s.index.coins, s.node.virtual, k) {
      FinalIsNow(s, k);
    }
    SameEverywhere(s.index.coins, s.node.virtual);
    if s.log.held != map[] {
      var k :| k in s.log.held;
      assert !PendingTouches(s, k);
    }
  }

  lemma KeptKept(s: State, a: Action)
    requires Ordered(s) && JustReset(s) && AssuredRightly(s) && KeptRightly(s) && Enabled(s, a) && !a.Restart?
    requires HeldRight(s) && HeldRight(Do(s, a))
    ensures KeptRightly(Do(s, a))
  {
    var t := Do(s, a);
    if Quiet(t) && !ResetDue(t) && !Rebuilds(t) && !MoveAhead(t) {
      if a.Handle? && s.queue[0].VirtualChanged? {
        assert Assures(s, 0);
      } else if MoveAhead(s) || (a.Handle? && s.queue[0].SetOverride?) {
        assert t.index.coins == t.node.virtual;
        NowMatchesIff(t);
      }
    }
  }

  ghost predicate Inv(s: State) {
    && Counted(s) && PendingSettled(s) && HeldRight(s) && Ordered(s) && JustReset(s)
    && Announcing(s) && AssuredRightly(s) && KeptRightly(s)
  }

  /** An index the check at start keeps is virtual's exactly when a reset was just handled or nothing is held. */
  lemma RestartedMatchesIff(s: State)
    requires HeldRight(s) && JustReset(s) && !ResetDue(s)
    ensures Restarted(s).index.coins == s.node.virtual <==> Rebuilds(s) || MoveAhead(s) || s.log.held == map[]
  {
    if !MoveAhead(s) {
      NowMatchesIff(s);
    }
  }

  lemma RestartedHeld(s: State, k: Key)
    requires HeldRight(s) && JustReset(s)
    ensures HeldAt(Restarted(s), k)
  {
    if !ResetDue(s) && !MoveAhead(s) {
      FinalIsNow(s, k);
    }
  }

  lemma RestartKeepsInv(s: State)
    requires Inv(s)
    ensures Inv(Restarted(s))
  {
    var t := Restarted(s);
    forall k ensures HeldAt(t, k) {
      RestartedHeld(s, k);
    }
    if Quiet(t) && !Rebuilds(s) {
      RestartedMatchesQuietly(s);
    }
  }

  lemma RestartedMatchesQuietly(s: State)
    requires HeldRight(s) && JustReset(s) && KeptRightly(s) && Quiet(s) && (Rebuilds(s) || !ResetDue(s))
    ensures Restarted(s).index.coins == s.node.virtual && Restarted(s).log.held == map[]
  {
    if !Rebuilds(s) && !MoveAhead(s) {
      NowMatchesIff(s);
    }
  }

  lemma ActionKeepsInv(s: State, a: Action)
    requires Inv(s) && Enabled(s, a)
    ensures Inv(Do(s, a))
  {
    if a.Restart? {
      RestartKeepsInv(s);
    } else {
      CountedKept(s, a);
      SettledKept(s, a);
      forall k | !Do(s, a).node.overrideDue ensures HeldAt(Do(s, a), k) {
        HeldKept(s, a, k);
      }
      OrderedKept(s, a);
      JustResetKept(s, a);
      AnnouncingKept(s, a);
      AssuredKept(s, a);
      KeptKept(s, a);
    }
  }

  lemma {:induction false} RunKeepsInv(s: State, run: seq<Action>, t: State)
    requires Inv(s) && Reaches(s, run, t)
    ensures Inv(t)
    decreases |run|
  {
    if run != [] {
      ActionKeepsInv(s, run[0]);
      RunKeepsInv(Do(s, run[0]), run[1..], t);
    }
  }

  // ----- The promises, over every run

  /** What the index holds at `k` once everything queued, and then the change set in flight, is handled. */
  function FinalSent(s: State, k: Key): Option<Entry> {
    if PendingTouches(s, k) then Lookup(Pending(s.node.stage).value.toAdd, k) else Final(s, k)
  }

  /** However inserts, resolves, failing sends and resets, consensus replacements, sends of replaced consensuses,
      restarts and event handling interleave: in every state with no reset waiting to be queued, and at every
      coin, the index is going to hold what the change set in flight says, or else what a replaced consensus has
      the last word on, or else what the history holds, or else what virtual holds; and that is virtual's coin
      exactly when the change set in flight says it, or the replaced consensus happens to, or nothing is held. */
  lemma IndexFollowsVirtual(s: State, run: seq<Action>, t: State, k: Key)
    requires Initial(s) && Reaches(s, run, t) && !t.node.overrideDue
    ensures FinalSent(t, k) ==
            if PendingTouches(t, k) then Lookup(t.node.virtual, k)
            else if LateWord(t.queue, k).Some? then LateWord(t.queue, k).value
            else if k in t.log.held then t.log.held[k]
            else Lookup(t.node.virtual, k)
    ensures FinalSent(t, k) == Lookup(t.node.virtual, k) <==>
            || PendingTouches(t, k)
            || (if LateWord(t.queue, k).Some? then LateWord(t.queue, k).value == Lookup(t.node.virtual, k)
                else k !in t.log.held)
  {
    RunKeepsInv(s, run, t);
    assert HeldAt(t, k);
  }

  /** With no reset due and none of the consensus's own changes ahead, the index is virtual's set if and only if nothing
      is held. */
  lemma IndexMatchesVirtual(s: State, run: seq<Action>, t: State)
    requires Initial(s) && Reaches(s, run, t) && !ResetDue(t) && !MoveAhead(t)
    ensures t.index.coins == t.node.virtual <==> t.log.held == map[]
  {
    RunKeepsInv(s, run, t);
    NowMatchesIff(t);
  }

  /** After a restart that finds the marker or other parents than virtual's the index is virtual's set. From every state
      without a reset due it is so if and only if that is found, or a reset was just handled, or nothing is held. */
  lemma RestartExact(s: State, run: seq<Action>, t: State)
    requires Initial(s) && Reaches(s, run, t)
    ensures Rebuilds(t) ==> Do(t, Restart).index.coins == t.node.virtual
    ensures !ResetDue(t) ==>
              (Do(t, Restart).index.coins == t.node.virtual <==> Rebuilds(t) || MoveAhead(t) || t.log.held == map[])
  {
    RunKeepsInv(s, run, t);
    if !ResetDue(t) {
      RestartedMatchesIff(t);
    }
  }

  /** A consumer that rebuilds on the flag recovers: whatever was lost in send phases, announced or not yet, handled
      or still queued, and whatever a replaced consensus sent that a reset came after or that is still queued,
      the index after a restart is virtual's set. */
  lemma RestartHeals(s: State, run: seq<Action>, t: State)
    requires Initial(s) && Reaches(s, run, t) && !ResetDue(t) && Quiet(t)
    ensures Do(t, Restart).index.coins == t.node.virtual
  {
    RunKeepsInv(s, run, t);
    RestartedMatchesQuietly(t);
  }

  // ----- What the actions of a run say about the state it reaches

  /** The state a run is in after its first `n` actions. */
  ghost predicate At(s: State, run: seq<Action>, n: nat, t: State) {
    n <= |run| && Reaches(s, run[..n], t)
  }

  lemma {:induction false} Unsnoc(s: State, run: seq<Action>, u: State) returns (t: State)
    requires run != [] && Reaches(s, run, u)
    ensures Reaches(s, run[..|run|-1], t) && Enabled(t, run[|run|-1]) && u == Do(t, run[|run|-1])
    decreases |run|
  {
    if |run| == 1 {
      t := s;
      assert run[1..] == [];
    } else {
      assert run[1..][..|run|-2] == run[..|run|-1][1..];
      t := Unsnoc(Do(s, run[0]), run[1..], u);
    }
  }

  lemma LastStep(s: State, run: seq<Action>, n: nat, u: State) returns (t: State)
    requires 0 < n && At(s, run, n, u)
    ensures At(s, run, n - 1, t) && Enabled(t, run[n-1]) && u == Do(t, run[n-1])
  {
    assert run[..n][..n-1] == run[..n-1];
    t := Unsnoc(s, run[..n], u);
  }

  /** The change set an action commits. */
  function Commits(a: Action): Option<ChangeSet> {
    match a
    case Insert(changes) => changes
    case Resolve(change) => Some(change)
    case _ => None
  }

  /** Which actions commit `c`, and after which one nothing is in flight any more. */
  ghost function Committing(run: seq<Action>, c: ChangeSet): nat -> bool {
    (i: nat) => i < |run| && Commits(run[i]) == Some(c)
  }

  ghost function Grounding(run: seq<Action>): nat -> bool {
    (i: nat) => i < |run| && (run[i].SendBlockFails? || run[i].SendChanges? || run[i].SendChangesFails? ||
                              run[i].AbortBeforeSend? || run[i].ReplaceConsensus? || run[i].Restart?)
  }

  lemma StepInFlight(t: State, a: Action, c: ChangeSet)
    requires Enabled(t, a)
    ensures var grounds := a.SendBlockFails? || a.SendChanges? || a.SendChangesFails? || a.AbortBeforeSend? ||
                           a.ReplaceConsensus? || a.Restart?;
            Pending(Do(t, a).node.stage) == Some(c) <==>
            Commits(a) == Some(c) || (Pending(t.node.stage) == Some(c) && !grounds)
  {
  }

  /** A change set is in flight exactly from its commit until it is sent or lost. */
  lemma {:induction false} InFlightFollows(s: State, run: seq<Action>, n: nat, t: State, c: ChangeSet)
    requires Initial(s) && At(s, run, n, t)
    ensures Pending(t.node.stage) == Some(c) <==> Standing(Committing(run, c), Grounding(run), n)
    decreases n
  {
    if n > 0 {
      var before := LastStep(s, run, n, t);
      InFlightFollows(s, run, n - 1, before, c);
      StandingOn(Committing(run, c), Grounding(run), n - 1);
      StepInFlight(before, run[n-1], c);
    }
  }

  /** Which actions lose a change set in its send phase: the change set's own send fails, or that of the block it was
      committed with. */
  ghost function LosingAtSend(run: seq<Action>): nat -> bool {
    (i: nat) => i < |run| && (run[i].SendChangesFails? ||
                              (run[i].SendBlockFails? && exists c :: Standing(Committing(run, c), Grounding(run), i)))
  }

  /** Which leave no loss to tell of: a delivery, and a new consensus object. */
  ghost function StartingOver(run: seq<Action>): nat -> bool {
    (i: nat) => i < |run| && (run[i].SendChanges? || run[i].ReplaceConsensus? || run[i].Restart?)
  }

  lemma StepFlag(t: State, a: Action)
    requires Enabled(t, a)
    ensures var loses := a.SendChangesFails? || (a.SendBlockFails? && Pending(t.node.stage).Some?);
            var startsOver := a.SendChanges? || a.ReplaceConsensus? || a.Restart?;
            Do(t, a).node.dropped <==> loses || (t.node.dropped && !startsOver)
  {
  }

  /** The flag is up exactly while a change set was lost in its send phase and nothing was delivered since. */
  lemma {:induction false} FlagFollows(s: State, run: seq<Action>, n: nat, t: State)
    requires Initial(s) && At(s, run, n, t)
    ensures t.node.dropped <==> Standing(LosingAtSend(run), StartingOver(run), n)
    decreases n
  {
    if n > 0 {
      var before := LastStep(s, run, n, t);
      FlagFollows(s, run, n - 1, before);
      StandingOn(LosingAtSend(run), StartingOver(run), n - 1);
      StepFlag(before, run[n-1]);
      forall c ensures Pending(before.node.stage) == Some(c) <==> Standing(Committing(run, c), Grounding(run), n - 1) {
        InFlightFollows(s, run, n - 1, before, c);
      }
    }
  }

  /** What an action puts into virtual at a coin's key. */
  function SaysOfVirtual(a: Action, k: Key): Option<Option<Entry>> {
    match a
    case Insert(Some(c)) => if k in c.toAdd || k in c.toRemove then Some(Lookup(c.toAdd, k)) else None
    case Resolve(c) => if k in c.toAdd || k in c.toRemove then Some(Lookup(c.toAdd, k)) else None
    case ReplaceConsensus(v) => Some(Lookup(v, k))
    case _ => None
  }

  ghost function Putting(run: seq<Action>, k: Key, e: Option<Entry>): nat -> bool {
    (i: nat) => i < |run| && SaysOfVirtual(run[i], k) == Some(e)
  }

  ghost function Touching(run: seq<Action>, k: Key): nat -> bool {
    (i: nat) => i < |run| && SaysOfVirtual(run[i], k).Some?
  }

  /** A commit puts what its change set adds, takes out what it only removes, and leaves the rest of virtual alone. */
  lemma StepVirtual(t: State, a: Action, k: Key)
    requires Enabled(t, a)
    ensures Lookup(Do(t, a).node.virtual, k) ==
            if SaysOfVirtual(a, k).Some? then SaysOfVirtual(a, k).value else Lookup(t.node.virtual, k)
  {
  }

  /** Virtual holds at each key what the last commit or new consensus to speak of it put there. */
  lemma {:induction false} VirtualFollows(s: State, run: seq<Action>, n: nat, t: State, k: Key, e: Option<Entry>)
    requires Initial(s) && At(s, run, n, t)
    ensures Lookup(t.node.virtual, k) == e <==>
            || Standing(Putting(run, k, e), Touching(run, k), n)
            || (Lookup(s.node.virtual, k) == e && NoneFrom(Touching(run, k), 0, n))
    decreases n
  {
    if n > 0 {
      var before := LastStep(s, run, n, t);
      VirtualFollows(s, run, n - 1, before, k, e);
      StandingOn(Putting(run, k, e), Touching(run, k), n - 1);
      NoneFromOn(Touching(run, k), 0, n - 1);
      StepVirtual(before, run[n-1], k);
    }
  }

  /** In every run a delivered change set is the one committed last, and says "earlier change sets dropped" exactly when
      another one was lost in its send phase and nothing was delivered since: when another one committed since the
      previous delivery reached the send phase. That is the truth about all of them exactly when none was lost
      before the send phase, or one was also lost in it. */
  lemma FlagIsExact(s: State, run: seq<Action>, t: State)
    requires Initial(s) && Reaches(s, run, t) && Enabled(t, SendChanges)
    ensures exists c :: Standing(Committing(run, c), Grounding(run), |run|) &&
              Do(t, SendChanges).queue ==
              t.queue + [VirtualChanged(c, Standing(LosingAtSend(run), StartingOver(run), |run|))]
    ensures Do(t, SendChanges).queue ==
            t.queue + [VirtualChanged(t.node.stage.change, t.log.committed > t.log.skipped + 1)]
    ensures (t.node.dropped <==> t.log.committed > 1) <==> t.log.skipped == 0 || t.log.committed > t.log.skipped + 1
  {
    assert run[..|run|] == run;
    RunKeepsInv(s, run, t);
    FlagFollows(s, run, |run|, t);
    InFlightFollows(s, run, |run|, t, t.node.stage.change);
  }

  /** The change set committed last. */
  function LastCommit(run: seq<Action>, n: nat): Option<ChangeSet>
    requires n <= |run|
  {
    if n == 0 then None
    else if Commits(run[n-1]).Some? then Commits(run[n-1])
    else LastCommit(run, n - 1)
  }

  lemma {:induction false} LastCommitInFlight(s: State, run: seq<Action>, n: nat, t: State)
    requires Initial(s) && At(s, run, n, t) && Pending(t.node.stage).Some?
    ensures LastCommit(run, n) == Pending(t.node.stage)
    decreases n
  {
    if n > 0 {
      var before := LastStep(s, run, n, t);
      StepInFlight(before, run[n-1], Pending(t.node.stage).value);
      if Commits(run[n-1]).None? {
        LastCommitInFlight(s, run, n - 1, before);
      }
    }
  }

  /** The event the `n`-th action puts into the channel. */
  ghost function EventOf(run: seq<Action>, n: nat): Option<Event>
    requires n < |run|
  {
    match run[n]
    case SendBlock(raisesEvent) => if raisesEvent then Some(BlockAdded) else None
    case SendChanges =>
      if LastCommit(run, n).None? then None else
        Some(VirtualChanged(LastCommit(run, n).value, Standing(LosingAtSend(run), StartingOver(run), n)))
    case SendReplaced(change, earlierDropped) => Some(LateChanged(change, earlierDropped))
    case QueueOverride => Some(SetOverride)
    case _ => None
  }

  /** The events put into the channel, and how many were taken out, since the process started. */
  ghost function PutIn(run: seq<Action>, n: nat): seq<Event>
    requires n <= |run|
  {
    if n == 0 || run[n-1].Restart? then []
    else if EventOf(run, n - 1).Some? then PutIn(run, n - 1) + [EventOf(run, n - 1).value]
    else PutIn(run, n - 1)
  }

  function TakenOut(run: seq<Action>, n: nat): nat
    requires n <= |run|
  {
    if n == 0 || run[n-1].Restart? then 0
    else TakenOut(run, n - 1) + if run[n-1].Handle? || run[n-1].ResetFails? then 1 else 0
  }

  lemma StepQueue(t: State, a: Action)
    requires Enabled(t, a)
    ensures Do(t, a).queue ==
            match a
            case SendBlock(raisesEvent) => if raisesEvent then t.queue + [BlockAdded] else t.queue
            case SendChanges => t.queue + [VirtualChanged(t.node.stage.change, t.node.dropped)]
            case SendReplaced(change, earlierDropped) => t.queue + [LateChanged(change, earlierDropped)]
            case QueueOverride => t.queue + [SetOverride]
            case Handle => t.queue[1..]
            case ResetFails(_) => t.queue[1..]
            case Restart => []
            case _ => t.queue
  {
  }

  /** The channel is first in, first out: it holds what was put in since the process started, less what was taken. */
  lemma {:induction false} QueueFollows(s: State, run: seq<Action>, n: nat, t: State)
    requires Initial(s) && At(s, run, n, t)
    ensures TakenOut(run, n) <= |PutIn(run, n)| && t.queue == PutIn(run, n)[TakenOut(run, n)..]
    decreases n
  {
    if n > 0 {
      var before := LastStep(s, run, n, t);
      QueueFollows(s, run, n - 1, before);
      StepQueue(before, run[n-1]);
      if run[n-1].SendChanges? {
        FlagFollows(s, run, n - 1, before);
        LastCommitInFlight(s, run, n - 1, before);
      }
      var put, taken, e := PutIn(run, n - 1), TakenOut(run, n - 1), EventOf(run, n - 1);
      if e.Some? {
        assert (put + [e.value])[taken..] == put[taken..] + [e.value];
      } else if run[n-1].Handle? || run[n-1].ResetFails? {
        assert taken < |put| && put[taken..][1..] == put[taken+1..];
      }
    }
  }

  /** What handling an event does to the index: a change set's coins are put and taken out, where it does not remove and
      add the same coin, its parents are stored and a flag leaves the marker; a reset reads virtual. */
  lemma HandleMeans(s: State, k: Key)
    requires s.queue != []
    ensures var e, before, after := s.queue[0], s.index, Do(s, Handle).index;
            match e
            case BlockAdded => after == before
            case SetOverride => after == Index(s.node.virtual, Some(s.node.parents), false)
            case _ =>
              && after.stored == Some(e.changes.parents) && after.needsReset == (before.needsReset || e.earlierDropped)
              && Lookup(after.coins, k) ==
                 var removed, added := Lookup(e.changes.toRemove, k), Lookup(e.changes.toAdd, k);
                 if removed == added then Lookup(before.coins, k) else added
  {
  }

  /** What a restart does to the index: it is rebuilt exactly where the marker is there or the stored parents are not
      virtual's, and what is queued or in flight is gone. */
  lemma RestartMeans(s: State)
    ensures var t := Do(s, Restart);
            && t.node.virtual == s.node.virtual && t.node.parents == s.node.parents && t.queue == []
            && t.index == if s.index.needsReset || s.index.stored != Some(s.node.parents)
                          then Index(s.node.virtual, Some(s.node.parents), false) else s.index
  {
  }

  /** What a reset that fails leaves: the index as it was, or without its parents, or with some of the coins and
      neither parents nor marker. */
  lemma FailedResetMeans(s: State, left: Coins)
    requires s.queue != [] && s.queue[0].SetOverride?
    ensures forall failure :: Enabled(s, ResetFails(failure))
    ensures Do(s, ResetFails(NothingDone)).index == s.index
    ensures Do(s, ResetFails(ParentsDeleted)).index == Index(s.index.coins, None, s.index.needsReset)
    ensures Do(s, ResetFails(Partial(left))).index == Index(left, None, false)
  {
  }

  /** What can go wrong can do so at any time: every send phase can fail or not be reached, a process can end and a
      consensus be replaced, and a call inside a replaced one can send whatever it has. */
  lemma AnythingCanFail(s: State, v: Coins, c: ChangeSet, dropped: bool)
    ensures Enabled(s, Restart) && Enabled(s, ReplaceConsensus(v))
    ensures !s.node.stage.Idle? ==> Enabled(s, AbortBeforeSend)
    ensures s.node.stage.ChangeEvent? ==> Enabled(s, SendChangesFails)
    ensures s.node.stage.BlockEvent? && |s.queue| == s.capacity ==> Enabled(s, SendBlockFails)
    ensures s.node.replaced && |s.queue| < s.capacity && c.parents < s.node.parents ==>
              Enabled(s, SendReplaced(c, dropped))
  {
  }

  ghost function Replacing(run: seq<Action>): nat -> bool {
    (i: nat) => i < |run| && run[i].ReplaceConsensus?
  }

  ghost function QueueingReset(run: seq<Action>): nat -> bool {
    (i: nat) => i < |run| && run[i].QueueOverride?
  }

  ghost function ForgettingReset(run: seq<Action>): nat -> bool {
    (i: nat) => i < |run| && (run[i].QueueOverride? || run[i].Restart?)
  }

  /** A consensus was replaced and the reset is not queued, or queued and not taken. */
  ghost predicate ResetAhead(run: seq<Action>, n: nat)
    requires n <= |run|
  {
    || Standing(Replacing(run), ForgettingReset(run), n)
    || (TakenOut(run, n) <= |PutIn(run, n)| && SetOverride in PutIn(run, n)[TakenOut(run, n)..])
  }

  lemma {:induction false} OverrideFollows(s: State, run: seq<Action>, n: nat, t: State)
    requires Initial(s) && At(s, run, n, t)
    ensures t.node.overrideDue <==> Standing(Replacing(run), ForgettingReset(run), n)
    decreases n
  {
    if n > 0 {
      var before := LastStep(s, run, n, t);
      OverrideFollows(s, run, n - 1, before);
      StandingOn(Replacing(run), ForgettingReset(run), n - 1);
    }
  }

  lemma ResetFollows(s: State, run: seq<Action>, n: nat, t: State)
    requires Initial(s) && At(s, run, n, t)
    ensures ResetDue(t) <==> ResetAhead(run, n)
  {
    OverrideFollows(s, run, n, t);
    QueueFollows(s, run, n, t);
  }

  /** Which actions lose something without a word: a commit is aborted before its send phase, a reset fails, or a
      restart forgets one. */
  ghost function LosingSilently(run: seq<Action>): nat -> bool {
    (i: nat) => i < |run| &&
                ((run[i].AbortBeforeSend? && exists c :: Standing(Committing(run, c), Grounding(run), i)) ||
                 run[i].ResetFails? || (run[i].Restart? && ResetAhead(run, i)))
  }

  lemma {:induction false} SilentFollows(s: State, run: seq<Action>, n: nat, t: State)
    requires Initial(s) && At(s, run, n, t) && t.log.silent
    ensures Standing(LosingSilently(run), QueueingReset(run), n)
    decreases n
  {
    if n > 0 {
      var before := LastStep(s, run, n, t);
      StandingOn(LosingSilently(run), QueueingReset(run), n - 1);
      if before.log.silent {
        SilentFollows(s, run, n - 1, before);
      } else if run[n-1].AbortBeforeSend? {
        InFlightFollows(s, run, n - 1, before, Pending(before.node.stage).value);
      } else {
        ResetFollows(s, run, n - 1, before);
      }
    }
  }

  ghost function SendingLate(run: seq<Action>): nat -> bool {
    (i: nat) => i < |run| && run[i].SendReplaced?
  }

  /** A change set of a replaced consensus is queued with no reset behind it. */
  ghost predicate LateAhead(s: State) {
    exists i :: 0 <= i < |s.queue| && s.queue[i].LateChanged? && SetOverride !in s.queue[i..]
  }

  lemma ResetCoversLate(s: State)
    ensures !LateAhead(OverrideQueued(s))
  {
    var queue := OverrideQueued(s).queue;
    forall i | 0 <= i < |queue| ensures SetOverride in queue[i..] {
      assert queue[|queue|-1] in queue[i..];
    }
  }

  lemma StepLate(t: State, a: Action)
    requires Enabled(t, a) && !a.SendReplaced? && (Do(t, a).log.late || LateAhead(Do(t, a)))
    ensures (t.log.late || LateAhead(t)) && !a.QueueOverride?
  {
    var u := Do(t, a);
    StepQueue(t, a);
    ResetCoversLate(t);
    if a.Handle? && !t.log.late {
      if u.log.late {
        assert t.queue[0..] == [t.queue[0]] + t.queue[1..];
      } else {
        var i :| 0 <= i < |u.queue| && u.queue[i].LateChanged? && SetOverride !in u.queue[i..];
        assert t.queue[i+1..] == u.queue[i..] && t.queue[i+1] == u.queue[i];
      }
    } else if !u.log.late {
      var i :| 0 <= i < |u.queue| && u.queue[i].LateChanged? && SetOverride !in u.queue[i..];
      if a.ResetFails? {
        assert t.queue[i+1..] == u.queue[i..] && t.queue[i+1] == u.queue[i];
      } else {
        assert t.queue[i] == u.queue[i];
        assert forall j :: i <= j < |t.queue| ==> t.queue[j] == u.queue[j] && u.queue[j] in u.queue[i..];
      }
    }
  }

  lemma {:induction false} LateFollows(s: State, run: seq<Action>, n: nat, t: State)
    requires Initial(s) && At(s, run, n, t) && (t.log.late || LateAhead(t))
    ensures Standing(SendingLate(run), QueueingReset(run), n)
    decreases n
  {
    if n > 0 {
      var before := LastStep(s, run, n, t);
      StandingOn(SendingLate(run), QueueingReset(run), n - 1);
      if !run[n-1].SendReplaced? {
        StepLate(before, run[n-1]);
        LateFollows(s, run, n - 1, before);
      }
    }
  }

  /** So, by the actions alone: if since the last reset was queued nothing was lost silently and no replaced consensus
      sent anything, and no reset is ahead, a restart makes the index virtual's set, whatever sends failed. */
  lemma RestartHealsRun(s: State, run: seq<Action>, t: State)
    requires Initial(s) && Reaches(s, run, t) && !ResetAhead(run, |run|)
    requires !Standing(LosingSilently(run), QueueingReset(run), |run|)
    requires !Standing(SendingLate(run), QueueingReset(run), |run|)
    ensures Do(t, Restart).index.coins == t.node.virtual
  {
    assert run[..|run|] == run;
    ResetFollows(s, run, |run|, t);
    if t.log.silent {
      SilentFollows(s, run, |run|, t);
    }
    if t.log.late {
      LateFollows(s, run, |run|, t);
    }
    RestartHeals(s, run, t);
  }

  predicate Loses(a: Action) {
    || a.SendBlockFails? || a.SendChangesFails? || a.AbortBeforeSend? || a.SendReplaced? || a.ResetFails?
    || a.Restart?
  }

  lemma StepLosesNothing(t: State, a: Action)
    requires Enabled(t, a) && !Loses(a) && (t.node.overrideDue || NothingLost(t))
    requires forall i :: 0 <= i < |t.queue| ==> !t.queue[i].LateChanged?
    ensures Do(t, a).node.overrideDue || NothingLost(Do(t, a))
    ensures forall i :: 0 <= i < |Do(t, a).queue| ==> !Do(t, a).queue[i].LateChanged?
  {
  }

  lemma {:induction false} LosslessRun(s: State, run: seq<Action>, t: State)
    requires (s.node.overrideDue || NothingLost(s)) && Reaches(s, run, t) && forall a :: a in run ==> !Loses(a)
    requires forall i :: 0 <= i < |s.queue| ==> !s.queue[i].LateChanged?
    ensures t.node.overrideDue || NothingLost(t)
    decreases |run|
  {
    if run != [] {
      StepLosesNothing(s, run[0]);
      LosslessRun(Do(s, run[0]), run[1..], t);
    }
  }

  /** And in a run in which nothing fails the index is virtual's set whenever nothing is outstanding. */
  lemma LosslessMatches(s: State, run: seq<Action>, t: State)
    requires Initial(s) && Reaches(s, run, t) && (forall a :: a in run ==> !Loses(a))
    requires !ResetDue(t) && !MoveAhead(t)
    ensures t.index.coins == t.node.virtual
  {
    LosslessRun(s, run, t);
    RunKeepsInv(s, run, t);
    NowMatchesIff(t);
  }

  // ----- What is not covered

  lemma {:induction false} Extend(s: State, run: seq<Action>, t: State, a: Action)
    returns (longer: seq<Action>, u: State)
    requires Reaches(s, run, t) && Enabled(t, a)
    ensures longer == run + [a] && u == Do(t, a) && Reaches(s, longer, u)
    decreases |run|
  {
    longer, u := run + [a], Do(t, a);
    if run == [] {
      assert longer[1..] == [];
      assert Reaches(u, [], u);
    } else {
      assert longer[1..] == run[1..] + [a];
      var _, _ := Extend(Do(s, run[0]), run[1..], t, a);
    }
  }

  function Synced(coins: Coins): State {
    State(Node(coins, 0, Idle, false, false, false), [], 1, Index(coins, Some(0), false),
          Log(0, 0, map[], false, false))
  }

  /** An empty change set of the next parents is committed, sent and handled. */
  lemma NextHandled(s: State, run: seq<Action>, t: State) returns (longer: seq<Action>, u: State)
    requires Reaches(s, run, t) && t.node.stage.Idle? && t.queue == [] && t.capacity == 1
    ensures Reaches(s, longer, u) && u.queue == [] && u.index.coins == t.index.coins
    ensures u.node == t.node.(parents := t.node.parents + 1, dropped := false)
    ensures u.index.stored == Some(u.node.parents) && u.index.needsReset == (t.index.needsReset || t.node.dropped)
    ensures u.log.silent == t.log.silent && u.log.late == t.log.late
  {
    var c := ChangeSet(map[], map[], t.node.parents + 1);
    assert VirtualAfter(t.node.virtual, c) == t.node.virtual && IndexAfter(t.index.coins, c) == t.index.coins;
    var r1, t1 := Extend(s, run, t, Resolve(c));
    var r2, t2 := Extend(s, r1, t1, SendChanges);
    assert t2.queue[1..] == [];
    longer, u := Extend(s, r2, t2, Handle);
  }

  lemma LossReachable(k: Key, e: Entry) returns (run: seq<Action>, t: State)
    ensures Reaches(Synced(map[]), run, t) && t.queue == [] && t.capacity == 1
    ensures t.node == Node(map[k := e], 1, Idle, false, false, false) && t.index == Index(map[], Some(0), false)
  {
    var s := Synced(map[]);
    var c := ChangeSet(map[], map[k := e], 1);
    assert VirtualAfter(map[], c) == map[k := e];
    var r1, t1 := Extend(s, [], s, Resolve(c));
    run, t := Extend(s, r1, t1, AbortBeforeSend);
  }

  /** An error between committing virtual and the send phase is not covered: the change set is lost and no flag is
      set, and once the next one is delivered even a restart keeps the index that misses it. */
  lemma SilentLossSurvives(k: Key, e: Entry)
    ensures exists s, run, t :: Initial(s) && Reaches(s, run, t) && t.queue == [] && t.node.stage.Idle? &&
              !t.node.dropped && !ResetDue(t) && !Rebuilds(t) && t.index.coins != t.node.virtual &&
              Do(t, Restart).index.coins != t.node.virtual
  {
    var run, t := LossReachable(k, e);
    var longer, u := NextHandled(Synced(map[]), run, t);
    assert k in u.node.virtual && k !in u.index.coins;
  }

  /** Nor is a process that ends between replacing the consensus and handling the reset, if a change set of the new
      consensus was handled in between: the stored parents are the new virtual's, the coins the old one's. */
  lemma LostOverrideSurvives(k: Key, e: Entry)
    ensures exists s, run, t :: Initial(s) && Reaches(s, run, t) && Quiet(t) && ResetDue(t) &&
              Do(t, Restart).index.coins != t.node.virtual
  {
    var s := Synced(map[k := e]);
    var run, t := Extend(s, [], s, ReplaceConsensus(map[]));
    var longer, u := NextHandled(s, run, t);
    assert k in u.index.coins && k !in u.node.virtual;
  }

  lemma FailedResetReachable(k: Key, e: Entry) returns (run: seq<Action>, t: State)
    ensures Reaches(Synced(map[k := e]), run, t) && t.queue == [] && t.capacity == 1
    ensures t.node == Node(map[], 1, Idle, false, false, true) && t.index == Index(map[k := e], Some(0), false)
  {
    var s := Synced(map[k := e]);
    var r1, t1 := Extend(s, [], s, ReplaceConsensus(map[]));
    var r2, t2 := Extend(s, r1, t1, QueueOverride);
    assert t2.queue[1..] == [];
    run, t := Extend(s, r2, t2, ResetFails(NothingDone));
  }

  /** Nor is a reset that fails before it did anything, once the new consensus delivers a change set. */
  lemma FailedResetSurvives(k: Key, e: Entry)
    ensures exists s, run, t :: Initial(s) && Reaches(s, run, t) && t.queue == [] && !ResetDue(t) && !Rebuilds(t) &&
              Do(t, Restart).index.coins != t.node.virtual
  {
    var r1, t1 := FailedResetReachable(k, e);
    var run, t := NextHandled(Synced(map[k := e]), r1, t1);
    assert k in t.index.coins && k !in t.node.virtual;
  }

  /** A consensus is replaced, with a change set in flight, and the reset that follows is handled. */
  lemma ResetReachable(k: Key, e: Entry) returns (run: seq<Action>, t: State)
    ensures Reaches(Synced(map[]), run, t) && t.queue == [] && t.capacity == 1 && Quiet(t)
    ensures t.node == Node(map[], 2, Idle, false, false, true) && t.index == Index(map[], Some(2), false)
  {
    var s := Synced(map[]);
    var r1, t1 := Extend(s, [], s, Resolve(ChangeSet(map[], map[k := e], 1)));
    var r2, t2 := Extend(s, r1, t1, ReplaceConsensus(map[]));
    var r3, t3 := Extend(s, r2, t2, QueueOverride);
    assert t3.queue[1..] == [];
    run, t := Extend(s, r3, t3, Handle);
  }

  /** A call inside a replaced consensus sends an earlier change set, and it is handled. */
  lemma LateHandled(s: State, run: seq<Action>, t: State, c: ChangeSet) returns (longer: seq<Action>, u: State)
    requires Reaches(s, run, t) && t.queue == [] && t.capacity == 1 && c.parents < t.node.parents
    requires t.node.replaced && !t.node.overrideDue
    ensures Reaches(s, longer, u) && u.queue == [] && u.capacity == 1 && u.node == t.node
    ensures u.index == Index(IndexAfter(t.index.coins, c), Some(c.parents), t.index.needsReset)
    ensures u.log.silent == t.log.silent && u.log.late
  {
    var r1, t1 := Extend(s, run, t, SendReplaced(c, false));
    assert t1.queue[1..] == [];
    longer, u := Extend(s, r1, t1, Handle);
  }

  /** Nor is a call that was inside a consensus when it was replaced and sends its change set after the reset was
      queued: the index gets a coin of the replaced consensus, and once the new one delivers a change set even a
      restart keeps it, although nothing was lost. */
  lemma LateSendSurvives(k: Key, e: Entry)
    ensures exists s, run, t :: Initial(s) && Reaches(s, run, t) && t.queue == [] && !t.log.silent && t.log.late &&
              !ResetDue(t) && !Rebuilds(t) && Do(t, Restart).index.coins != t.node.virtual
  {
    var s := Synced(map[]);
    var r1, t1 := ResetReachable(k, e);
    var c := ChangeSet(map[], map[k := e], 1);
    var r2, t2 := LateHandled(s, r1, t1, c);
    assert k in t2.index.coins by { IndexAfterAt(map[], c, k); }
    var run, t := NextHandled(s, r2, t2);
    assert k in t.index.coins && k !in t.node.virtual;
  }

  // ----- The sending side as the consensus object runs it

  datatype BlockStatus = HeaderOnly | Invalid | OtherStatus

  /** The events channel, the flag and whether the call reported no error. */
  datatype Outcome = Outcome(queue: seq<Event>, dropped: bool, ok: bool)

  /** Sending a change set; `storesReadable` is whether the scores it is populated with could be read. */
  function Delivered(queue: seq<Event>, dropped: bool, capacity: nat, c: ChangeSet, storesReadable: bool): Outcome {
    if |queue| == capacity || !storesReadable then Outcome(queue, true, false)
    else Outcome(queue + [VirtualChanged(c, dropped)], false, true)
  }

  /** Announcing an inserted block: its own event, if it raises one, and then its change set, if it has one. */
  function Announced(queue: seq<Event>, dropped: bool, capacity: nat, raisesEvent: bool, changes: Option<ChangeSet>,
                     storesReadable: bool): Outcome {
    if raisesEvent && |queue| == capacity then Outcome(queue, dropped || changes.Some?, false)
    else
      var more := if raisesEvent then queue + [BlockAdded] else queue;
      if changes.None? then Outcome(more, dropped, true)
      else Delivered(more, dropped, capacity, changes.value, storesReadable)
  }

  class Consensus {
    var virtualNotUpdated: bool
    var virtualChangeSetDropped: bool
    var events: seq<Event>
    const hasChannel: bool
    const capacity: nat

    constructor (hasChannel: bool, capacity: nat)
      ensures virtualNotUpdated && !virtualChangeSetDropped && events == []
      ensures this.hasChannel == hasChannel && this.capacity == capacity
    {
      virtualNotUpdated, virtualChangeSetDropped, events := true, false, [];
      this.hasChannel, this.capacity := hasChannel, capacity;
    }

    method SendBlockAddedEvent(status: BlockStatus) returns (ok: bool)
      requires |events| <= capacity
      modifies this`events
      ensures ok <==> !(hasChannel && status.OtherStatus? && |old(events)| == capacity)
      ensures events == if ok && hasChannel && status.OtherStatus? then old(events) + [BlockAdded] else old(events)
    {
      if hasChannel {
        if !status.OtherStatus? {
          return true;
        }
        if |events| == capacity {
          return false;
        }
        events := events + [BlockAdded];
      }
      return true;
    }

    method NoteVirtualChangeSetDropped(changes: Option<ChangeSet>, wasVirtualUpdated: bool)
      modifies this`virtualChangeSetDropped
      ensures virtualChangeSetDropped ==
              (old(virtualChangeSetDropped) || (wasVirtualUpdated && hasChannel && changes.Some?))
    {
      if wasVirtualUpdated && hasChannel && changes.Some? {
        virtualChangeSetDropped := true;
      }
    }

    method SendVirtualChangedEvent(changes: Option<ChangeSet>, wasVirtualUpdated: bool, storesReadable: bool)
      returns (ok: bool)
      requires |events| <= capacity
      modifies this`virtualChangeSetDropped, this`events
      ensures ok <==>
              !(wasVirtualUpdated && hasChannel && changes.Some?) || (|old(events)| < capacity && storesReadable)
      ensures !ok ==> virtualChangeSetDropped && events == old(events)
      ensures ok && wasVirtualUpdated && hasChannel && changes.Some? ==>
                !virtualChangeSetDropped &&
                events == old(events) + [VirtualChanged(changes.value, old(virtualChangeSetDropped))]
      ensures Outcome(events, virtualChangeSetDropped, ok) ==
              if wasVirtualUpdated && hasChannel && changes.Some?
              then Delivered(old(events), old(virtualChangeSetDropped), capacity, changes.value, storesReadable)
              else Outcome(old(events), old(virtualChangeSetDropped), true)
    {
      if !wasVirtualUpdated || !hasChannel || changes.None? {
        return true;
      }
      if |events| == capacity || !storesReadable {
        NoteVirtualChangeSetDropped(changes, wasVirtualUpdated);
        return false;
      }
      events := events + [VirtualChanged(changes.value, virtualChangeSetDropped)];
      virtualChangeSetDropped := false;
      return true;
    }

    /** The part of inserting a block that follows its commit and the pruning point update. */
    method AnnounceInsertedBlock(changes: Option<ChangeSet>, status: BlockStatus, updateVirtual: bool,
                                 storesReadable: bool) returns (ok: bool)
      requires |events| <= capacity
      modifies this
      ensures virtualNotUpdated == (old(virtualNotUpdated) || (!updateVirtual && !status.HeaderOnly?))
      ensures !ok ==> hasChannel &&
                      virtualChangeSetDropped == (old(virtualChangeSetDropped) || (updateVirtual && changes.Some?))
      ensures ok && updateVirtual && hasChannel && changes.Some? ==>
                !virtualChangeSetDropped &&
                events == old(events) + (if status.OtherStatus? then [BlockAdded] else []) +
                          [VirtualChanged(changes.value, old(virtualChangeSetDropped))]
      ensures Outcome(events, virtualChangeSetDropped, ok) ==
              if hasChannel
              then Announced(old(events), old(virtualChangeSetDropped), capacity, status.OtherStatus?,
                             if updateVirtual then changes else None, storesReadable)
              else Outcome(old(events), old(virtualChangeSetDropped), true)
    {
      if !updateVirtual && !status.HeaderOnly? {
        virtualNotUpdated := true;
      }
      ok := SendBlockAddedEvent(status);
      if !ok {
        NoteVirtualChangeSetDropped(changes, updateVirtual);
        return;
      }
      ok := SendVirtualChangedEvent(changes, updateVirtual, storesReadable);
    }
  }

  /** What the methods do to the channel and the flag is what the system's send actions do: the promises over
      every run are promises about this code. */
  lemma DeliveredIsAnAction(s: State, storesReadable: bool)
    requires s.node.stage.ChangeEvent? && |s.queue| <= s.capacity
    ensures var sent := Delivered(s.queue, s.node.dropped, s.capacity, s.node.stage.change, storesReadable);
            var a := if sent.ok then SendChanges else SendChangesFails;
            && Enabled(s, a) && Do(s, a).queue == sent.queue && Do(s, a).node.dropped == sent.dropped
            && Do(s, a).node.stage.Idle?
  {
  }

  lemma AnnouncedIsARun(s: State, raisesEvent: bool, storesReadable: bool) returns (run: seq<Action>, t: State)
    requires s.node.stage.BlockEvent? && |s.queue| <= s.capacity
    ensures Reaches(s, run, t) && t.node.stage.Idle?
    ensures forall a :: a in run ==> a.SendBlock? || a.SendBlockFails? || a.SendChanges? || a.SendChangesFails?
    ensures Announced(s.queue, s.node.dropped, s.capacity, raisesEvent, s.node.stage.changes, storesReadable) ==
            Outcome(t.queue, t.node.dropped, run[|run|-1].SendBlock? || run[|run|-1].SendChanges?)
  {
    if raisesEvent && |s.queue| == s.capacity {
      run, t := Extend(s, [], s, SendBlockFails);
    } else {
      run, t := Extend(s, [], s, SendBlock(raisesEvent));
      if t.node.stage.ChangeEvent? {
        DeliveredIsAnAction(t, storesReadable);
        var sent := Delivered(t.queue, t.node.dropped, t.capacity, t.node.stage.change, storesReadable);
        run, t := Extend(s, run, t, if sent.ok then SendChanges else SendChangesFails);
      }
    }
  }
}
