/** Swapping a staging consensus in: two database prefixes, an active and an inactive marker, and operations
    that can fail or be cut off by a crash between any two database writes. */
module PrefixSwap {
  import opened Utxo
  import opened Trace

  datatype Prefix = Zero | One

  function Flip(p: Prefix): Prefix {
    if p.Zero? then One else Zero
  }

  type Key = nat

  datatype Db = Db(active: Option<Prefix>, inactive: Option<Prefix>, zero: set<Key>, one: set<Key>)

  function Data(db: Db, p: Prefix): set<Key> {
    if p.Zero? then db.zero else db.one
  }

  function WithData(db: Db, p: Prefix, keys: set<Key>): Db {
    if p.Zero? then db.(zero := keys) else db.(one := keys)
  }

  /** Which operation DeleteInactivePrefix runs for. */
  datatype Caller = ForNew | ForCommit | ForDelete

  datatype Op =
    | Idle
    | Deleting(caller: Caller, cursor: Option<set<Key>>)  // DeleteInactivePrefix; what its cursor has still to visit
    | Activating                // New, before the active marker is known to exist
    | BuildingActive            // New, inside NewConsensus on the active prefix
    | BuildingStaging           // InitStagingConsensus, inside NewConsensus on the inactive prefix
    | Swapping                  // CommitStagingConsensus, after its transaction committed

  /** The process: the prefix of the consensus it serves and of its staging consensus, whether the staging
      consensus was closed, the prefixes of replaced consensuses that some call may still be inside, and the
      operation in progress under the staging lock. */
  datatype Memory = Memory(
    consensus: Option<Prefix>, staging: Option<Prefix>, stagingClosed: bool, replaced: set<Prefix>, op: Op)

  /** `damaged` are the prefixes some of whose data was deleted and which are not unmarked yet. `late` are the keys
      that calls inside a replaced consensus wrote after the cursor that deletes its prefix was opened, or after
      its marker was gone, and that were not deleted since. */
  datatype State = State(db: Db, memory: Option<Memory>, damaged: set<Prefix>, late: set<Key>)

  datatype Action =
    | Start                      // New is called
    | Crash
    | OpenCursor
    | DeleteKey(k: Key)
    | DeleteMarker
    | DeleteFails                // an error before the marker is deleted
    | CompactFails               // the marker is deleted, the compaction after it fails
    | Activate
    | StartFails                 // New returns an error
    | Build(keys: set<Key>)      // NewConsensus writes
    | Built
    | BuildFails
    | Write(keys: set<Key>)      // the served consensus writes
    | WriteStaging(keys: set<Key>)
    | WriteReplaced(p: Prefix, keys: set<Key>)  // a call that was inside a consensus when it was replaced writes
    | InitStaging
    | CommitStaging
    | SwapPointers
    | DeleteStaging

  ghost predicate Enabled(s: State, a: Action) {
    if a.Start? then s.memory.None? else
    s.memory.Some? &&
    var m := s.memory.value;
    match a
    case Crash => true
    case OpenCursor => m.op.Deleting? && m.op.cursor.None? && s.db.inactive.Some?
    case DeleteKey(k) =>
      m.op.Deleting? && m.op.cursor.Some? && s.db.inactive.Some? && k in Data(s.db, s.db.inactive.value)
    case DeleteMarker => m.op.Deleting? && (s.db.inactive.Some? ==> m.op.cursor == Some({}))
    case DeleteFails => m.op.Deleting?
    case CompactFails => m.op.Deleting? && m.op.cursor == Some({})
    case Activate => m.op.Activating?
    case StartFails => m.op.Activating? || m.op.BuildingActive?
    case Build(_) => m.op.BuildingActive? || m.op.BuildingStaging?
    case Built => m.op.BuildingActive? || m.op.BuildingStaging?
    case BuildFails => m.op.BuildingStaging?
    case Write(_) => m.consensus.Some?
    case WriteStaging(_) => m.staging.Some? && !m.stagingClosed
    case WriteReplaced(p, _) => p in m.replaced
    case InitStaging => m.op.Idle?
    case CommitStaging => m.op.Idle?
    case SwapPointers => m.op.Swapping?
    case DeleteStaging => m.op.Idle?
    case Start => false
  }

  function Remember(s: State, m: Memory): State {
    s.(memory := Some(m))
  }

  function AddKeys(s: State, p: Prefix, keys: set<Key>): State {
    s.(db := WithData(s.db, p, Data(s.db, p) + keys))
  }

  /** DeleteInactivePrefix returned nil. */
  function DeletedFor(s: State, m: Memory): State
    requires m.op.Deleting?
  {
    match m.op.caller
    case ForNew => Remember(s, m.(op := Activating))
    case ForCommit => Remember(s, m.(op := Idle))
    case ForDelete => Remember(s, m.(op := Idle, staging := None, stagingClosed := false))
  }

  /** DeleteInactivePrefix returned an error: New fails, a commit only logs it, and deleting a staging
      consensus returns it with the closed staging consensus still held. */
  function FailedFor(s: State, m: Memory): State
    requires m.op.Deleting?
  {
    match m.op.caller
    case ForNew => Ended(s)
    case _ => Remember(Stopped(s), m.(op := Idle))
  }

  /** A deletion that stops short leaves what it did not visit under the inactive marker. */
  function Stopped(s: State): State {
    if s.db.inactive.Some? then s.(late := {}) else s
  }

  function Ended(s: State): State {
    Stopped(s).(memory := None)
  }

  /** `p` is neither active, nor marked and still to be visited by a deletion. */
  predicate Uncovered(s: State, p: Prefix) {
    && s.db.active != Some(p)
    && (s.db.inactive != Some(p) ||
        (s.memory.Some? && s.memory.value.op.Deleting? && s.memory.value.op.cursor.Some?))
  }

  function Unmarked(s: State): State
    requires s.db.inactive.Some?
  {
    s.(db := s.db.(inactive := None), damaged := s.damaged - {s.db.inactive.value})
  }

  ghost function Do(s: State, a: Action): State
    requires Enabled(s, a)
  {
    if a.Start? then Remember(s, Memory(None, None, false, {}, Deleting(ForNew, None))) else
    var m := s.memory.value;
    match a
    case Crash => Ended(s)
    case OpenCursor => Remember(s, m.(op := Deleting(m.op.caller, Some(Data(s.db, s.db.inactive.value)))))
    case DeleteKey(k) => KeyDeleted(s, m, k)
    case DeleteMarker => DeletedFor(if s.db.inactive.Some? then Unmarked(s) else s, m)
    case DeleteFails => FailedFor(s, m)
    case CompactFails => FailedFor(if s.db.inactive.Some? then Unmarked(s) else s, m)
    case Activate =>
      Remember(s.(db := s.db.(active := if s.db.active.Some? then s.db.active else Some(Zero))),
               m.(op := BuildingActive))
    case StartFails => Ended(s)
    case Build(keys) =>
      var p := if m.op.BuildingActive? then s.db.active else s.db.inactive;
      if p.Some? then AddKeys(s, p.value, keys) else s
    case Built =>
      Remember(s, if m.op.BuildingActive? then m.(consensus := s.db.active, op := Idle)
                  else m.(staging := s.db.inactive, stagingClosed := false, op := Idle))
    case BuildFails => Remember(s, m.(op := Idle))
    case Write(keys) => AddKeys(s, m.consensus.value, keys)
    case WriteStaging(keys) => AddKeys(s, m.staging.value, keys)
    case WriteReplaced(p, keys) =>
      AddKeys(s, p, keys).(late := if Uncovered(s, p) then s.late + keys else s.late)
    case InitStaging =>
      if s.db.inactive.Some? || s.db.active.None? then s
      else Remember(s.(db := s.db.(inactive := Some(Flip(s.db.active.value))), late := {}), m.(op := BuildingStaging))
    case CommitStaging =>
      if s.db.inactive.None? || s.db.active.None? then s
      else Remember(s.(db := s.db.(active := s.db.inactive, inactive := s.db.active)), m.(op := Swapping))
    case SwapPointers => Remember(s, Swapped(m))
    case DeleteStaging => Remember(s, m.(stagingClosed := m.staging.Some?, op := Deleting(ForDelete, None)))
  }

  function KeyDeleted(s: State, m: Memory, k: Key): State
    requires m.op.Deleting? && m.op.cursor.Some?
  {
    if s.db.inactive.None? then s else
      var p := s.db.inactive.value;
      State(WithData(s.db, p, Data(s.db, p) - {k}),
            Some(m.(op := Deleting(m.op.caller, Some(m.op.cursor.value - {k})))), s.damaged + {p}, s.late - {k})
  }

  function Swapped(m: Memory): Memory {
    Memory(m.staging, None, false, if m.consensus.Some? then m.replaced + {m.consensus.value} else m.replaced,
           Deleting(ForCommit, None))
  }

  /** What the callers of CommitStagingConsensus see to: a staging consensus is held and was not closed. */
  ghost predicate Disciplined(s: State, a: Action) {
    a.CommitStaging? && s.memory.Some? ==> s.memory.value.staging.Some? && !s.memory.value.stagingClosed
  }

  ghost predicate Initial(s: State) {
    s == State(Db(None, None, {}, {}), None, {}, {})
  }

  ghost predicate Reaches(s: State, run: seq<Action>, t: State)
    decreases |run|
  {
    if run == [] then s == t else Enabled(s, run[0]) && Reaches(Do(s, run[0]), run[1..], t)
  }

  ghost predicate DisciplinedRun(s: State, run: seq<Action>)
    decreases |run|
  {
    run != [] ==>
      Enabled(s, run[0]) && Disciplined(s, run[0]) && DisciplinedRun(Do(s, run[0]), run[1..])
  }

  // ----- The invariant

  /** What the markers promise at every moment, crashed or not. */
  ghost predicate DbInv(s: State) {
    && (s.db.inactive.Some? ==> s.db.active.Some? && s.db.inactive.value == Flip(s.db.active.value))
    && (forall p :: p in s.damaged ==> s.db.inactive == Some(p))
  }

  /** What is stored outside the active prefix: what late writes left when there is no marker, and what the open
      cursor has still to visit besides when there is one. */
  ghost predicate LateInv(s: State) {
    if s.db.inactive.None? then forall p :: s.db.active != Some(p) ==> Data(s.db, p) == s.late
    else if s.memory.Some? && s.memory.value.op.Deleting? && s.memory.value.op.cursor.Some?
    then Data(s.db, s.db.inactive.value) == s.memory.value.op.cursor.value + s.late
    else s.late == {}
  }

  ghost predicate MemoryInv(s: State, m: Memory) {
    && (m.op.BuildingStaging? ==> s.db.inactive.Some? && s.db.inactive.value !in s.damaged)
    && (m.op.BuildingActive? ==> s.db.active.Some?)
    && (m.op.Activating? || m.op.BuildingActive? ==>
          m.consensus.None? && m.staging.None? && m.replaced == {} && s.db.inactive.None?)
    && (m.op.Deleting? ==>
          match m.op.caller
          case ForNew => m.consensus.None? && m.staging.None? && m.replaced == {}
          case ForCommit => m.staging.None?
          case ForDelete => m.stagingClosed || m.staging.None?)
    && (m.op.Deleting? && m.op.cursor.Some? ==> s.db.inactive.Some?)
    && (m.consensus.Some? || m.replaced != {} ==> s.db.active.Some?)
    && (m.consensus.Some? ==> m.consensus == if m.op.Swapping? then s.db.inactive else s.db.active)
    && (m.op.Swapping? ==> m.staging == s.db.active)
    && (m.staging.Some? && !m.op.Swapping? ==> s.db.active.Some? && m.staging.value == Flip(s.db.active.value))
    && (m.staging.Some? && !m.stagingClosed ==>
          if m.op.Swapping? then s.db.active == m.staging
          else s.db.inactive == m.staging && m.staging.value !in s.damaged && !m.op.BuildingStaging?)
  }

  ghost predicate Inv(s: State) {
    DbInv(s) && LateInv(s) && (s.memory.Some? ==> MemoryInv(s, s.memory.value))
  }

  lemma ActionKeepsDbInv(s: State, a: Action)
    requires Inv(s) && Enabled(s, a) && Disciplined(s, a)
    ensures DbInv(Do(s, a))
  {
  }

  lemma ActionKeepsLateInv(s: State, a: Action)
    requires Inv(s) && Enabled(s, a) && Disciplined(s, a)
    ensures LateInv(Do(s, a))
  {
    var t := Do(s, a);
    match a {
      case DeleteKey(k) =>
        var m := s.memory.value;
        assert Data(t.db, t.db.inactive.value) == (m.op.cursor.value - {k}) + (s.late - {k});
      case DeleteMarker => assert s.db.inactive.Some? ==> Data(t.db, s.db.inactive.value) == s.late;
      case CompactFails => assert s.db.inactive.Some? ==> Data(t.db, s.db.inactive.value) == s.late;
      case OpenCursor => assert Data(t.db, t.db.inactive.value) == t.memory.value.op.cursor.value + {};
      case WriteReplaced(p, keys) => LateWriteKept(s, p, keys);
      case _ =>
    }
  }

  lemma LateWriteKept(s: State, p: Prefix, keys: set<Key>)
    requires Inv(s) && Enabled(s, WriteReplaced(p, keys))
    ensures LateInv(Do(s, WriteReplaced(p, keys)))
  {
    var t := Do(s, WriteReplaced(p, keys));
    assert Data(t.db, p) == Data(s.db, p) + keys;
    if t.db.inactive.None? {
      forall q | t.db.active != Some(q) ensures Data(t.db, q) == t.late {
        assert Data(s.db, q) == s.late;
        assert q == p || Data(t.db, q) == Data(s.db, q);
        assert q == Flip(t.db.active.value);
      }
    } else if t.db.inactive == Some(p) && Uncovered(s, p) {
      assert Data(t.db, p) == s.memory.value.op.cursor.value + (s.late + keys);
    }
  }

  lemma ActionKeepsMemoryInv(s: State, a: Action)
    requires Inv(s) && Enabled(s, a) && Disciplined(s, a) && Do(s, a).memory.Some?
    ensures MemoryInv(Do(s, a), Do(s, a).memory.value)
  {
  }

  lemma ActionKeepsInv(s: State, a: Action)
    requires Inv(s) && Enabled(s, a) && Disciplined(s, a)
    ensures Inv(Do(s, a))
  {
    ActionKeepsDbInv(s, a);
    ActionKeepsLateInv(s, a);
    if Do(s, a).memory.Some? {
      ActionKeepsMemoryInv(s, a);
    }
  }

  lemma {:induction false} RunKeepsInv(s: State, run: seq<Action>, t: State)
    requires Inv(s) && DisciplinedRun(s, run) && Reaches(s, run, t)
    ensures Inv(t)
    decreases |run|
  {
    if run != [] {
      ActionKeepsInv(s, run[0]);
      RunKeepsInv(Do(s, run[0]), run[1..], t);
    }
  }

  // ----- What the actions of a run say about the database

  /** The state a disciplined run is in after its first `n` actions. */
  ghost predicate At(s: State, run: seq<Action>, n: nat, t: State) {
    n <= |run| && Reaches(s, run[..n], t) && DisciplinedRun(s, run[..n])
  }

  lemma {:induction false} Unsnoc(s: State, run: seq<Action>, u: State) returns (t: State)
    requires run != [] && Reaches(s, run, u) && DisciplinedRun(s, run)
    ensures var front, a := run[..|run|-1], run[|run|-1];
            && Reaches(s, front, t) && DisciplinedRun(s, front)
            && Enabled(t, a) && Disciplined(t, a) && u == Do(t, a)
    decreases |run|
  {
    if |run| == 1 {
      t := s;
      assert run[1..] == [];
    } else {
      assert run[1..][..|run|-2] == run[..|run|-1][1..];
      t := Unsnoc(Do(s, run[0]), run[1..], u);
    }
  }

  lemma LastStep(s: State, run: seq<Action>, n: nat, u: State) returns (t: State)
    requires Initial(s) && 0 < n && At(s, run, n, u)
    ensures At(s, run, n - 1, t) && Enabled(t, run[n-1]) && Disciplined(t, run[n-1]) && u == Do(t, run[n-1])
    ensures Inv(t)
  {
    assert run[..n][..n-1] == run[..n-1];
    t := Unsnoc(s, run[..n], u);
    RunKeepsInv(s, run[..n-1], t);
  }

  ghost function Activates(run: seq<Action>): nat -> bool {
    (i: nat) => i < |run| && run[i].Activate?
  }

  /** How many staging consensuses were committed. */
  function Commits(run: seq<Action>, n: nat): nat
    requires n <= |run|
  {
    if n == 0 then 0 else Commits(run, n - 1) + if run[n-1].CommitStaging? then 1 else 0
  }

  /** The prefix that is active by then: the first one is Zero, and every commit swaps. */
  function ActiveBy(run: seq<Action>, n: nat): Prefix
    requires n <= |run|
  {
    if Commits(run, n) % 2 == 0 then Zero else One
  }

  /** Once New has seen to the active marker, it is there. */
  ghost predicate ActiveKnown(s: State) {
    s.memory.None? || s.db.active.Some? || s.memory.value.op.Activating? ||
    (s.memory.value.op.Deleting? && s.memory.value.op.caller.ForNew?)
  }

  lemma StepActive(t: State, a: Action)
    requires Inv(t) && ActiveKnown(t) && Enabled(t, a) && Disciplined(t, a)
    ensures ActiveKnown(Do(t, a))
    ensures Do(t, a).db.active == if a.CommitStaging? then t.db.inactive
                                  else if a.Activate? && t.db.active.None? then Some(Zero) else t.db.active
    ensures a.CommitStaging? ==> t.db.active.Some? && t.db.inactive == Some(Flip(t.db.active.value))
  {
  }

  /** There is an active marker exactly from New's first success on, and every commit swaps the prefix it names. */
  lemma {:induction false} ActiveFollows(s: State, run: seq<Action>, n: nat, t: State)
    requires Initial(s) && At(s, run, n, t)
    ensures t.db.active.Some? <==> !NoneFrom(Activates(run), 0, n)
    ensures t.db.active.Some? ==> t.db.active.value == ActiveBy(run, n)
    ensures t.db.active.None? ==> Commits(run, n) == 0
    ensures ActiveKnown(t)
    decreases n
  {
    if n > 0 {
      var before := LastStep(s, run, n, t);
      ActiveFollows(s, run, n - 1, before);
      NoneFromOn(Activates(run), 0, n - 1);
      StepActive(before, run[n-1]);
    }
  }

  /** Which actions leave an inactive marker, and which delete it. */
  ghost function Marks(run: seq<Action>): nat -> bool {
    (i: nat) => i < |run| && (run[i].InitStaging? || run[i].CommitStaging?)
  }

  ghost function Unmarks(run: seq<Action>): nat -> bool {
    (i: nat) => i < |run| && (run[i].DeleteMarker? || run[i].CompactFails?)
  }

  lemma {:induction false} InactiveFollows(s: State, run: seq<Action>, n: nat, t: State)
    requires Initial(s) && At(s, run, n, t)
    ensures t.db.inactive.Some? <==> Standing(Marks(run), Unmarks(run), n)
    ensures t.db.inactive.Some? ==> t.db.inactive == Some(Flip(ActiveBy(run, n))) && t.db.active.Some?
    decreases n
  {
    if n > 0 {
      var before := LastStep(s, run, n, t);
      InactiveFollows(s, run, n - 1, before);
      ActiveFollows(s, run, n - 1, before);
      ActiveFollows(s, run, n, t);
      StandingOn(Marks(run), Unmarks(run), n - 1);
      ActionKeepsDbInv(before, run[n-1]);
      StepInactive(before, run[n-1]);
    }
  }

  lemma StepInactive(t: State, a: Action)
    requires Inv(t) && ActiveKnown(t) && Enabled(t, a) && Disciplined(t, a)
    ensures Do(t, a).db.inactive.Some? <==>
            a.InitStaging? || a.CommitStaging? || (t.db.inactive.Some? && !a.DeleteMarker? && !a.CompactFails?)
  {
  }

  /** Which actions begin and end the time between a commit's transaction and its pointer swap. */
  ghost function StartsSwap(run: seq<Action>): nat -> bool {
    (i: nat) => i < |run| && run[i].CommitStaging?
  }

  ghost function EndsSwap(run: seq<Action>): nat -> bool {
    (i: nat) => i < |run| && (run[i].SwapPointers? || run[i].Crash?)
  }

  ghost function StartsStaging(run: seq<Action>): nat -> bool {
    (i: nat) => i < |run| && run[i].InitStaging?
  }

  lemma StepOp(t: State, a: Action)
    requires Inv(t) && ActiveKnown(t) && Enabled(t, a) && Disciplined(t, a)
    ensures var u := Do(t, a);
            && (Swaps(u) <==> a.CommitStaging? || (Swaps(t) && !a.SwapPointers? && !a.Crash?))
            && (Builds(u, true) ==> a.InitStaging? || (Builds(t, true) && !a.Activate?))
            && (Builds(u, false) ==> a.Activate? || (Builds(t, false) && !a.InitStaging?))
  {
  }

  ghost predicate Swaps(s: State) {
    s.memory.Some? && s.memory.value.op.Swapping?
  }

  /** NewConsensus is building a staging consensus, or the one to serve. */
  ghost predicate Builds(s: State, staging: bool) {
    s.memory.Some? && if staging then s.memory.value.op.BuildingStaging? else s.memory.value.op.BuildingActive?
  }

  lemma {:induction false} OpFollows(s: State, run: seq<Action>, n: nat, t: State)
    requires Initial(s) && At(s, run, n, t)
    ensures Swaps(t) <==> Standing(StartsSwap(run), EndsSwap(run), n)
    ensures Builds(t, true) ==> Standing(StartsStaging(run), Activates(run), n)
    ensures Builds(t, false) ==> !Standing(StartsStaging(run), Activates(run), n)
    decreases n
  {
    if n > 0 {
      var before := LastStep(s, run, n, t);
      OpFollows(s, run, n - 1, before);
      ActiveFollows(s, run, n - 1, before);
      StandingOn(StartsSwap(run), EndsSwap(run), n - 1);
      StandingOn(StartsStaging(run), Activates(run), n - 1);
      StepOp(before, run[n-1]);
    }
  }

  /** The prefix of the consensus served by then: the active one, except during a swap. */
  ghost function ServedBy(run: seq<Action>, n: nat): Prefix
    requires n <= |run|
  {
    if Standing(StartsSwap(run), EndsSwap(run), n) then Flip(ActiveBy(run, n)) else ActiveBy(run, n)
  }

  /** Which actions write `k` under `p`: the served consensus, its staging consensus, a replaced one, or a consensus
      that is being built, each under its own prefix. */
  ghost function WritesKey(run: seq<Action>, p: Prefix, k: Key): nat -> bool {
    (i: nat) => i < |run| &&
      match run[i]
      case Write(keys) => k in keys && p == ServedBy(run, i)
      case WriteStaging(keys) => k in keys && p == Flip(ServedBy(run, i))
      case WriteReplaced(q, keys) => k in keys && p == q
      case Build(keys) =>
        k in keys &&
        p == if Standing(StartsStaging(run), Activates(run), i) then Flip(ActiveBy(run, i)) else ActiveBy(run, i)
      case _ => false
  }

  /** Which delete it: only ever from the inactive prefix. */
  ghost function DeletesKey(run: seq<Action>, p: Prefix, k: Key): nat -> bool {
    (i: nat) => i < |run| && run[i] == DeleteKey(k) && p == Flip(ActiveBy(run, i))
  }

  lemma StepData(t: State, a: Action, p: Prefix, k: Key)
    requires Inv(t) && Enabled(t, a) && Disciplined(t, a)
    ensures var writes := match a
                          case Write(keys) => k in keys && t.memory.value.consensus == Some(p)
                          case WriteStaging(keys) => k in keys && t.memory.value.staging == Some(p)
                          case WriteReplaced(q, keys) => k in keys && p == q
                          case Build(keys) =>
                            k in keys && Some(p) == if Builds(t, false) then t.db.active else t.db.inactive
                          case _ => false;
            k in Data(Do(t, a).db, p) <==>
            writes || (k in Data(t.db, p) && !(a == DeleteKey(k) && t.db.inactive == Some(p)))
  {
  }

  /** A prefix holds what was written under it, by whom it belonged to, and not deleted since. */
  lemma {:induction false} DataFollows(s: State, run: seq<Action>, n: nat, t: State, p: Prefix, k: Key)
    requires Initial(s) && At(s, run, n, t)
    ensures k in Data(t.db, p) <==> Standing(WritesKey(run, p, k), DeletesKey(run, p, k), n)
    decreases n
  {
    if n > 0 {
      var before := LastStep(s, run, n, t);
      DataFollows(s, run, n - 1, before, p, k);
      ActiveFollows(s, run, n - 1, before);
      InactiveFollows(s, run, n - 1, before);
      OpFollows(s, run, n - 1, before);
      StandingOn(WritesKey(run, p, k), DeletesKey(run, p, k), n - 1);
      StepData(before, run[n-1], p, k);
    }
  }

  /** Which actions delete data of `p`, and which then delete the marker. */
  ghost function Damages(run: seq<Action>, p: Prefix): nat -> bool {
    (i: nat) => i < |run| && run[i].DeleteKey? && p == Flip(ActiveBy(run, i))
  }

  lemma {:induction false} DamageFollows(s: State, run: seq<Action>, n: nat, t: State, p: Prefix)
    requires Initial(s) && At(s, run, n, t)
    ensures p in t.damaged <==> Standing(Damages(run, p), Unmarks(run), n)
    decreases n
  {
    if n > 0 {
      var before := LastStep(s, run, n, t);
      DamageFollows(s, run, n - 1, before, p);
      InactiveFollows(s, run, n - 1, before);
      StandingOn(Damages(run, p), Unmarks(run), n - 1);
      StepDamage(before, run[n-1], p);
    }
  }

  lemma StepDamage(t: State, a: Action, p: Prefix)
    requires Inv(t) && Enabled(t, a) && Disciplined(t, a)
    ensures p in Do(t, a).damaged <==>
            (a.DeleteKey? && t.db.inactive == Some(p)) || (p in t.damaged && !a.DeleteMarker? && !a.CompactFails?)
  {
  }

  // ----- And about the process

  ghost function Starts(run: seq<Action>): nat -> bool {
    (i: nat) => i < |run| && run[i].Start?
  }

  /** Which actions begin a deletion for another caller than New. */
  ghost function DeletesForOthers(run: seq<Action>): nat -> bool {
    (i: nat) => i < |run| && (run[i].SwapPointers? || run[i].DeleteStaging?)
  }

  ghost function DeletesStaging(run: seq<Action>): nat -> bool {
    (i: nat) => i < |run| && run[i].DeleteStaging?
  }

  ghost function DeletesNotStaging(run: seq<Action>): nat -> bool {
    (i: nat) => i < |run| && (run[i].SwapPointers? || run[i].Start?)
  }

  ghost predicate DeletesFor(s: State, caller: Caller) {
    s.memory.Some? && s.memory.value.op.Deleting? && s.memory.value.op.caller == caller
  }

  lemma StepCaller(t: State, a: Action)
    requires Enabled(t, a)
    ensures var u := Do(t, a);
            && (DeletesFor(u, ForNew) ==> a.Start? || (DeletesFor(t, ForNew) && !a.SwapPointers? && !a.DeleteStaging?))
            && (DeletesFor(u, ForCommit) ==>
                  a.SwapPointers? || (DeletesFor(t, ForCommit) && !a.Start? && !a.DeleteStaging?))
            && (DeletesFor(u, ForDelete) ==>
                  a.DeleteStaging? || (DeletesFor(t, ForDelete) && !a.Start? && !a.SwapPointers?))
  {
  }

  /** Whom a deletion that is going on runs for. */
  lemma {:induction false} CallerFollows(s: State, run: seq<Action>, n: nat, t: State)
    requires Initial(s) && At(s, run, n, t)
    ensures DeletesFor(t, ForNew) ==> Standing(Starts(run), DeletesForOthers(run), n)
    ensures DeletesFor(t, ForCommit) || DeletesFor(t, ForDelete) ==>
              (DeletesFor(t, ForDelete) <==> Standing(DeletesStaging(run), DeletesNotStaging(run), n)) &&
              !Standing(Starts(run), DeletesForOthers(run), n)
    decreases n
  {
    if n > 0 {
      var before := LastStep(s, run, n, t);
      CallerFollows(s, run, n - 1, before);
      StandingOn(Starts(run), DeletesForOthers(run), n - 1);
      StandingOn(DeletesStaging(run), DeletesNotStaging(run), n - 1);
      StepCaller(before, run[n-1]);
    }
  }

  /** Which actions end the process: a crash, and an error while New runs. */
  ghost function EndsProcess(run: seq<Action>): nat -> bool {
    (i: nat) => i < |run| && (run[i].Crash? || run[i].StartFails? ||
                              ((run[i].DeleteFails? || run[i].CompactFails?) &&
                               Standing(Starts(run), DeletesForOthers(run), i)))
  }

  lemma StepProcess(t: State, a: Action)
    requires Enabled(t, a)
    ensures Do(t, a).memory.Some? <==>
            a.Start? || (t.memory.Some? && !a.Crash? && !a.StartFails? &&
                         !((a.DeleteFails? || a.CompactFails?) && DeletesFor(t, ForNew)))
  {
  }

  lemma {:induction false} ProcessFollows(s: State, run: seq<Action>, n: nat, t: State)
    requires Initial(s) && At(s, run, n, t)
    ensures t.memory.Some? <==> Standing(Starts(run), EndsProcess(run), n)
    decreases n
  {
    if n > 0 {
      var before := LastStep(s, run, n, t);
      ProcessFollows(s, run, n - 1, before);
      CallerFollows(s, run, n - 1, before);
      StandingOn(Starts(run), EndsProcess(run), n - 1);
      StepProcess(before, run[n-1]);
    }
  }

  /** Which actions begin an operation under the staging lock: an InitStagingConsensus only where there is no inactive
      marker. */
  ghost function BeginsOperation(run: seq<Action>): nat -> bool {
    (i: nat) => i < |run| && (run[i].Start? || run[i].CommitStaging? || run[i].DeleteStaging? ||
                              (run[i].InitStaging? && !Standing(Marks(run), Unmarks(run), i)))
  }

  /** Which end it: New goes on after its deletion, and a commit goes on to its own. */
  ghost function EndsOperation(run: seq<Action>): nat -> bool {
    (i: nat) => i < |run| &&
                (run[i].Built? || run[i].BuildFails? || run[i].DeleteFails? || run[i].CompactFails? ||
                 run[i].StartFails? || run[i].Crash? ||
                 (run[i].DeleteMarker? && !Standing(Starts(run), DeletesForOthers(run), i)))
  }

  ghost predicate Busy(s: State) {
    s.memory.Some? && !s.memory.value.op.Idle?
  }

  lemma StepBusy(t: State, a: Action)
    requires Inv(t) && ActiveKnown(t) && Enabled(t, a) && Disciplined(t, a)
    ensures var begins := a.Start? || a.CommitStaging? || a.DeleteStaging? || (a.InitStaging? && t.db.inactive.None?);
            var ends := a.Built? || a.BuildFails? || a.DeleteFails? || a.CompactFails? || a.StartFails? || a.Crash? ||
                        (a.DeleteMarker? && !DeletesFor(t, ForNew));
            Busy(Do(t, a)) <==> begins || (Busy(t) && !ends)
  {
  }

  /** An operation is in progress exactly from its beginning to its end. */
  lemma {:induction false} OperationFollows(s: State, run: seq<Action>, n: nat, t: State)
    requires Initial(s) && At(s, run, n, t)
    ensures Busy(t) <==> Standing(BeginsOperation(run), EndsOperation(run), n)
    decreases n
  {
    if n > 0 {
      var before := LastStep(s, run, n, t);
      OperationFollows(s, run, n - 1, before);
      CallerFollows(s, run, n - 1, before);
      ActiveFollows(s, run, n - 1, before);
      InactiveFollows(s, run, n - 1, before);
      StandingOn(BeginsOperation(run), EndsOperation(run), n - 1);
      StepBusy(before, run[n-1]);
    }
  }

  /** Which actions hand over a staging consensus, and which give it up. */
  ghost function GetsStaging(run: seq<Action>): nat -> bool {
    (i: nat) => i < |run| && run[i].Built? && Standing(StartsStaging(run), Activates(run), i)
  }

  ghost function LosesStaging(run: seq<Action>): nat -> bool {
    (i: nat) => i < |run| && (run[i].SwapPointers? || run[i].Crash? ||
                              (run[i].DeleteMarker? && Standing(DeletesStaging(run), DeletesNotStaging(run), i)))
  }

  ghost predicate HoldsStaging(s: State) {
    s.memory.Some? && s.memory.value.staging.Some?
  }

  lemma StepStaging(t: State, a: Action)
    requires Inv(t) && Enabled(t, a) && Disciplined(t, a)
    ensures HoldsStaging(Do(t, a)) <==>
            (a.Built? && Builds(t, true)) ||
            (HoldsStaging(t) && !a.SwapPointers? && !a.Crash? && !(a.DeleteMarker? && DeletesFor(t, ForDelete)))
  {
  }

  lemma {:induction false} StagingFollows(s: State, run: seq<Action>, n: nat, t: State)
    requires Initial(s) && At(s, run, n, t)
    ensures HoldsStaging(t) <==> Standing(GetsStaging(run), LosesStaging(run), n)
    decreases n
  {
    if n > 0 {
      var before := LastStep(s, run, n, t);
      StagingFollows(s, run, n - 1, before);
      CallerFollows(s, run, n - 1, before);
      OpFollows(s, run, n - 1, before);
      StandingOn(GetsStaging(run), LosesStaging(run), n - 1);
      StepStaging(before, run[n-1]);
    }
  }

  // ----- The promises

  /** At every moment of every run, crashes and errors included: the inactive prefix is the flip of the active
      one, nothing was deleted from the active prefix's data, and all data outside the active prefix is covered
      by the inactive marker if and only if no late write through a replaced consensus is left without it. */
  lemma DatabaseAlwaysSound(s: State, run: seq<Action>, t: State)
    requires Initial(s) && DisciplinedRun(s, run) && Reaches(s, run, t)
    ensures t.db.inactive.Some? ==> t.db.active.Some? && t.db.inactive.value == Flip(t.db.active.value)
    ensures t.db.active.Some? ==> t.db.active.value !in t.damaged
    ensures t.db.active.Some? ==>
              t.db.active.value == ActiveBy(run, |run|) &&
              !Standing(Damages(run, ActiveBy(run, |run|)), Unmarks(run), |run|)
    ensures (forall p :: Data(t.db, p) != {} ==> t.db.active == Some(p) || t.db.inactive == Some(p)) <==>
            t.db.inactive.Some? || t.late == {}
  {
    RunKeepsInv(s, run, t);
    assert t.db.active != Some(Zero) || t.db.active != Some(One);
    assert run[..|run|] == run;
    ActiveFollows(s, run, |run|, t);
    DamageFollows(s, run, |run|, t, ActiveBy(run, |run|));
  }

  /** No single step deletes data of the prefix that stays active. */
  lemma ActiveDataOnlyGrows(s: State, run: seq<Action>, t: State, a: Action, p: Prefix)
    requires Initial(s) && DisciplinedRun(s, run) && Reaches(s, run, t) && Enabled(t, a)
    requires t.db.active == Some(p)
    ensures Data(t.db, p) <= Data(Do(t, a).db, p)
  {
    RunKeepsInv(s, run, t);
  }

  /** A staging consensus starts on the late writes, and on nothing else: on an empty prefix if and only if there is
      none. */
  lemma StagingStartsEmpty(s: State, run: seq<Action>, t: State)
    requires Initial(s) && DisciplinedRun(s, run) && Reaches(s, run, t) && Enabled(t, InitStaging)
    requires Do(t, InitStaging).memory.value.op.BuildingStaging?
    ensures var u := Do(t, InitStaging); u.db.inactive.Some? && Data(u.db, u.db.inactive.value) == t.late
  {
    RunKeepsInv(s, run, t);
  }

  /** Whatever state a crash left behind, a start that succeeds serves the active prefix, with no inactive marker and
      nothing stored outside it but late writes, which no start deletes. */
  lemma RestartCleansUp(s: State, run: seq<Action>, t: State)
    requires Initial(s) && DisciplinedRun(s, run) && Reaches(s, run, t)
    requires t.memory.Some? && t.memory.value.op.BuildingActive?
    ensures var u := Do(t, Built);
            && u.memory.value.consensus == u.db.active && u.db.active.Some?
            && u.db.inactive.None? && Data(u.db, Flip(u.db.active.value)) == t.late
  {
    RunKeepsInv(s, run, t);
    assert t.db.active != Some(Flip(t.db.active.value));
  }

  /** The served consensus is the one the database calls active, except between a commit's transaction and its
      pointer swap. */
  lemma ServesTheActivePrefix(s: State, run: seq<Action>, t: State)
    requires Initial(s) && DisciplinedRun(s, run) && Reaches(s, run, t)
    requires t.memory.Some? && t.memory.value.consensus.Some? && !t.memory.value.op.Swapping?
    ensures t.memory.value.consensus == t.db.active
  {
    RunKeepsInv(s, run, t);
  }

  /** Without calls left inside a replaced consensus there are no late writes. */
  ghost predicate NoLateWrites(run: seq<Action>) {
    forall i :: 0 <= i < |run| ==> !run[i].WriteReplaced?
  }

  lemma {:induction false} NoLateWritesNoLate(s: State, run: seq<Action>, t: State)
    requires s.late == {} && NoLateWrites(run) && Reaches(s, run, t)
    ensures t.late == {}
    decreases |run|
  {
    if run != [] {
      assert !run[0].WriteReplaced?;
      NoLateWritesNoLate(Do(s, run[0]), run[1..], t);
    }
  }

  /** The process can crash at any time, every operation can fail at each of its steps, and everyone who has a consensus
      can write through it. */
  lemma AnythingCanFail(s: State, p: Prefix, keys: set<Key>)
    requires s.memory.Some?
    ensures Enabled(s, Crash)
    ensures var m := s.memory.value;
            && (m.op.Deleting? ==> Enabled(s, DeleteFails))
            && (m.op.Deleting? && m.op.cursor == Some({}) ==> Enabled(s, CompactFails))
            && (m.op.Activating? || m.op.BuildingActive? ==> Enabled(s, StartFails))
            && (m.op.BuildingActive? || m.op.BuildingStaging? ==> Enabled(s, Build(keys)))
            && (m.op.BuildingStaging? ==> Enabled(s, BuildFails))
            && (m.consensus.Some? ==> Enabled(s, Write(keys)))
            && (m.staging.Some? && !m.stagingClosed ==> Enabled(s, WriteStaging(keys)))
            && (p in m.replaced ==> Enabled(s, WriteReplaced(p, keys)))
            && (m.op.Idle? ==> Enabled(s, InitStaging) && Enabled(s, CommitStaging) && Enabled(s, DeleteStaging))
  {
  }

  // ----- Runs that go wrong

  lemma {:induction false} Extend(s: State, run: seq<Action>, t: State, a: Action)
    returns (longer: seq<Action>, u: State)
    requires Reaches(s, run, t) && Enabled(t, a)
    ensures longer == run + [a] && u == Do(t, a) && Reaches(s, longer, u)
    ensures DisciplinedRun(s, run) && Disciplined(t, a) ==> DisciplinedRun(s, longer)
    decreases |run|
  {
    longer, u := run + [a], Do(t, a);
    if run == [] {
      assert longer[1..] == [];
      assert Reaches(u, [], u);
    } else {
      assert longer[1..] == run[1..] + [a];
      var _, _ := Extend(Do(s, run[0]), run[1..], t, a);
    }
  }

  function Served(): State {
    State(Db(Some(Zero), None, {1}, {}), Some(Memory(Some(Zero), None, false, {}, Idle)), {}, {})
  }

  /** A served consensus after a commit, with the deletion of the previous one's data at `op`. */
  function Committed(inactive: Option<Prefix>, zero: set<Key>, op: Op, damaged: set<Prefix>, late: set<Key>): State {
    State(Db(Some(One), inactive, zero, {}), Some(Memory(Some(One), None, false, {Zero}, op)), damaged, late)
  }

  lemma ServedReachable() returns (s: State, run: seq<Action>)
    ensures Initial(s) && Reaches(s, run, Served()) && DisciplinedRun(s, run)
  {
    s := State(Db(None, None, {}, {}), None, {}, {});
    var r1, t1 := Extend(s, [], s, Start);
    var r2, t2 := Extend(s, r1, t1, DeleteMarker);
    var r3, t3 := Extend(s, r2, t2, Activate);
    var r4, t4 := Extend(s, r3, t3, Build({1}));
    var r5, t5 := Extend(s, r4, t4, Built);
    run := r5;
    assert {} + {1} == {1};
    assert t5 == Served();
  }

  lemma CommitReachable() returns (s: State, run: seq<Action>, t: State)
    ensures Initial(s) && Reaches(s, run, t) && DisciplinedRun(s, run)
    ensures t == Committed(Some(Zero), {1}, Deleting(ForCommit, None), {}, {})
  {
    s, run := ServedReachable();
    var r6, t6 := Extend(s, run, Served(), InitStaging);
    var r7, t7 := Extend(s, r6, t6, Built);
    var r8, t8 := Extend(s, r7, t7, CommitStaging);
    run, t := Extend(s, r8, t8, SwapPointers);
    assert {} + {Zero} == {Zero};
  }

  lemma KeyDeletedReachable() returns (s: State, run: seq<Action>, t: State)
    ensures Initial(s) && Reaches(s, run, t) && DisciplinedRun(s, run)
    ensures t == Committed(Some(Zero), {}, Deleting(ForCommit, Some({})), {Zero}, {})
  {
    s, run, t := CommitReachable();
    var r1, t1 := Extend(s, run, t, OpenCursor);
    run, t := Extend(s, r1, t1, DeleteKey(1));
    assert {1} - {1} == {} && {} + {Zero} == {Zero} && {} - {1} == {};
  }

  /** A call that was inside the previous consensus when it was replaced can write after that prefix was deleted: the
      data is covered by no marker, survives a restart, and the next staging consensus starts on it. */
  lemma LateWriteIsUncovered()
    ensures exists s, run, t :: Initial(s) && DisciplinedRun(s, run) && Reaches(s, run, t) && t.late != {} &&
              t.db.active == Some(One) && t.db.inactive.None? && t.db.zero == {2} && Enabled(t, InitStaging) &&
              Data(Do(t, InitStaging).db, Zero) == {2} && Do(t, Crash).db.zero == {2}
  {
    var s, run, t := KeyDeletedReachable();
    var r1, t1 := Extend(s, run, t, DeleteMarker);
    assert {Zero} - {Zero} == {};
    assert t1 == Committed(None, {}, Idle, {}, {});
    LateWriteFrom(s, r1);
  }

  lemma LateWriteFrom(s: State, run: seq<Action>)
    requires Initial(s) && DisciplinedRun(s, run) && Reaches(s, run, Committed(None, {}, Idle, {}, {}))
    ensures exists longer, t :: DisciplinedRun(s, longer) && Reaches(s, longer, t) && t.late != {} &&
              t.db.active == Some(One) && t.db.inactive.None? && t.db.zero == {2} && Enabled(t, InitStaging) &&
              Data(Do(t, InitStaging).db, Zero) == {2} && Do(t, Crash).db.zero == {2}
  {
    var longer, t := Extend(s, run, Committed(None, {}, Idle, {}, {}), WriteReplaced(Zero, {2}));
    assert {} + {2} == {2};
    assert t == Committed(None, {2}, Idle, {}, {2});
  }

  /** Exactly when a commit that finds an inactive marker leaves the node serving an undamaged active prefix: when
      it holds a staging consensus and no deletion of the inactive prefix had begun. */
  lemma CommitSoundIff(s: State, run: seq<Action>, t: State)
    requires Initial(s) && DisciplinedRun(s, run) && Reaches(s, run, t)
    requires t.memory.Some? && t.memory.value.op.Idle? && t.db.inactive.Some?
    ensures t.db.active.Some?
    ensures var u := Do(Do(t, CommitStaging), SwapPointers);
            u.memory.value.consensus == u.db.active && u.db.active.value !in u.damaged <==>
            t.memory.value.staging.Some? && t.db.inactive.value !in t.damaged
  {
    RunKeepsInv(s, run, t);
  }

  /** The discipline is needed: CommitStagingConsensus only asks for an inactive marker, so after a commit whose
      cleanup failed it would make what is left of the deleted prefix active and serve nothing. */
  lemma CommitWithoutStagingIsUnsound()
    ensures exists s, run, t :: Initial(s) && Reaches(s, run, t) &&
              t.db.active.Some? && t.db.active.value in t.damaged &&
              t.memory.Some? && t.memory.value.consensus.None?
  {
    var s, run, t := KeyDeletedReachable();
    var r1, t1 := Extend(s, run, t, DeleteFails);
    assert t1 == Committed(Some(Zero), {}, Idle, {Zero}, {});
    var r2, t2 := Extend(s, r1, t1, CommitStaging);
    var r3, t3 := Extend(s, r2, t2, SwapPointers);
    assert t3.db.active == Some(Zero) && Zero in t3.damaged && t3.memory.value.consensus.None?;
  }
}
