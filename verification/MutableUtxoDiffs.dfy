/** The mutable UTXO diff: composing in place, adding a transaction atomically, and what accumulating a
    whole chain of accepted transactions in a diff means. */
module MutableUtxoDiffs {
  import opened Utxo
  import opened Commitment
  import opened UtxoDiff

  // ----- One coin event on a diff

  function Added(d: Diff, o: Outpoint, e: Entry): Option<Diff> {
    if HasScore(d.toRemove, o, e.daaScore) then
      Some(Diff(if SameCoin(d.toRemove[o], e) then d.toAdd else d.toAdd[o := e], d.toRemove - {o}))
    else if o in d.toAdd then
      if SameCoin(d.toAdd[o], e) then Some(d.(toAdd := d.toAdd[o := e])) else None
    else
      Some(d.(toAdd := d.toAdd[o := e]))
  }

  function Removed(d: Diff, o: Outpoint, e: Entry): Option<Diff> {
    if HasScore(d.toAdd, o, e.daaScore) then
      Some(Diff(d.toAdd - {o}, if SameCoin(d.toAdd[o], e) then d.toRemove else d.toRemove[o := e]))
    else if o in d.toRemove then None
    else Some(d.(toRemove := d.toRemove[o := e]))
  }

  /** Adding a coin to a diff that fits a set makes a diff that fits it and means the set with the coin,
      exactly when the coin is new and no different base coin has its DAA score, or when the diff already
      adds the same coin and removes none with its score. */
  lemma AddedMeaning(u: Coins, d: Diff, o: Outpoint, e: Entry)
    requires Fits(u, d)
    ensures var r := Added(d, o, e);
            r.Some? && Fits(u, r.value) && Apply(u, r.value) == Apply(u, d)[o := e] <==>
            if o in d.toAdd then SameCoin(d.toAdd[o], e) && !HasScore(d.toRemove, o, e.daaScore)
            else o !in Apply(u, d) && (HasScore(u, o, e.daaScore) ==> u[o] == e)
  {
    assert FitsAt(u, d, o);
    var r := Added(d, o, e);
    if r.Some? {
      forall x | x != o
        ensures FitsAt(u, r.value, x) && SameAt(Apply(u, r.value), Apply(u, d)[o := e], x)
      {
        assert FitsAt(u, d, x);
      }
      SameEverywhere(Apply(u, r.value), Apply(u, d)[o := e]);
      assert Fits(u, r.value) <==> FitsAt(u, r.value, o);
    }
  }

  /** Removing a coin means the set without it, exactly when the set holds that coin, or when the diff
      replaced that very coin by one with the same DAA score. */
  lemma RemovedMeaning(u: Coins, d: Diff, o: Outpoint, e: Entry)
    requires Fits(u, d)
    ensures var r := Removed(d, o, e);
            r.Some? && Fits(u, r.value) && Apply(u, r.value) == Apply(u, d) - {o} <==>
            || (o in Apply(u, d) && Apply(u, d)[o] == e)
            || (o in d.toRemove && d.toRemove[o] == e && HasScore(d.toAdd, o, e.daaScore))
  {
    assert FitsAt(u, d, o);
    var r := Removed(d, o, e);
    if r.Some? {
      forall x | x != o
        ensures FitsAt(u, r.value, x) && SameAt(Apply(u, r.value), Apply(u, d) - {o}, x)
      {
        assert FitsAt(u, d, x);
      }
      SameEverywhere(Apply(u, r.value), Apply(u, d) - {o});
      assert Fits(u, r.value) <==> FitsAt(u, r.value, o);
    }
  }

  // ----- A run of events

  /** Inputs without a recorded entry are skipped. */
  function DiffStep(d: Diff, e: Event): Option<Diff> {
    match e
    case Spend(o, Some(entry)) => Removed(d, o, entry)
    case Spend(o, None) => Some(d)
    case Create(o, entry) => Added(d, o, entry)
  }

  function DiffRun(d: Diff, es: seq<Event>): Option<Diff>
    decreases |es|
  {
    if es == [] then Some(d) else
      match DiffRun(d, es[..|es|-1])
      case None => None
      case Some(mid) => DiffStep(mid, es[|es|-1])
  }

  lemma SpendsStep(d: Diff, tx: Transaction, k: nat)
    requires k < |tx.inputs|
    ensures DiffRun(d, Spends(tx, k + 1)) ==
            match DiffRun(d, Spends(tx, k)) case None => None case Some(mid) => DiffStep(mid, Spent(tx, k))
  {
  }

  lemma CreationsStep(d: Diff, tx: Transaction, k: nat, daaScore: nat)
    requires k < |tx.outputs|
    ensures DiffRun(d, Creations(tx, k + 1, tx.isCoinbase, daaScore)) ==
            match DiffRun(d, Creations(tx, k, tx.isCoinbase, daaScore))
            case None => None
            case Some(mid) => DiffStep(mid, Created(tx, k, tx.isCoinbase, daaScore))
  {
  }

  lemma {:induction false} DiffRunConcat(d: Diff, a: seq<Event>, b: seq<Event>)
    ensures DiffRun(d, a + b) == match DiffRun(d, a) case None => None case Some(mid) => DiffRun(mid, b)
    decreases |b|
  {
    if b == [] {
      assert a + b == a;
    } else {
      assert (a + b)[..|a + b| - 1] == a + b[..|b|-1];
      DiffRunConcat(d, a, b[..|b|-1]);
    }
  }

  /** No created coin shares its DAA score with a different coin of `u` at the same outpoint. */
  ghost predicate CreatedScoresNameCoins(u: Coins, es: seq<Event>) {
    forall i :: 0 <= i < |es| && es[i].Create? && HasScore(u, es[i].outpoint, es[i].entry.daaScore) ==>
      u[es[i].outpoint] == es[i].entry
  }

  /** What one event needs of a diff that fits `u`: a recorded spend of the coin the set holds, or of the coin the
      diff replaced by one with its score; an unrecorded spend of nothing; a coin that is new and whose score no
      other coin of `u` has there, or that the diff adds already. */
  ghost predicate Meets(u: Coins, d: Diff, e: Event) {
    match e
    case Spend(o, Some(entry)) =>
      || (o in Apply(u, d) && Apply(u, d)[o] == entry)
      || (o in d.toRemove && d.toRemove[o] == entry && HasScore(d.toAdd, o, entry.daaScore))
    case Spend(o, None) => o !in Apply(u, d)
    case Create(o, entry) =>
      if o in d.toAdd then SameCoin(d.toAdd[o], entry) && !HasScore(d.toRemove, o, entry.daaScore)
      else o !in Apply(u, d) && (HasScore(u, o, entry.daaScore) ==> u[o] == entry)
  }

  /** The diff fits `u` and means the replay. */
  ghost predicate DiffIsReplay(u: Coins, d: Diff, es: seq<Event>) {
    DiffRun(d, es).Some? && Fits(u, DiffRun(d, es).value) &&
    Apply(u, DiffRun(d, es).value) == Replay(Apply(u, d), es)
  }

  ghost predicate AlwaysReplay(u: Coins, d: Diff, es: seq<Event>)
    decreases |es|
  {
    DiffIsReplay(u, d, es) && (es != [] ==> AlwaysReplay(u, d, es[..|es|-1]))
  }

  ghost predicate AlwaysMeets(u: Coins, d: Diff, es: seq<Event>)
    decreases |es|
  {
    es != [] ==>
      && AlwaysMeets(u, d, es[..|es|-1])
      && DiffRun(d, es[..|es|-1]).Some? && Meets(u, DiffRun(d, es[..|es|-1]).value, es[|es|-1])
  }

  lemma StepIsReplay(u: Coins, d: Diff, e: Event)
    requires Fits(u, d)
    ensures var r := DiffStep(d, e);
            r.Some? && Fits(u, r.value) && Apply(u, r.value) == ReplayStep(Apply(u, d), e) <==> Meets(u, d, e)
  {
    match e {
      case Spend(o, Some(entry)) => RemovedMeaning(u, d, o, entry);
      case Spend(o, None) => assert o !in Apply(u, d) <==> Apply(u, d) - {o} == Apply(u, d);
      case Create(o, entry) => AddedMeaning(u, d, o, entry);
    }
  }

  /** Accumulating events in a diff keeps it fitting its base and meaning the plain replay after every event, if and
      only if every event meets its step's condition. */
  lemma {:induction false} DiffTracksReplay(u: Coins, d: Diff, es: seq<Event>)
    requires Fits(u, d)
    ensures AlwaysReplay(u, d, es) <==> AlwaysMeets(u, d, es)
    decreases |es|
  {
    if es != [] {
      var front := es[..|es|-1];
      DiffTracksReplay(u, d, front);
      if AlwaysReplay(u, d, front) {
        StepIsReplay(u, DiffRun(d, front).value, es[|es|-1]);
      }
    }
  }

  /** Truthful events whose scores name coins meet every condition: accumulating them never fails, keeps the diff
      fitting its base, and means the plain replay. */
  lemma {:induction false} DiffRunIsReplay(u: Coins, d: Diff, es: seq<Event>)
    requires Fits(u, d) && AlwaysTruthful(Apply(u, d), es) && CreatedScoresNameCoins(u, es)
    ensures DiffIsReplay(u, d, es)
    decreases |es|
  {
    if es != [] {
      var front, e := es[..|es|-1], es[|es|-1];
      DiffRunIsReplay(u, d, front);
      StepIsReplay(u, DiffRun(d, front).value, e);
    }
  }

  /** The diff a chain of truthful acceptance data accumulates from nothing takes its base set to the
      replayed set. */
  lemma AccumulatedDiff(base: Coins, es: seq<Event>)
    requires AlwaysTruthful(base, es) && CreatedScoresNameCoins(base, es)
    ensures DiffRun(EMPTY_DIFF, es).Some? && Fits(base, DiffRun(EMPTY_DIFF, es).value)
    ensures Apply(base, DiffRun(EMPTY_DIFF, es).value) == Replay(base, es)
  {
    assert Apply(base, EMPTY_DIFF) == base;
    DiffRunIsReplay(base, EMPTY_DIFF, es);
  }

  // ----- The undo log

  datatype UndoEntry = UndoEntry(outpoint: Outpoint, toAdd: Option<Entry>, toRemove: Option<Entry>)

  function Put(c: Coins, o: Outpoint, e: Option<Entry>): Coins {
    if e.Some? then c[o := e.value] else c - {o}
  }

  function Snapshot(d: Diff, o: Outpoint): UndoEntry {
    UndoEntry(o, Lookup(d.toAdd, o), Lookup(d.toRemove, o))
  }

  function Restored(d: Diff, u: UndoEntry): Diff {
    Diff(Put(d.toAdd, u.outpoint, u.toAdd), Put(d.toRemove, u.outpoint, u.toRemove))
  }

  /** Restoring every entry of the log, the last one first. */
  function Unwound(d: Diff, log: seq<UndoEntry>): Diff
    decreases |log|
  {
    if log == [] then d else Unwound(Restored(d, log[|log|-1]), log[..|log|-1])
  }

  lemma PutBack(c: Coins, changed: Coins, o: Outpoint)
    requires changed - {o} == c - {o}
    ensures Put(changed, o, Lookup(c, o)) == c
  {
    assert (changed - {o}).Keys == changed.Keys - {o} && (c - {o}).Keys == c.Keys - {o};
    forall x | x != o && x in c ensures x in changed && changed[x] == c[x] {
      assert x in c - {o} && (c - {o})[x] == c[x];
    }
    forall x | x != o && x in changed ensures x in c {
      assert x in changed - {o};
    }
  }

  lemma StepTouchesOneOutpoint(d: Diff, e: Event)
    requires DiffStep(d, e).Some?
    ensures DiffStep(d, e).value.toAdd - {e.outpoint} == d.toAdd - {e.outpoint}
    ensures DiffStep(d, e).value.toRemove - {e.outpoint} == d.toRemove - {e.outpoint}
  {
  }

  /** A step that touches one outpoint is undone by the snapshot taken before it. */
  lemma StepUndone(d: Diff, e: Event, log: seq<UndoEntry>)
    requires DiffStep(d, e).Some?
    ensures Unwound(DiffStep(d, e).value, log + [Snapshot(d, e.outpoint)]) == Unwound(d, log)
  {
    var next := DiffStep(d, e).value;
    assert (log + [Snapshot(d, e.outpoint)])[..|log|] == log;
    StepTouchesOneOutpoint(d, e);
    PutBack(d.toAdd, next.toAdd, e.outpoint);
    PutBack(d.toRemove, next.toRemove, e.outpoint);
  }

  lemma SnapshotHarmless(d: Diff, o: Outpoint, log: seq<UndoEntry>)
    ensures Unwound(d, log + [Snapshot(d, o)]) == Unwound(d, log)
  {
    assert (log + [Snapshot(d, o)])[..|log|] == log;
    assert Restored(d, Snapshot(d, o)) == d;
  }

  // ----- The in-place collection operations

  method IntersectionWithRemainder(a: Coins, b: Coins, remainder: Coins)
    returns (matched: set<Outpoint>, grown: Coins)
    ensures matched == Meet(a, b) && grown == remainder + Minus(a, b)
  {
    matched, grown := {}, remainder;
    var keys := a.Keys;
    while keys != {}
      invariant keys <= a.Keys
      invariant matched == Meet(a - keys, b) && grown == remainder + Minus(a - keys, b)
      decreases keys
    {
      var o :| o in keys;
      RemainderStep(a, b, keys, o);
      if o in b && b[o].daaScore == a[o].daaScore {
        matched := matched + {o};
      } else {
        grown := grown[o := a[o]];
      }
      keys := keys - {o};
    }
    assert a - {} == a;
  }

  lemma RemainderStep(a: Coins, b: Coins, keys: set<Outpoint>, o: Outpoint)
    requires o in keys && keys <= a.Keys
    ensures Meet(a - (keys - {o}), b) == Meet(a - keys, b) + if HasScore(b, o, a[o].daaScore) then {o} else {}
    ensures Minus(a - (keys - {o}), b) ==
            if HasScore(b, o, a[o].daaScore) then Minus(a - keys, b) else Minus(a - keys, b)[o := a[o]]
  {
  }

  method Subtraction(a: Coins, b: Coins, result: Coins) returns (grown: Coins)
    ensures grown == result + Minus(a, b)
  {
    var matched;
    matched, grown := IntersectionWithRemainder(a, b, result);
  }

  // ----- The mutable diff

  /** Panics: an input without a recorded entry is dereferenced. */
  datatype Outcome = Applied | Failed | Panics

  /** Without skipping, applying `tx` reaches an input without an entry before anything fails. */
  ghost predicate ReachesNil(d: Diff, tx: Transaction) {
    exists k :: 0 <= k < |tx.inputs| && NilAt(d, tx, k)
  }

  ghost predicate NilAt(d: Diff, tx: Transaction, k: nat)
    requires k < |tx.inputs|
  {
    tx.inputs[k].entry.None? && SomeBefore(tx, k) && DiffRun(d, Spends(tx, k)).Some?
  }

  ghost predicate SomeBefore(tx: Transaction, k: nat)
    requires k <= |tx.inputs|
  {
    forall j :: 0 <= j < k ==> tx.inputs[j].entry.Some?
  }

  method IsSameCoin(a: Entry, b: Entry) returns (same: bool)
    ensures same <==> SameCoin(a, b)
  {
    same := a.amount == b.amount && a.isCoinbase == b.isCoinbase && a.script == b.script;
  }

  /** The two conflict checks before diff `b` is composed into `a`. */
  method CompositionIsTolerable(a: Diff, b: Diff) returns (ok: bool)
    ensures ok <==> forall o :: !ComposeConflict(a, b, o)
  {
    ok := ResolveConflicts(b.toRemove, a.toRemove,
                           (o, e: Entry, _) => !(o in a.toAdd && a.toAdd[o].daaScore == e.daaScore));
    assert ok <==> forall o :: RemovedTwice(a, b, o) ==> Tolerable(b.toRemove[o], a.toRemove[o]);
    if !ok {
      ghost var o :| RemovedTwice(a, b, o) && !Tolerable(b.toRemove[o], a.toRemove[o]);
      assert ComposeConflict(a, b, o);
      return;
    }
    ok := ResolveConflicts(b.toAdd, a.toAdd,
                           (o, _, e: Entry) => !(o in b.toRemove && b.toRemove[o].daaScore == e.daaScore));
    assert ok <==> forall o :: AddedTwice(a, b, o) ==> Tolerable(b.toAdd[o], a.toAdd[o]);
    if !ok {
      ghost var o :| AddedTwice(a, b, o) && !Tolerable(b.toAdd[o], a.toAdd[o]);
      assert ComposeConflict(a, b, o);
    }
  }

  class MutableUtxoDiff {
    var toAdd: Coins
    var toRemove: Coins

    ghost function View(): Diff
      reads this
    {
      Diff(toAdd, toRemove)
    }

    constructor ()
      ensures View() == EMPTY_DIFF
    {
      toAdd, toRemove := map[], map[];
    }

    method WithDiffInPlace(other: Diff) returns (ok: bool)
      modifies this
      ensures ok <==> forall o :: !ComposeConflict(old(View()), other, o)
      ensures View() == if ok then Composed(old(View()), other) else old(View())
    {
      var mine := Diff(toAdd, toRemove);
      ok := CompositionIsTolerable(mine, other);
      if !ok {
        ghost var o :| ComposeConflict(mine, other, o);
        assert ComposeConflict(old(View()), other, o);
        return;
      }
      var matched;
      matched, toRemove := IntersectionWithRemainder(other.toRemove, toAdd, toRemove);
      toAdd := toAdd - matched;
      matched, toAdd := IntersectionWithRemainder(other.toAdd, toRemove, toAdd);
      toRemove := toRemove - matched;
    }

    method DiffFrom(other: Diff) returns (r: Option<Diff>)
      ensures r.Some? <==> forall o :: !DifferenceConflict(View(), other, o)
      ensures r.Some? ==> r.value == Difference(View(), other)
    {
      var ok := DifferenceIsTolerable(other);
      if !ok {
        return None;
      }
      var added, removed := map[], map[];
      removed := Subtraction(toAdd, other.toAdd, removed);
      removed := Subtraction(other.toRemove, toRemove, removed);
      added := Subtraction(toRemove, other.toRemove, added);
      added := Subtraction(other.toAdd, toAdd, added);
      assert map[] + Minus(toAdd, other.toAdd) == Minus(toAdd, other.toAdd);
      assert map[] + Minus(toRemove, other.toRemove) == Minus(toRemove, other.toRemove);
      return Some(Diff(added, removed));
    }

    /** The four conflict checks of DiffFrom. */
    method DifferenceIsTolerable(other: Diff) returns (ok: bool)
      ensures ok <==> forall o :: !DifferenceConflict(View(), other, o)
    {
      var a, b := Diff(toAdd, toRemove), other;
      ok := ResolveConflicts(a.toRemove, b.toAdd, (o, x: Entry, y: Entry) =>
        !(y.daaScore != x.daaScore && (HasScore(a.toAdd, o, y.daaScore) || HasScore(b.toRemove, o, x.daaScore))));
      assert ok <==> forall o :: RemovedThenAdded(a, b, o) ==> Tolerable(a.toRemove[o], b.toAdd[o]);
      if !ok {
        ghost var o :| RemovedThenAdded(a, b, o) && !Tolerable(a.toRemove[o], b.toAdd[o]);
        assert DifferenceConflict(View(), other, o);
        return;
      }
      ok := ResolveConflicts(a.toAdd, b.toRemove, (o, x: Entry, y: Entry) =>
        !(y.daaScore != x.daaScore && (HasScore(a.toRemove, o, y.daaScore) || HasScore(b.toAdd, o, x.daaScore))));
      assert ok <==> forall o :: AddedThenRemoved(a, b, o) ==> Tolerable(a.toAdd[o], b.toRemove[o]);
      if !ok {
        ghost var o :| AddedThenRemoved(a, b, o) && !Tolerable(a.toAdd[o], b.toRemove[o]);
        assert DifferenceConflict(View(), other, o);
        return;
      }
      ok := ResolveConflicts(a.toRemove, b.toRemove, (_, x: Entry, y: Entry) => x.daaScore != y.daaScore);
      assert ok <==> forall o :: RemovedWithTwoScores(a, b, o) ==> Tolerable(a.toRemove[o], b.toRemove[o]);
      if !ok {
        ghost var o :| RemovedWithTwoScores(a, b, o) && !Tolerable(a.toRemove[o], b.toRemove[o]);
        assert DifferenceConflict(View(), other, o);
        return;
      }
      var removed := b.toRemove + a.toRemove;
      ok := ResolveConflicts(a.toAdd, removed, (o, x: Entry, _) =>
        HasScore(b.toAdd, o, x.daaScore) && (o in a.toRemove) != (o in b.toRemove));
      assert ok <==> forall o :: AddedByBothRemovedByOne(a, b, o) ==> Tolerable(a.toAdd[o], removed[o]);
      if !ok {
        ghost var o :| AddedByBothRemovedByOne(a, b, o) && !Tolerable(a.toAdd[o], removed[o]);
        assert DifferenceConflict(View(), other, o);
        return;
      }
    }

    method AddEntry(o: Outpoint, e: Entry) returns (ok: bool)
      modifies this
      ensures ok <==> Added(old(View()), o, e).Some?
      ensures View() == if ok then Added(old(View()), o, e).value else old(View())
    {
      if o in toRemove && toRemove[o].daaScore == e.daaScore {
        var same := IsSameCoin(toRemove[o], e);
        toRemove := toRemove - {o};
        if !same {
          toAdd := toAdd[o := e];
        }
      } else if o in toAdd {
        var same := IsSameCoin(toAdd[o], e);
        if !same {
          return false;
        }
        if toAdd[o].daaScore != e.daaScore {
          toAdd := (toAdd - {o})[o := e];
        }
      } else {
        toAdd := toAdd[o := e];
      }
      return true;
    }

    method RemoveEntry(o: Outpoint, e: Entry) returns (ok: bool)
      modifies this
      ensures ok <==> Removed(old(View()), o, e).Some?
      ensures View() == if ok then Removed(old(View()), o, e).value else old(View())
    {
      if o in toAdd && toAdd[o].daaScore == e.daaScore {
        var same := IsSameCoin(toAdd[o], e);
        toAdd := toAdd - {o};
        if !same {
          toRemove := toRemove[o := e];
        }
      } else if o in toRemove {
        return false;
      } else {
        toRemove := toRemove[o := e];
      }
      return true;
    }

    method Rollback(log: seq<UndoEntry>)
      modifies this
      ensures View() == Unwound(old(View()), log)
    {
      var i := |log|;
      assert log[..|log|] == log;
      while i > 0
        invariant 0 <= i <= |log| && Unwound(View(), log[..i]) == Unwound(old(View()), log)
      {
        i := i - 1;
        assert log[..i+1][..i] == log[..i];
        var o := log[i].outpoint;
        toAdd := if log[i].toAdd.Some? then toAdd[o := log[i].toAdd.value] else toAdd - {o};
        toRemove := if log[i].toRemove.Some? then toRemove[o := log[i].toRemove.value] else toRemove - {o};
      }
    }

    /** Removes the inputs, logging what undoes each removal. */
    method RemoveInputs(tx: Transaction, skipMissing: bool) returns (outcome: Outcome, log: seq<UndoEntry>)
      modifies this
      ensures outcome.Panics? <==> !skipMissing && ReachesNil(old(View()), tx)
      ensures !outcome.Panics? ==> Unwound(View(), log) == old(View())
      ensures !outcome.Panics? ==> (outcome.Applied? <==> DiffRun(old(View()), Spends(tx, |tx.inputs|)).Some?)
      ensures outcome.Applied? ==> DiffRun(old(View()), Spends(tx, |tx.inputs|)) == Some(View())
    {
      ghost var before := View();
      log := [];
      for k := 0 to |tx.inputs|
        invariant Unwound(View(), log) == before
        invariant DiffRun(before, Spends(tx, k)) == Some(View())
        invariant !skipMissing ==> SomeBefore(tx, k)
      {
        outcome, log := RemoveInput(tx, k, skipMissing, log, before);
        if outcome.Panics? {
          assert NilAt(before, tx, k);
          return;
        }
        if outcome.Failed? {
          NoNilAfterFailure(before, tx, k);
          InputsFailAfter(before, tx, k + 1, |tx.inputs|);
          return;
        }
      }
      outcome := Applied;
    }

    method RemoveInput(tx: Transaction, k: nat, skipMissing: bool, log0: seq<UndoEntry>, ghost origin: Diff)
      returns (outcome: Outcome, log: seq<UndoEntry>)
      requires k < |tx.inputs| && DiffRun(origin, Spends(tx, k)) == Some(View())
      modifies this
      ensures outcome.Panics? <==> !skipMissing && tx.inputs[k].entry.None?
      ensures !outcome.Panics? ==> Unwound(View(), log) == Unwound(old(View()), log0)
      ensures outcome.Applied? ==> DiffRun(origin, Spends(tx, k + 1)) == Some(View())
      ensures outcome.Failed? ==> DiffRun(origin, Spends(tx, k + 1)).None? && tx.inputs[k].entry.Some?
    {
      SpendsStep(origin, tx, k);
      var input := tx.inputs[k];
      if input.entry.None? {
        return if skipMissing then Applied else Panics, log0;
      }
      var ok;
      ok, log := RemoveLogged(input.previous, input.entry.value, log0);
      outcome := if ok then Applied else Failed;
    }

    /** One removal, with the snapshot that undoes it on the log. */
    method RemoveLogged(o: Outpoint, e: Entry, log0: seq<UndoEntry>) returns (ok: bool, log: seq<UndoEntry>)
      modifies this
      ensures Unwound(View(), log) == Unwound(old(View()), log0)
      ensures ok <==> Removed(old(View()), o, e).Some?
      ensures ok ==> Removed(old(View()), o, e) == Some(View())
    {
      SnapshotHarmless(View(), o, log0);
      ghost var mid := View();
      log := log0 + [UndoEntry(o, Lookup(toAdd, o), Lookup(toRemove, o))];
      ok := RemoveEntry(o, e);
      if ok {
        StepUndone(mid, Spend(o, Some(e)), log0);
      }
    }

    /** Adds the outputs; on failure the log still undoes everything. */
    method AddOutputs(tx: Transaction, daaScore: nat, log0: seq<UndoEntry>, ghost origin: Diff)
      returns (ok: bool, log: seq<UndoEntry>)
      requires Unwound(View(), log0) == origin
      modifies this
      ensures Unwound(View(), log) == origin
      ensures ok <==> |tx.outputs| <= UINT32_MODULUS &&
                      DiffRun(old(View()), Creations(tx, |tx.outputs|, tx.isCoinbase, daaScore)).Some?
      ensures ok ==> DiffRun(old(View()), Creations(tx, |tx.outputs|, tx.isCoinbase, daaScore)) == Some(View())
    {
      ghost var before := View();
      log := log0;
      for k := 0 to |tx.outputs|
        invariant k <= UINT32_MODULUS && Unwound(View(), log) == origin
        invariant DiffRun(before, Creations(tx, k, tx.isCoinbase, daaScore)) == Some(View())
      {
        if k >= UINT32_MODULUS {
          return false, log;
        }
        var coin := Created(tx, k, tx.isCoinbase, daaScore);
        CreationsStep(before, tx, k, daaScore);
        SnapshotHarmless(View(), coin.outpoint, log);
        var entry := UndoEntry(coin.outpoint, Lookup(toAdd, coin.outpoint), Lookup(toRemove, coin.outpoint));
        ghost var mid, was := View(), log;
        log := log + [entry];
        ok := AddEntry(coin.outpoint, coin.entry);
        if !ok {
          OutputsFailAfter(before, tx, k + 1, daaScore);
          return;
        }
        StepUndone(mid, coin, was);
      }
      ok := true;
    }

    /** Applies a transaction to the diff, all of it or nothing: a failure half way undoes, last step first,
        exactly what was done. */
    method AddTransaction(tx: Transaction, daaScore: nat, skipMissing: bool) returns (outcome: Outcome)
      modifies this
      ensures outcome.Panics? <==> !skipMissing && ReachesNil(old(View()), tx)
      ensures !outcome.Panics? ==>
                (outcome.Applied? <==> |tx.outputs| <= UINT32_MODULUS &&
                                       DiffRun(old(View()), TxEvents(tx, tx.isCoinbase, daaScore)).Some?)
      ensures outcome.Applied? ==> DiffRun(old(View()), TxEvents(tx, tx.isCoinbase, daaScore)) == Some(View())
      ensures outcome.Failed? ==> View() == old(View())
    {
      ghost var before := View();
      DiffRunConcat(before, Spends(tx, |tx.inputs|), Creations(tx, |tx.outputs|, tx.isCoinbase, daaScore));
      var log;
      outcome, log := RemoveInputs(tx, skipMissing);
      if outcome.Applied? {
        var ok;
        ok, log := AddOutputs(tx, daaScore, log, before);
        outcome := if ok then Applied else Failed;
      }
      if outcome.Failed? {
        Rollback(log);
      }
    }
  }

  lemma NoNilAfterFailure(d: Diff, tx: Transaction, k: nat)
    requires k < |tx.inputs| && tx.inputs[k].entry.Some? && DiffRun(d, Spends(tx, k + 1)).None?
    ensures SomeBefore(tx, k) ==> !ReachesNil(d, tx)
  {
    if SomeBefore(tx, k) && ReachesNil(d, tx) {
      var n :| 0 <= n < |tx.inputs| && NilAt(d, tx, n);
      InputsFailAfter(d, tx, k + 1, n);
    }
  }

  lemma {:induction false} InputsFailAfter(d: Diff, tx: Transaction, k: nat, n: nat)
    requires k <= n <= |tx.inputs| && DiffRun(d, Spends(tx, k)).None?
    ensures DiffRun(d, Spends(tx, n)).None?
    decreases n - k
  {
    if k < n {
      SpendsStep(d, tx, k);
      InputsFailAfter(d, tx, k + 1, n);
    }
  }

  lemma {:induction false} OutputsFailAfter(d: Diff, tx: Transaction, k: nat, daaScore: nat)
    requires k <= |tx.outputs| && DiffRun(d, Creations(tx, k, tx.isCoinbase, daaScore)).None?
    ensures DiffRun(d, Creations(tx, |tx.outputs|, tx.isCoinbase, daaScore)).None?
    decreases |tx.outputs| - k
  {
    if k < |tx.outputs| {
      CreationsStep(d, tx, k, daaScore);
      OutputsFailAfter(d, tx, k + 1, daaScore);
    }
  }
}
