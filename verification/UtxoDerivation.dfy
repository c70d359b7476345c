/** Two derivations of the UTXO set at a block from the pruning point's set and the acceptance data of
    the chain above it: the streaming overlay of IterateUTXOSetAtBlockFromAcceptanceData and the plain
    map replay of replayForwardCheck. */
module UtxoDerivation {
  import opened Utxo
  import opened Dag

  // ----- The overlay: what a window creates, and what it spends from the base set

  datatype Overlay = Overlay(created: Coins, spent: set<Outpoint>)

  const EMPTY: Overlay := Overlay(map[], {})

  function Step(s: Overlay, e: Event): Overlay {
    match e
    case Spend(o, _) =>
      if o in s.created then s.(created := s.created - {o}) else s.(spent := s.spent + {o})
    case Create(o, entry) => Overlay(s.created[o := entry], s.spent - {o})
  }

  function Run(es: seq<Event>): Overlay
    decreases |es|
  {
    if es == [] then EMPTY else Step(Run(es[..|es|-1]), es[|es|-1])
  }

  lemma RunSnoc(es: seq<Event>, e: Event)
    ensures Run(es + [e]) == Step(Run(es), e)
  {
  }

  /** The set that streaming `base` under the overlay describes. */
  function Merged(base: Coins, s: Overlay): Coins {
    map o | o in base.Keys + s.created.Keys && (o in s.created || o !in s.spent) ::
      if o in s.created then s.created[o] else base[o]
  }

  // ----- Exactly when the overlay agrees with plain replay

  /** The last two events of `es` on `o` are a creation and then a spend. */
  ghost predicate RecreatedThenSpent(es: seq<Event>, o: Outpoint) {
    exists i, j :: 0 <= i < j < |es| && CreatedThenSpentAt(es, o, i, j)
  }

  ghost predicate CreatedThenSpentAt(es: seq<Event>, o: Outpoint, i: nat, j: nat)
    requires i < j < |es|
  {
    && es[i].Create? && es[i].outpoint == o
    && es[j].Spend? && es[j].outpoint == o
    && forall k :: i < k < |es| && k != j ==> es[k].outpoint != o
  }

  /** The last event of `es` on `o`. */
  ghost function LastOn(es: seq<Event>, o: Outpoint): (r: Option<Event>)
    ensures r.Some? ==> exists i: nat :: IsLastOn(es, o, i) && es[i] == r.value
    ensures r.None? ==> forall i :: 0 <= i < |es| ==> es[i].outpoint != o
    decreases |es|
  {
    if es == [] then None
    else if es[|es|-1].outpoint == o then
      assert IsLastOn(es, o, |es| - 1);
      Some(es[|es|-1])
    else
      var front := es[..|es|-1];
      var r := LastOn(front, o);
      assert forall i: nat :: IsLastOn(front, o, i) ==> IsLastOn(es, o, i) && front[i] == es[i];
      r
  }

  ghost predicate IsLastOn(es: seq<Event>, o: Outpoint, i: nat) {
    i < |es| && es[i].outpoint == o && forall k :: i < k < |es| ==> es[k].outpoint != o
  }

  lemma RecreatedThenSpentStep(es: seq<Event>, o: Outpoint)
    requires es != []
    ensures var front, e := es[..|es|-1], es[|es|-1];
            RecreatedThenSpent(es, o) <==>
            if e.outpoint != o then RecreatedThenSpent(front, o)
            else e.Spend? && LastOn(front, o).Some? && LastOn(front, o).value.Create?
  {
    var front, e := es[..|es|-1], es[|es|-1];
    if RecreatedThenSpent(es, o) {
      var i, j :| 0 <= i < j < |es| && CreatedThenSpentAt(es, o, i, j);
      if e.outpoint != o {
        assert CreatedThenSpentAt(front, o, i, j);
      } else {
        assert IsLastOn(front, o, i);
      }
    }
    if e.outpoint != o && RecreatedThenSpent(front, o) {
      var i, j :| 0 <= i < j < |front| && CreatedThenSpentAt(front, o, i, j);
      assert CreatedThenSpentAt(es, o, i, j);
    }
    if e.outpoint == o && e.Spend? && LastOn(front, o).Some? && LastOn(front, o).value.Create? {
      var i: nat :| IsLastOn(front, o, i) && front[i] == LastOn(front, o).value;
      assert CreatedThenSpentAt(es, o, i, |es| - 1);
    }
  }

  /** The overlay, outpoint by outpoint, in terms of the last events on the outpoint. */
  lemma {:induction false} OverlayAt(es: seq<Event>, o: Outpoint)
    ensures o in Run(es).created <==> LastOn(es, o).Some? && LastOn(es, o).value.Create?
    ensures o in Run(es).created ==> Run(es).created[o] == LastOn(es, o).value.entry
    ensures o in Run(es).spent <==>
            LastOn(es, o).Some? && LastOn(es, o).value.Spend? && !RecreatedThenSpent(es, o)
    decreases |es|
  {
    if es != [] {
      OverlayAt(es[..|es|-1], o);
      RecreatedThenSpentStep(es, o);
    }
  }

  lemma {:induction false} ReplayAt(base: Coins, es: seq<Event>, o: Outpoint)
    ensures match LastOn(es, o)
            case None => (o in Replay(base, es) <==> o in base) && (o in base ==> Replay(base, es)[o] == base[o])
            case Some(Create(_, entry)) => o in Replay(base, es) && Replay(base, es)[o] == entry
            case Some(Spend(_, _)) => o !in Replay(base, es)
    decreases |es|
  {
    if es != [] {
      ReplayAt(base, es[..|es|-1], o);
    }
  }

  /** The overlay describes the replayed set exactly when no coin of the base set is created again and
      then spent, as the last two things the window does to it: that spend deletes the window's copy and
      leaves the base set's copy to be streamed. */
  lemma OverlayEqualsReplay(base: Coins, es: seq<Event>)
    ensures Merged(base, Run(es)) == Replay(base, es) <==> forall o :: o in base ==> !RecreatedThenSpent(es, o)
  {
    var merged, replayed := Merged(base, Run(es)), Replay(base, es);
    forall o
      ensures (o in merged <==> o in replayed) && (o in merged ==> merged[o] == replayed[o]) <==>
              !(o in base && RecreatedThenSpent(es, o))
    {
      OverlayAt(es, o);
      ReplayAt(base, es, o);
      if RecreatedThenSpent(es, o) {
        var i, j :| 0 <= i < j < |es| && CreatedThenSpentAt(es, o, i, j);
        assert IsLastOn(es, o, j);
      }
    }
    if forall o :: o in base ==> !RecreatedThenSpent(es, o) {
      assert merged == replayed;
    }
  }

  /** Unique transaction ids are enough: a window that never creates an outpoint of the base set. */
  lemma FreshOutputsSuffice(base: Coins, es: seq<Event>)
    requires forall i :: 0 <= i < |es| && es[i].Create? ==> es[i].outpoint !in base
    ensures Merged(base, Run(es)) == Replay(base, es)
  {
    OverlayEqualsReplay(base, es);
  }

  lemma {:induction false} RecreatedCoinSurvives(o: Outpoint, before: Entry, again: Entry, recorded: Option<Entry>)
    ensures var base := map[o := before];
            var es := [Create(o, again), Spend(o, recorded)];
            o !in Replay(base, es) && Merged(base, Run(es)) == base
  {
    var es := [Create(o, again), Spend(o, recorded)];
    assert es[..1] == [Create(o, again)] && es[..1][..0] == [];
    assert Run(es[..1]) == Overlay(map[o := again], {});
    assert Run(es) == Overlay(map[], {});
    assert Replay(map[o := before], es[..1]) == map[o := again];
  }

  /** The two derivations name a coin a coinbase coin by different rules; they issue the same events
      exactly when the rules agree on every accepted transaction that creates a coin. */
  ghost predicate RulesAgree(b: MergedBlock, n: nat)
    requires n <= |b|
  {
    forall i :: 0 <= i < n && b[i].isAccepted && b[i].tx.outputs != [] ==> (b[i].tx.isCoinbase <==> i == 0)
  }

  lemma {:induction false} CreationsDetermineTheFlag(tx: Transaction, n: nat, f: bool, g: bool, daaScore: nat)
    requires n <= |tx.outputs|
    ensures |Creations(tx, n, f, daaScore)| == n
    ensures Creations(tx, n, f, daaScore) == Creations(tx, n, g, daaScore) <==> n == 0 || f == g
  {
    if n > 0 {
      CreationsDetermineTheFlag(tx, n - 1, f, g, daaScore);
      CreationsDetermineTheFlag(tx, n - 1, g, f, daaScore);
      var a, b := Creations(tx, n, f, daaScore), Creations(tx, n, g, daaScore);
      assert a[n-1] == Created(tx, n - 1, f, daaScore) && b[n-1] == Created(tx, n - 1, g, daaScore);
    }
  }

  lemma {:induction false} SameEventsIffRulesAgree(b: MergedBlock, n: nat, daaScore: nat)
    requires n <= |b|
    ensures |MergedEvents(b, n, daaScore, BySubnetwork)| == |MergedEvents(b, n, daaScore, ByPosition)|
    ensures MergedEvents(b, n, daaScore, BySubnetwork) == MergedEvents(b, n, daaScore, ByPosition) <==>
            RulesAgree(b, n)
  {
    if n > 0 {
      SameEventsIffRulesAgree(b, n - 1, daaScore);
      var s, p := MergedEvents(b, n - 1, daaScore, BySubnetwork), MergedEvents(b, n - 1, daaScore, ByPosition);
      var tx := b[n-1].tx;
      if b[n-1].isAccepted {
        var f, g := IsCoinbase(tx, n - 1, BySubnetwork), IsCoinbase(tx, n - 1, ByPosition);
        CreationsDetermineTheFlag(tx, |tx.outputs|, f, g, daaScore);
        CreationsDetermineTheFlag(tx, |tx.outputs|, g, f, daaScore);
        var sp := Spends(tx, |tx.inputs|);
        var cf, cg := Creations(tx, |tx.outputs|, f, daaScore), Creations(tx, |tx.outputs|, g, daaScore);
        ConcatInjective(sp, cf, sp, cg);
        ConcatInjective(s, sp + cf, p, sp + cg);
      } else {
        assert s + [] == s && p + [] == p;
      }
    }
  }

  lemma ConcatInjective<T>(a: seq<T>, b: seq<T>, c: seq<T>, d: seq<T>)
    requires |a| == |c|
    ensures a + b == c + d <==> a == c && b == d
  {
    if a + b == c + d {
      assert a == (a + b)[..|a|] && c == (c + d)[..|a|];
      assert b == (a + b)[|a|..] && d == (c + d)[|a|..];
    }
  }

  // ----- The stores the derivations read

  datatype Stores = Stores(
    ghostdag: GhostdagStore,
    headerDaaScore: map<Hash, nat>,
    storedDaaScore: map<Hash, nat>,
    acceptance: map<Hash, seq<MergedBlock>>,
    mergedBlocks: map<Hash, seq<Hash>>,       // the blocks the acceptance data is of, in its order
    pruningPoint: Hash)

  /** What happens before the walk: an update of the pruning point set left pending is finished, and the set is not
      read while it is being checked. */
  datatype Preparation = UpdateFails | BeingChecked | Ready

  datatype Error =
    | PruningPointUpdateFailed
    | SetBeingChecked
    | NoGhostdagData(block: Hash)
    | NotAboveThePruningPoint
    | NoDaaScore(block: Hash)
    | NoAcceptanceData(block: Hash)
    | OutputIndexOverflow
    | CallbackFailed

  /** The stores lack something the derivation reads. */
  predicate StoreError(e: Error) {
    e.NoGhostdagData? || e.NotAboveThePruningPoint? || e.NoDaaScore? || e.NoAcceptanceData? || e.OutputIndexOverflow?
  }

  /** A block's own DAA score, preferring its header. */
  function OwnDaaScore(s: Stores, block: Hash): Option<nat> {
    if block in s.headerDaaScore then Some(s.headerDaaScore[block])
    else if block in s.storedDaaScore then Some(s.storedDaaScore[block])
    else None
  }

  function Load(s: Stores, block: Hash): Option<ChainBlock> {
    if OwnDaaScore(s, block).Some? && block in s.acceptance
    then Some(ChainBlock(OwnDaaScore(s, block).value, s.acceptance[block]))
    else None
  }

  /** The selected chain from `block` down to just above the pruning point, newest first, if `block` is
      above the pruning point and every block of the walk has GHOSTDAG data. */
  ghost function SelectedChain(s: Stores, block: Hash): Option<seq<Hash>>
    requires BlueScoresRise(s.ghostdag)
    decreases Remaining(s.ghostdag, block)
  {
    if block == s.pruningPoint then Some([])
    else if block !in s.ghostdag || s.ghostdag[block].selectedParent.None? then None
    else if s.ghostdag[block].selectedParent.value == VIRTUAL_GENESIS then None
    else
      match SelectedChain(s, s.ghostdag[block].selectedParent.value)
      case None => None
      case Some(rest) => Some([block] + rest)
  }

  /** Why there is none: the first block of the walk without GHOSTDAG data, or a walk that leaves the chain. */
  ghost function WalkError(s: Stores, block: Hash): Option<Error>
    requires BlueScoresRise(s.ghostdag)
    decreases Remaining(s.ghostdag, block)
  {
    if block == s.pruningPoint then None
    else if block !in s.ghostdag then Some(NoGhostdagData(block))
    else if s.ghostdag[block].selectedParent.None? || s.ghostdag[block].selectedParent.value == VIRTUAL_GENESIS
    then Some(NotAboveThePruningPoint)
    else WalkError(s, s.ghostdag[block].selectedParent.value)
  }

  ghost predicate Loaded(s: Stores, chain: seq<Hash>, from: nat) {
    forall i :: from <= i < |chain| ==> Load(s, chain[i]).Some?
  }

  /** The events of `chain`, applied from its oldest block up to `chain[from]`. */
  ghost function ChainEvents(s: Stores, chain: seq<Hash>, from: nat, rule: CoinbaseRule): seq<Event>
    requires from <= |chain| && Loaded(s, chain, from)
    decreases |chain| - from
  {
    if from == |chain| then [] else
      var b := Load(s, chain[from]).value;
      ChainEvents(s, chain, from + 1, rule) + BlockEvents(b, |b.mergeSet|, rule)
  }

  ghost predicate OutputsIndexable(b: MergedBlock) {
    forall t :: t in b && t.isAccepted ==> |t.tx.outputs| <= UINT32_MODULUS
  }

  ghost predicate BlockReadable(s: Stores, block: Hash) {
    Load(s, block).Some? && forall m :: m in s.acceptance[block] ==> OutputsIndexable(m)
  }

  /** The stores hold everything the derivation reads for `block`. */
  ghost predicate Derivable(s: Stores, block: Hash)
    requires BlueScoresRise(s.ghostdag)
  {
    SelectedChain(s, block).Some? && forall h :: h in SelectedChain(s, block).value ==> BlockReadable(s, h)
  }

  /** Walks from `block` down to the pruning point. */
  method CollectChain(s: Stores, block: Hash) returns (chain: seq<Hash>, err: Option<Error>)
    requires BlueScoresRise(s.ghostdag)
    ensures err.None? ==> SelectedChain(s, block) == Some(chain)
    ensures err.Some? ==> StoreError(err.value) && SelectedChain(s, block).None?
    ensures err == WalkError(s, block)
  {
    chain, err := [], None;
    var current := block;
    assert SelectedChain(s, block).Some? ==> [] + SelectedChain(s, block).value == SelectedChain(s, block).value;
    while current != s.pruningPoint
      invariant match SelectedChain(s, current)
                case None => SelectedChain(s, block).None?
                case Some(rest) => SelectedChain(s, block) == Some(chain + rest)
      invariant WalkError(s, current) == WalkError(s, block)
      decreases Remaining(s.ghostdag, current)
    {
      if current !in s.ghostdag {
        return [], Some(NoGhostdagData(current));
      }
      var parent := s.ghostdag[current].selectedParent;
      if parent.None? || parent.value == VIRTUAL_GENESIS {
        return [], Some(NotAboveThePruningPoint);
      }
      ghost var rest := SelectedChain(s, parent.value);
      assert rest.Some? ==> chain + ([current] + rest.value) == (chain + [current]) + rest.value;
      chain := chain + [current];
      current := parent.value;
    }
    assert chain + [] == chain;
  }

  // ----- Applying one transaction, merged block and chain block to the overlay

  method SpendInputs(tx: Transaction, state: Overlay, ghost done: seq<Event>) returns (next: Overlay)
    requires state == Run(done)
    ensures next == Run(done + Spends(tx, |tx.inputs|))
  {
    var created, spent := state.created, state.spent;
    assert done + [] == done;
    for k := 0 to |tx.inputs|
      invariant Overlay(created, spent) == Run(done + Spends(tx, k))
    {
      var o := tx.inputs[k].previous;
      RunSnoc(done + Spends(tx, k), Spent(tx, k));
      assert done + Spends(tx, k + 1) == (done + Spends(tx, k)) + [Spent(tx, k)];
      if o in created {
        created := created - {o};
      } else {
        spent := spent + {o};
      }
    }
    next := Overlay(created, spent);
  }

  lemma CreationsSnoc(done: seq<Event>, tx: Transaction, k: nat, isCoinbase: bool, daaScore: nat)
    requires k < |tx.outputs|
    ensures Run(done + Creations(tx, k + 1, isCoinbase, daaScore)) ==
            Step(Run(done + Creations(tx, k, isCoinbase, daaScore)), Created(tx, k, isCoinbase, daaScore))
  {
    var soFar := done + Creations(tx, k, isCoinbase, daaScore);
    RunSnoc(soFar, Created(tx, k, isCoinbase, daaScore));
    assert done + Creations(tx, k + 1, isCoinbase, daaScore) == soFar + [Created(tx, k, isCoinbase, daaScore)];
  }

  method CreateOutputs(tx: Transaction, isCoinbase: bool, daaScore: nat, state: Overlay, ghost done: seq<Event>)
    returns (next: Overlay, overflow: bool)
    requires state == Run(done)
    ensures overflow <==> |tx.outputs| > UINT32_MODULUS
    ensures !overflow ==> next == Run(done + Creations(tx, |tx.outputs|, isCoinbase, daaScore))
  {
    var created, spent := state.created, state.spent;
    assert done + [] == done;
    for k := 0 to |tx.outputs|
      invariant k <= UINT32_MODULUS
      invariant Overlay(created, spent) == Run(done + Creations(tx, k, isCoinbase, daaScore))
    {
      if k >= UINT32_MODULUS {
        return state, true;
      }
      var coin := Created(tx, k, isCoinbase, daaScore);
      CreationsSnoc(done, tx, k, isCoinbase, daaScore);
      spent := spent - {coin.outpoint};
      created := created[coin.outpoint := coin.entry];
    }
    return Overlay(created, spent), false;
  }

  method ApplyTransaction(tx: Transaction, isCoinbase: bool, daaScore: nat, state: Overlay, ghost done: seq<Event>)
    returns (next: Overlay, overflow: bool)
    requires state == Run(done)
    ensures overflow <==> |tx.outputs| > UINT32_MODULUS
    ensures !overflow ==> next == Run(done + TxEvents(tx, isCoinbase, daaScore))
  {
    ghost var spends := Spends(tx, |tx.inputs|);
    next := SpendInputs(tx, state, done);
    next, overflow := CreateOutputs(tx, isCoinbase, daaScore, next, done + spends);
    assert (done + spends) + Creations(tx, |tx.outputs|, isCoinbase, daaScore) ==
      done + TxEvents(tx, isCoinbase, daaScore);
  }

  method ApplyMergedBlock(b: MergedBlock, daaScore: nat, state: Overlay, ghost done: seq<Event>)
    returns (next: Overlay, overflow: bool)
    requires state == Run(done)
    ensures !overflow <==> OutputsIndexable(b)
    ensures !overflow ==> next == Run(done + MergedEvents(b, |b|, daaScore, BySubnetwork))
  {
    next := state;
    assert done + [] == done;
    for n := 0 to |b|
      invariant forall i :: 0 <= i < n && b[i].isAccepted ==> |b[i].tx.outputs| <= UINT32_MODULUS
      invariant next == Run(done + MergedEvents(b, n, daaScore, BySubnetwork))
    {
      ghost var soFar := done + MergedEvents(b, n, daaScore, BySubnetwork);
      MergedSnoc(done, b, n, daaScore);
      if b[n].isAccepted {
        next, overflow := ApplyTransaction(b[n].tx, IsCoinbase(b[n].tx, n, BySubnetwork), daaScore, next, soFar);
        if overflow {
          assert b[n] in b;
          return;
        }
      }
    }
    overflow := false;
  }

  lemma MergedSnoc(done: seq<Event>, b: MergedBlock, n: nat, daaScore: nat)
    requires n < |b|
    ensures done + MergedEvents(b, n + 1, daaScore, BySubnetwork) ==
            if b[n].isAccepted
            then done + MergedEvents(b, n, daaScore, BySubnetwork) + TxEvents(b[n].tx, b[n].tx.isCoinbase, daaScore)
            else done + MergedEvents(b, n, daaScore, BySubnetwork)
  {
  }

  method ApplyBlock(b: ChainBlock, state: Overlay, ghost done: seq<Event>) returns (next: Overlay, overflow: bool)
    requires state == Run(done)
    ensures !overflow <==> forall m :: m in b.mergeSet ==> OutputsIndexable(m)
    ensures !overflow ==> next == Run(done + BlockEvents(b, |b.mergeSet|, BySubnetwork))
  {
    next := state;
    assert done + [] == done;
    ghost var soFar := done;
    for n := 0 to |b.mergeSet|
      invariant IndexableUpTo(b, n) && soFar == done + BlockEvents(b, n, BySubnetwork) && next == Run(soFar)
    {
      next, overflow := ApplyMergedBlock(b.mergeSet[n], b.daaScore, next, soFar);
      if overflow {
        assert b.mergeSet[n] in b.mergeSet;
        return;
      }
      BlockSnoc(done, b, n);
      soFar := soFar + MergedEvents(b.mergeSet[n], |b.mergeSet[n]|, b.daaScore, BySubnetwork);
    }
    overflow := false;
  }

  ghost predicate IndexableUpTo(b: ChainBlock, n: nat)
    requires n <= |b.mergeSet|
  {
    forall i :: 0 <= i < n ==> OutputsIndexable(b.mergeSet[i])
  }

  lemma BlockSnoc(done: seq<Event>, b: ChainBlock, n: nat)
    requires n < |b.mergeSet|
    ensures done + BlockEvents(b, n + 1, BySubnetwork) ==
            done + BlockEvents(b, n, BySubnetwork) +
            MergedEvents(b.mergeSet[n], |b.mergeSet[n]|, b.daaScore, BySubnetwork)
  {
  }

  // ----- Streaming

  /** `pairs` lists the coins of `m`, each exactly once. */
  ghost predicate Lists(pairs: seq<(Outpoint, Entry)>, m: Coins) {
    && (forall i, j :: 0 <= i < j < |pairs| ==> pairs[i].0 != pairs[j].0)
    && (forall i :: 0 <= i < |pairs| ==> pairs[i].0 in m && m[pairs[i].0] == pairs[i].1)
    && (forall o :: o in m ==> exists i :: 0 <= i < |pairs| && pairs[i].0 == o)
  }

  lemma ListsSnoc(pairs: seq<(Outpoint, Entry)>, m: Coins, o: Outpoint, e: Entry)
    requires Lists(pairs, m) && o !in m
    ensures Lists(pairs + [(o, e)], m[o := e])
  {
    var p := pairs + [(o, e)];
    var m' := m[o := e];
    forall x | x in m'
      ensures exists i :: 0 <= i < |p| && p[i].0 == x
    {
      if x == o {
        assert p[|pairs|].0 == o;
      } else {
        var i :| 0 <= i < |pairs| && pairs[i].0 == x;
        assert p[i].0 == x;
      }
    }
  }

  /** The next pair of a listing is new to what was listed before it. */
  lemma ListsNext(pairs: seq<(Outpoint, Entry)>, base: Coins, n: nat, seen: Coins)
    requires Lists(pairs, base) && n < |pairs| && Lists(pairs[..n], seen)
    ensures pairs[n].0 !in seen && Lists(pairs[..n+1], seen[pairs[n].0 := pairs[n].1])
  {
    assert pairs[..n+1] == pairs[..n] + [pairs[n]];
    ListsSnoc(pairs[..n], seen, pairs[n].0, pairs[n].1);
  }

  lemma SpentAndCreatedDisjoint(es: seq<Event>)
    ensures Run(es).created.Keys !! Run(es).spent
  {
  }

  /** The coins of the first `n` pairs of the base set that survive the overlay. */
  ghost function Streamed(pairs: seq<(Outpoint, Entry)>, n: nat, s: Overlay): Coins
    requires n <= |pairs|
  {
    if n == 0 then map[]
    else if pairs[n-1].0 in s.spent then Streamed(pairs, n - 1, s)
    else Streamed(pairs, n - 1, s)
      [pairs[n-1].0 := if pairs[n-1].0 in s.created then s.created[pairs[n-1].0] else pairs[n-1].1]
  }

  lemma {:induction false} StreamedAt(pairs: seq<(Outpoint, Entry)>, n: nat, s: Overlay, o: Outpoint)
    requires n <= |pairs| && forall i, j :: 0 <= i < j < |pairs| ==> pairs[i].0 != pairs[j].0
    ensures o in Streamed(pairs, n, s) <==>
            o !in s.spent && exists i :: 0 <= i < n && pairs[i].0 == o
    ensures forall i :: 0 <= i < n && pairs[i].0 == o && o !in s.spent ==>
              Streamed(pairs, n, s)[o] == if o in s.created then s.created[o] else pairs[i].1
  {
    if n > 0 {
      StreamedAt(pairs, n - 1, s, o);
    }
  }

  lemma NotYetStreamed(pairs: seq<(Outpoint, Entry)>, k: nat, s: Overlay)
    requires k < |pairs| && forall i, j :: 0 <= i < j < |pairs| ==> pairs[i].0 != pairs[j].0
    ensures pairs[k].0 !in Streamed(pairs, k, s)
  {
    StreamedAt(pairs, k, s, pairs[k].0);
  }

  /** The callback was not called more often than it succeeds. */
  predicate Within(emitted: seq<(Outpoint, Entry)>, budget: Option<nat>) {
    budget.None? || |emitted| <= budget.value
  }

  /** Streams the base set under the overlay; `rest` is what the window created besides. The callback's
      `budget + 1`-th call, if there is one, fails. */
  method StreamBase(pairs: seq<(Outpoint, Entry)>, s: Overlay, budget: Option<nat>)
    returns (emitted: seq<(Outpoint, Entry)>, rest: Coins, failed: bool, ghost n: nat)
    requires forall i, j :: 0 <= i < j < |pairs| ==> pairs[i].0 != pairs[j].0
    ensures n <= |pairs| && Lists(emitted, Streamed(pairs, n, s))
    ensures failed ==> budget == Some(|emitted|) && n < |pairs| && pairs[n].0 !in s.spent
    ensures !failed ==> n == |pairs| && rest == s.created - Streamed(pairs, n, s).Keys && Within(emitted, budget)
  {
    emitted, rest, failed, n := [], s.created, false, 0;
    for k := 0 to |pairs|
      invariant n == k && Lists(emitted, Streamed(pairs, k, s))
      invariant rest == s.created - Streamed(pairs, k, s).Keys && Within(emitted, budget)
    {
      var (o, entry) := pairs[k];
      NotYetStreamed(pairs, k, s);
      if o !in s.spent {
        if budget == Some(|emitted|) {
          failed := true;
          return;
        }
        var value := if o in rest then rest[o] else entry;
        ListsSnoc(emitted, Streamed(pairs, k, s), o, value);
        emitted := emitted + [(o, value)];
        rest := rest - {o};
      }
      n := n + 1;
    }
  }

  /** Emits what the window created besides, in the map's own order. */
  method StreamCreated(before: seq<(Outpoint, Entry)>, ghost sent: Coins, created: Coins, budget: Option<nat>)
    returns (emitted: seq<(Outpoint, Entry)>, failed: bool, ghost all: Coins)
    requires Lists(before, sent) && created.Keys !! sent.Keys && Within(before, budget)
    ensures Lists(emitted, all) && sent.Keys <= all.Keys <= sent.Keys + created.Keys
    ensures forall o :: o in all ==> all[o] == if o in sent then sent[o] else created[o]
    ensures failed ==> budget == Some(|emitted|) && all.Keys != sent.Keys + created.Keys
    ensures !failed ==> all.Keys == sent.Keys + created.Keys && Within(emitted, budget)
  {
    emitted, all, failed := before, sent, false;
    var keys := created.Keys;
    while keys != {}
      invariant Lists(emitted, all) && Within(emitted, budget)
      invariant keys <= created.Keys && keys !! all.Keys
      invariant all.Keys + keys == sent.Keys + created.Keys && sent.Keys <= all.Keys
      invariant forall o :: o in all ==> all[o] == if o in sent then sent[o] else created[o]
      decreases keys
    {
      var o :| o in keys;
      if budget == Some(|emitted|) {
        failed := true;
        return;
      }
      ListsSnoc(emitted, all, o, created[o]);
      emitted := emitted + [(o, created[o])];
      all := all[o := created[o]];
      keys := keys - {o};
    }
  }

  method Stream(pairs: seq<(Outpoint, Entry)>, ghost base: Coins, s: Overlay, budget: Option<nat>)
    returns (emitted: seq<(Outpoint, Entry)>, failed: bool, ghost all: Coins)
    requires Lists(pairs, base) && s.created.Keys !! s.spent
    ensures !failed ==> Lists(emitted, Merged(base, s)) && Within(emitted, budget)
    ensures failed ==> Lists(emitted, all) && budget == Some(|emitted|) && Agree(all, Merged(base, s))
    ensures failed ==> all != Merged(base, s)
  {
    ghost var n;
    var rest;
    emitted, rest, failed, n := StreamBase(pairs, s, budget);
    all := Streamed(pairs, n, s);
    StreamedIsPart(pairs, base, n, s);
    if failed {
      StreamedAt(pairs, n, s, pairs[n].0);
      assert pairs[n].0 in Merged(base, s);
    } else {
      emitted, failed, all := StreamCreated(emitted, all, rest, budget);
      if !failed {
        AllSent(pairs, base, s, all);
      } else {
        SentKeys(pairs, base, s);
      }
    }
  }

  /** Every coin of `part` is in `whole`. */
  ghost predicate Agree(part: Coins, whole: Coins) {
    forall o :: o in part ==> o in whole && whole[o] == part[o]
  }

  lemma StreamedIsPart(pairs: seq<(Outpoint, Entry)>, base: Coins, n: nat, s: Overlay)
    requires Lists(pairs, base) && n <= |pairs|
    ensures Agree(Streamed(pairs, n, s), Merged(base, s))
  {
  }

  lemma SentKeys(pairs: seq<(Outpoint, Entry)>, base: Coins, s: Overlay)
    requires Lists(pairs, base) && s.created.Keys !! s.spent
    ensures Merged(base, s).Keys == Streamed(pairs, |pairs|, s).Keys + s.created.Keys
  {
    forall o ensures o in Merged(base, s) <==> o in Streamed(pairs, |pairs|, s) || o in s.created {
      StreamedAt(pairs, |pairs|, s, o);
    }
  }

  lemma AllSent(pairs: seq<(Outpoint, Entry)>, base: Coins, s: Overlay, all: Coins)
    requires Lists(pairs, base) && s.created.Keys !! s.spent
    requires Agree(all, Merged(base, s))
    requires all.Keys == Streamed(pairs, |pairs|, s).Keys + s.created.Keys
    ensures all == Merged(base, s)
  {
    forall o | o in Merged(base, s) ensures o in all {
      StreamedAt(pairs, |pairs|, s, o);
    }
  }

  /** The blocks older than `blocks[i]` are readable, and that one is not, for the reason `e` gives. */
  ghost predicate FailsAt(s: Stores, blocks: seq<Hash>, i: nat, e: Error) {
    && i < |blocks| && (forall k :: i < k < |blocks| ==> BlockReadable(s, blocks[k]))
    && var h := blocks[i];
       match e
       case NoDaaScore(b) => b == h && h !in s.headerDaaScore && h !in s.storedDaaScore
       case NoAcceptanceData(b) => b == h && (h in s.headerDaaScore || h in s.storedDaaScore) && h !in s.acceptance
       case OutputIndexOverflow => Load(s, h).Some? && !BlockReadable(s, h)
       case _ => false
  }

  /** Applies the blocks of a chain from the oldest up; an error is about the first block that could not be read. */
  method ApplyChain(s: Stores, blocks: seq<Hash>) returns (state: Overlay, err: Option<Error>)
    ensures err.None? <==> forall h :: h in blocks ==> BlockReadable(s, h)
    ensures err.None? ==> Loaded(s, blocks, 0) && state == Run(ChainEvents(s, blocks, 0, BySubnetwork))
    ensures err.Some? ==> StoreError(err.value) && exists i: nat :: FailsAt(s, blocks, i, err.value)
  {
    state := EMPTY;
    var i := |blocks|;
    while i > 0
      invariant 0 <= i <= |blocks|
      invariant forall k :: i <= k < |blocks| ==> BlockReadable(s, blocks[k])
      invariant state == Run(ChainEvents(s, blocks, i, BySubnetwork))
    {
      var h := blocks[i-1];
      assert h in blocks;
      if h !in s.headerDaaScore && h !in s.storedDaaScore {
        assert FailsAt(s, blocks, i - 1, NoDaaScore(h));
        return state, Some(NoDaaScore(h));
      }
      var daaScore := if h in s.headerDaaScore then s.headerDaaScore[h] else s.storedDaaScore[h];
      if h !in s.acceptance {
        assert FailsAt(s, blocks, i - 1, NoAcceptanceData(h));
        return state, Some(NoAcceptanceData(h));
      }
      var b := ChainBlock(daaScore, s.acceptance[h]);
      var overflow;
      state, overflow := ApplyBlock(b, state, ChainEvents(s, blocks, i, BySubnetwork));
      if overflow {
        assert FailsAt(s, blocks, i - 1, OutputIndexOverflow);
        return state, Some(OutputIndexOverflow);
      }
      i := i - 1;
    }
    err := None;
  }

  /** The streaming derivation. On success each coin is emitted exactly once and the emitted set is the
      overlay's; it is the replayed set exactly when OverlayEqualsReplay's condition holds. */
  method IterateUtxoSetAtBlock(preparation: Preparation, s: Stores, block: Hash, pairs: seq<(Outpoint, Entry)>,
                               ghost base: Coins, budget: Option<nat>)
    returns (emitted: seq<(Outpoint, Entry)>, err: Option<Error>, ghost chain: seq<Hash>, ghost all: Coins)
    requires BlueScoresRise(s.ghostdag) && Lists(pairs, base)
    ensures err == Some(PruningPointUpdateFailed) <==> preparation.UpdateFails?
    ensures err == Some(SetBeingChecked) <==> preparation.BeingChecked?
    ensures err.None? || err.value.CallbackFailed? <==> preparation.Ready? && Derivable(s, block)
    ensures err.None? ==>
              && SelectedChain(s, block) == Some(chain) && Loaded(s, chain, 0)
              && var es := ChainEvents(s, chain, 0, BySubnetwork);
                 && Lists(emitted, Merged(base, Run(es)))
                 && (Lists(emitted, Replay(base, es)) <==> forall o :: o in base ==> !RecreatedThenSpent(es, o))
    ensures err == Some(CallbackFailed) ==>
              && SelectedChain(s, block) == Some(chain) && Loaded(s, chain, 0)
              && budget == Some(|emitted|) && Lists(emitted, all)
              && Agree(all, Merged(base, Run(ChainEvents(s, chain, 0, BySubnetwork))))
              && all != Merged(base, Run(ChainEvents(s, chain, 0, BySubnetwork)))
    ensures err.Some? && !err.value.CallbackFailed? ==> emitted == []
    ensures err.None? ==> Within(emitted, budget)
    ensures preparation.Ready? && err.Some? && !err.value.CallbackFailed? ==>
              || err == WalkError(s, block)
              || (SelectedChain(s, block) == Some(chain) && exists i: nat :: FailsAt(s, chain, i, err.value))
  {
    emitted, chain, all := [], [], map[];
    if preparation.UpdateFails? {
      return [], Some(PruningPointUpdateFailed), [], map[];
    }
    if preparation.BeingChecked? {
      return [], Some(SetBeingChecked), [], map[];
    }
    var blocks;
    blocks, err := CollectChain(s, block);
    chain, all := blocks, map[];
    if err.Some? {
      return;
    }
    var state;
    state, err := ApplyChain(s, blocks);
    if err.Some? {
      return;
    }
    ghost var es := ChainEvents(s, blocks, 0, BySubnetwork);
    SpentAndCreatedDisjoint(es);
    var failed;
    emitted, failed, all := Stream(pairs, base, state, budget);
    if failed {
      return emitted, Some(CallbackFailed), blocks, all;
    }
    OverlayEqualsReplay(base, es);
    ListedSetUnique(emitted, Merged(base, state), Replay(base, es));
  }

  lemma ListedSetUnique(pairs: seq<(Outpoint, Entry)>, a: Coins, b: Coins)
    requires Lists(pairs, a)
    ensures Lists(pairs, b) <==> a == b
  {
  }

  // ----- The plain replay

  method ReplayTransaction(tx: Transaction, isCoinbase: bool, daaScore: nat, coins: Coins) returns (next: Coins)
    ensures next == Replay(coins, TxEvents(tx, isCoinbase, daaScore))
  {
    next := coins;
    for k := 0 to |tx.inputs|
      invariant next == Replay(coins, Spends(tx, k))
    {
      ReplaySnoc(coins, Spends(tx, k), Spent(tx, k));
      next := next - {tx.inputs[k].previous};
    }
    ghost var mid := next;
    for k := 0 to |tx.outputs|
      invariant next == Replay(mid, Creations(tx, k, isCoinbase, daaScore))
    {
      var coin := Created(tx, k, isCoinbase, daaScore);
      ReplaySnoc(mid, Creations(tx, k, isCoinbase, daaScore), coin);
      next := next[coin.outpoint := coin.entry];
    }
    ReplayConcat(coins, Spends(tx, |tx.inputs|), Creations(tx, |tx.outputs|, isCoinbase, daaScore));
  }

  lemma ReplaySnoc(coins: Coins, es: seq<Event>, e: Event)
    ensures Replay(coins, es + [e]) == ReplayStep(Replay(coins, es), e)
  {
  }

  method ReplayBlock(b: ChainBlock, coins: Coins) returns (next: Coins)
    ensures next == Replay(coins, BlockEvents(b, |b.mergeSet|, ByPosition))
  {
    next := coins;
    for n := 0 to |b.mergeSet|
      invariant next == Replay(coins, BlockEvents(b, n, ByPosition))
    {
      var m := b.mergeSet[n];
      ghost var before := next;
      for k := 0 to |m|
        invariant next == Replay(before, MergedEvents(m, k, b.daaScore, ByPosition))
      {
        ghost var es := MergedEvents(m, k, b.daaScore, ByPosition);
        if m[k].isAccepted {
          next := ReplayTransaction(m[k].tx, k == 0, b.daaScore, next);
          ReplayConcat(before, es, TxEvents(m[k].tx, k == 0, b.daaScore));
        } else {
          assert MergedEvents(m, k + 1, b.daaScore, ByPosition) == es + [] == es;
        }
      }
      ReplayConcat(coins, BlockEvents(b, n, ByPosition), MergedEvents(m, |m|, b.daaScore, ByPosition));
    }
  }

  method Gather(pairs: seq<(Outpoint, Entry)>, ghost base: Coins) returns (m: Coins)
    requires Lists(pairs, base)
    ensures m == base
  {
    m := map[];
    for n := 0 to |pairs|
      invariant m.Keys == set i | 0 <= i < n :: pairs[i].0
      invariant forall i :: 0 <= i < n ==> m[pairs[i].0] == pairs[i].1
    {
      m := m[pairs[n].0 := pairs[n].1];
    }
  }

  /** The plain derivation: every coin of the base set in a map, the chain applied on top from its oldest
      block. It stops at a block whose DAA score or acceptance data is missing. */
  method ReplayForward(s: Stores, chain: seq<Hash>, pairs: seq<(Outpoint, Entry)>, ghost base: Coins)
    returns (coins: Option<Coins>)
    requires Lists(pairs, base)
    ensures coins.Some? <==> Loaded(s, chain, 0)
    ensures coins.Some? ==> coins.value == Replay(base, ChainEvents(s, chain, 0, ByPosition))
  {
    var m := Gather(pairs, base);
    var i := |chain|;
    while i > 0
      invariant 0 <= i <= |chain| && Loaded(s, chain, i)
      invariant m == Replay(base, ChainEvents(s, chain, i, ByPosition))
    {
      var b := Load(s, chain[i-1]);
      if b.None? {
        return None;
      }
      m := ReplayBlock(b.value, m);
      ReplayConcat(base, ChainEvents(s, chain, i, ByPosition), BlockEvents(b.value, |b.value.mergeSet|, ByPosition));
      i := i - 1;
    }
    return Some(m);
  }

  /** The plain derivation of virtual's set: the chain up to the tip, and virtual's own acceptance data, with
      virtual's stored DAA score, on top. */
  method ReplayToVirtual(s: Stores, virtual: Hash, chain: seq<Hash>, pairs: seq<(Outpoint, Entry)>, ghost base: Coins)
    returns (coins: Option<Coins>)
    requires Lists(pairs, base)
    ensures coins.Some? <==> Loaded(s, chain, 0) && virtual in s.storedDaaScore && virtual in s.acceptance
    ensures coins.Some? ==>
              var b := ChainBlock(s.storedDaaScore[virtual], s.acceptance[virtual]);
              coins.value ==
              Replay(base, ChainEvents(s, chain, 0, ByPosition) + BlockEvents(b, |b.mergeSet|, ByPosition))
  {
    coins := ReplayForward(s, chain, pairs, base);
    if coins.None? || virtual !in s.storedDaaScore || virtual !in s.acceptance {
      return None;
    }
    var b := ChainBlock(s.storedDaaScore[virtual], s.acceptance[virtual]);
    ReplayConcat(base, ChainEvents(s, chain, 0, ByPosition), BlockEvents(b, |b.mergeSet|, ByPosition));
    var top := ReplayBlock(b, coins.value);
    return Some(top);
  }

  /** In valid blocks the coinbase is the transaction at position 0 and no other. */
  ghost predicate ValidBlocks(s: Stores, chain: seq<Hash>, from: nat)
    requires from <= |chain| && Loaded(s, chain, from)
  {
    forall i, m :: from <= i < |chain| && m in s.acceptance[chain[i]] ==> RulesAgree(m, |m|)
  }

  lemma {:induction false} ValidBlocksSameEvents(s: Stores, chain: seq<Hash>, from: nat)
    requires from <= |chain| && Loaded(s, chain, from) && ValidBlocks(s, chain, from)
    ensures ChainEvents(s, chain, from, BySubnetwork) == ChainEvents(s, chain, from, ByPosition)
    decreases |chain| - from
  {
    if from < |chain| {
      ValidBlocksSameEvents(s, chain, from + 1);
      var b := Load(s, chain[from]).value;
      forall n | 0 <= n < |b.mergeSet| ensures RulesAgree(b.mergeSet[n], |b.mergeSet[n]|) {
        assert b.mergeSet[n] in s.acceptance[chain[from]];
      }
      SameBlockEvents(b, |b.mergeSet|);
    }
  }

  lemma {:induction false} SameBlockEvents(b: ChainBlock, n: nat)
    requires n <= |b.mergeSet| && forall i :: 0 <= i < n ==> RulesAgree(b.mergeSet[i], |b.mergeSet[i]|)
    ensures BlockEvents(b, n, BySubnetwork) == BlockEvents(b, n, ByPosition)
  {
    if n > 0 {
      SameBlockEvents(b, n - 1);
      SameEventsIffRulesAgree(b.mergeSet[n-1], |b.mergeSet[n-1]|, b.daaScore);
    }
  }

  /** One block above the pruning point, whose coinbase creates output 0 of `id` and whose next transaction spends
      it. */
  function Recreating(pruningPoint: Hash, block: Hash, id: Hash, output: Output, spender: Hash): Stores {
    Stores(map[block := GhostdagData(1, Some(pruningPoint))], map[block := 1], map[],
           map[block := [[TxAcceptance(Transaction(id, [], [output], true), true),
                          TxAcceptance(Transaction(spender, [Input(Outpoint(id, 0), None)], [], false), true)]]],
           map[block := [block]], pruningPoint)
  }

  lemma {:induction false} RecreatingEvents(pruningPoint: Hash, block: Hash, id: Hash, output: Output, spender: Hash)
    ensures var s := Recreating(pruningPoint, block, id, output, spender);
            && Loaded(s, [block], 0)
            && ChainEvents(s, [block], 0, BySubnetwork) ==
               [Create(Outpoint(id, 0), Entry(output.value, output.script, true, 1)), Spend(Outpoint(id, 0), None)]
  {
    var s := Recreating(pruningPoint, block, id, output, spender);
    var b := Load(s, block).value;
    var m := b.mergeSet[0];
    assert TxEvents(m[0].tx, true, 1) == [Created(m[0].tx, 0, true, 1)] by {
      assert Spends(m[0].tx, 0) == [] && Creations(m[0].tx, 0, true, 1) == [];
    }
    assert TxEvents(m[1].tx, false, 1) == [Spent(m[1].tx, 0)] by {
      assert Spends(m[1].tx, 0) == [] && Creations(m[1].tx, 0, false, 1) == [];
    }
    assert MergedEvents(m, 1, 1, BySubnetwork) == [] + TxEvents(m[0].tx, true, 1);
    assert MergedEvents(m, 2, 1, BySubnetwork) == MergedEvents(m, 1, 1, BySubnetwork) + TxEvents(m[1].tx, false, 1);
    assert BlockEvents(b, 1, BySubnetwork) == [] + MergedEvents(m, 2, 1, BySubnetwork);
    assert ChainEvents(s, [block], 1, BySubnetwork) == [];
  }

  /** The condition is needed: stores over which the derivation succeeds, with valid blocks, and streams a coin of
      the base set that the window created again and spent, so that the replayed set has no coin there. */
  lemma {:induction false} OverlayCanResurrectACoin(pruningPoint: Hash, block: Hash, id: Hash, output: Output,
                                                    spender: Hash, coin: Entry)
    requires block != pruningPoint && pruningPoint != VIRTUAL_GENESIS
    ensures var s, base := Recreating(pruningPoint, block, id, output, spender), map[Outpoint(id, 0) := coin];
            && BlueScoresRise(s.ghostdag) && SelectedChain(s, block) == Some([block]) && Derivable(s, block)
            && Loaded(s, [block], 0) && ValidBlocks(s, [block], 0)
            && var es := ChainEvents(s, [block], 0, BySubnetwork);
               Merged(base, Run(es)) == base && Replay(base, es) == map[]
  {
    var s, base := Recreating(pruningPoint, block, id, output, spender), map[Outpoint(id, 0) := coin];
    RecreatingEvents(pruningPoint, block, id, output, spender);
    RecreatedCoinSurvives(Outpoint(id, 0), coin, Entry(output.value, output.script, true, 1), None);
    assert SelectedChain(s, pruningPoint) == Some([]) && [block] + [] == [block];
    var es := ChainEvents(s, [block], 0, BySubnetwork);
    assert es[..1] == [es[0]] && es[..1][..0] == [];
    assert Replay(base, es[..1]) == base[Outpoint(id, 0) := es[0].entry];
  }

  /** Over valid blocks the set the node streams is the set the plain replay computes, exactly when no
      coin of the base set is created again and then spent in the window. */
  lemma DerivationsAgree(s: Stores, chain: seq<Hash>, base: Coins)
    requires Loaded(s, chain, 0) && ValidBlocks(s, chain, 0)
    ensures var es := ChainEvents(s, chain, 0, BySubnetwork);
            Merged(base, Run(es)) == Replay(base, ChainEvents(s, chain, 0, ByPosition)) <==>
            forall o :: o in base ==> !RecreatedThenSpent(es, o)
  {
    ValidBlocksSameEvents(s, chain, 0);
    OverlayEqualsReplay(base, ChainEvents(s, chain, 0, BySubnetwork));
  }
}
