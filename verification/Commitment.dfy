/** The incremental UTXO commitment: a MuHash that each accepted transaction adds to and removes from. */
module Commitment {
  import opened Utxo
  import opened UtxoDerivation

  type Element = (Outpoint, Entry)

  /** A MuHash keeps the product of what was added and the product of what was removed apart; two of them
      hash alike when the quotients are equal. Serialization and hashing are taken to be injective. */
  datatype MuHash = MuHash(numerator: multiset<Element>, denominator: multiset<Element>)

  const EMPTY_SET: MuHash := MuHash(multiset{}, multiset{})

  predicate SameHash(a: MuHash, b: MuHash) {
    a.numerator + b.denominator == b.numerator + a.denominator
  }

  /** The MuHash of a set of coins computed from scratch. */
  ghost function OfCoins(coins: Coins): MuHash {
    MuHash(multiset(coins.Items), multiset{})
  }

  /** The running multiset object. */
  class Multiset {
    var state: MuHash

    constructor ()
      ensures state == EMPTY_SET
    {
      state := EMPTY_SET;
    }

    method Add(e: Element)
      modifies this
      ensures state == old(state).(numerator := old(state).numerator + multiset{e})
    {
      state := state.(numerator := state.numerator + multiset{e});
    }

    method Remove(e: Element)
      modifies this
      ensures state == old(state).(denominator := old(state).denominator + multiset{e})
    {
      state := state.(denominator := state.denominator + multiset{e});
    }
  }

  // ----- What the commitment does with the coin events

  function MuStep(ms: MuHash, e: Event): MuHash {
    match e
    case Spend(o, Some(entry)) => ms.(denominator := ms.denominator + multiset{(o, entry)})
    case Spend(o, None) => ms
    case Create(o, entry) => ms.(numerator := ms.numerator + multiset{(o, entry)})
  }

  function MuRun(ms: MuHash, es: seq<Event>): MuHash
    decreases |es|
  {
    if es == [] then ms else MuStep(MuRun(ms, es[..|es|-1]), es[|es|-1])
  }

  lemma MuRunSnoc(ms: MuHash, es: seq<Event>, e: Event)
    ensures MuRun(ms, es + [e]) == MuStep(MuRun(ms, es), e)
  {
  }

  lemma {:induction false} MuRunConcat(ms: MuHash, a: seq<Event>, b: seq<Event>)
    ensures MuRun(ms, a + b) == MuRun(MuRun(ms, a), b)
    decreases |b|
  {
    if b == [] {
      assert a + b == a;
    } else {
      assert (a + b)[..|a + b| - 1] == a + b[..|b|-1];
      MuRunConcat(ms, a, b[..|b|-1]);
    }
  }

  /** The event says what really happens to the set: a recorded spend names the coin the set holds, and a
      created coin is new. */
  ghost predicate Truthful(coins: Coins, e: Event) {
    match e
    case Spend(o, Some(entry)) => o in coins && coins[o] == entry
    case Spend(o, None) => o !in coins
    case Create(o, _) => o !in coins
  }

  lemma ItemsWithout(coins: Coins, o: Outpoint)
    requires o in coins
    ensures multiset(coins.Items) == multiset((coins - {o}).Items) + multiset{(o, coins[o])}
  {
    var rest := coins - {o};
    assert coins.Items == rest.Items + {(o, coins[o])} by {
      forall x | x in coins.Items ensures x in rest.Items + {(o, coins[o])} {
        if x.0 != o { assert x.0 in rest && rest[x.0] == x.1; }
      }
    }
    assert (o, coins[o]) !in rest.Items;
  }

  lemma ItemsWith(coins: Coins, o: Outpoint, entry: Entry)
    requires o !in coins
    ensures multiset(coins[o := entry].Items) == multiset(coins.Items) + multiset{(o, entry)}
  {
    var more := coins[o := entry];
    ItemsWithout(more, o);
    assert more - {o} == coins;
  }

  lemma AddToBoth(a: MuHash, b: MuHash, x: Element)
    requires SameHash(a, b)
    ensures SameHash(a.(numerator := a.numerator + multiset{x}), b.(numerator := b.numerator + multiset{x}))
  {
    assert (a.numerator + multiset{x}) + b.denominator == (a.numerator + b.denominator) + multiset{x};
    assert (b.numerator + multiset{x}) + a.denominator == (b.numerator + a.denominator) + multiset{x};
  }

  lemma SpendKeepsStep(ms: MuHash, coins: Coins, o: Outpoint, r: Option<Entry>)
    requires SameHash(ms, OfCoins(coins))
    ensures var e := Spend(o, r);
            SameHash(MuStep(ms, e), OfCoins(ReplayStep(coins, e))) <==> Truthful(coins, e)
  {
    var e := Spend(o, r);
    var next := ReplayStep(coins, e);
    if o in coins {
      ItemsWithout(coins, o);
      if r.Some? && r.value != coins[o] {
        Counts(MuStep(ms, e), OfCoins(next), (o, coins[o]));
        Counts(ms, OfCoins(coins), (o, coins[o]));
      } else if r.None? {
        Counts(ms, OfCoins(next), (o, coins[o]));
        Counts(ms, OfCoins(coins), (o, coins[o]));
      }
    } else {
      assert next == coins;
      if r.Some? {
        Counts(MuStep(ms, e), OfCoins(next), (o, r.value));
        Counts(ms, OfCoins(coins), (o, r.value));
      }
    }
  }

  lemma CreateKeepsStep(ms: MuHash, coins: Coins, o: Outpoint, entry: Entry)
    requires SameHash(ms, OfCoins(coins))
    ensures var e := Create(o, entry);
            SameHash(MuStep(ms, e), OfCoins(ReplayStep(coins, e))) <==> Truthful(coins, e)
  {
    var e := Create(o, entry);
    var next := ReplayStep(coins, e);
    if o !in coins {
      ItemsWith(coins, o, entry);
      AddToBoth(ms, OfCoins(coins), (o, entry));
    } else {
      ItemsWithout(coins, o);
      ItemsWith(coins - {o}, o, entry);
      assert (coins - {o})[o := entry] == next;
      Counts(MuStep(ms, e), OfCoins(next), (o, coins[o]));
      Counts(ms, OfCoins(coins), (o, coins[o]));
    }
  }

  /** One event keeps commitment and set in step exactly when it is truthful. */
  lemma EventKeepsStep(ms: MuHash, coins: Coins, e: Event)
    requires SameHash(ms, OfCoins(coins))
    ensures SameHash(MuStep(ms, e), OfCoins(ReplayStep(coins, e))) <==> Truthful(coins, e)
  {
    match e {
      case Spend(o, r) => SpendKeepsStep(ms, coins, o, r);
      case Create(o, entry) => CreateKeepsStep(ms, coins, o, entry);
    }
  }

  /** What equal hashes say about one element. */
  lemma Counts(a: MuHash, b: MuHash, x: Element)
    ensures SameHash(a, b) ==> a.numerator[x] + b.denominator[x] == b.numerator[x] + a.denominator[x]
  {
    if SameHash(a, b) {
      assert (a.numerator + b.denominator)[x] == (b.numerator + a.denominator)[x];
    }
  }

  /** The commitment is the hash of the replayed set now and after every event of `es`. */
  ghost predicate AlwaysInStep(ms: MuHash, coins: Coins, es: seq<Event>)
    decreases |es|
  {
    && SameHash(MuRun(ms, es), OfCoins(Replay(coins, es)))
    && (es != [] ==> AlwaysInStep(ms, coins, es[..|es|-1]))
  }

  /** Every event of `es` is truthful about the set it meets. */
  ghost predicate AlwaysTruthful(coins: Coins, es: seq<Event>)
    decreases |es|
  {
    es != [] ==>
      AlwaysTruthful(coins, es[..|es|-1]) && Truthful(Replay(coins, es[..|es|-1]), es[|es|-1])
  }

  /** Starting in step, the incremental commitment is the hash of the replayed set after every event, if and
      only if every event is truthful about the set it meets. */
  lemma {:induction false} CommitmentTracksReplay(ms: MuHash, coins: Coins, es: seq<Event>)
    requires SameHash(ms, OfCoins(coins))
    ensures AlwaysInStep(ms, coins, es) <==> AlwaysTruthful(coins, es)
    decreases |es|
  {
    if es != [] {
      var front := es[..|es|-1];
      CommitmentTracksReplay(ms, coins, front);
      if AlwaysInStep(ms, coins, front) {
        EventKeepsStep(MuRun(ms, front), Replay(coins, front), es[|es|-1]);
      }
    }
  }

  lemma {:induction false} InStepAfterPrefix(ms: MuHash, coins: Coins, es: seq<Event>, n: nat)
    requires AlwaysInStep(ms, coins, es) && n <= |es|
    ensures SameHash(MuRun(ms, es[..n]), OfCoins(Replay(coins, es[..n])))
    decreases |es|
  {
    if n == |es| {
      assert es[..n] == es;
    } else {
      var front := es[..|es|-1];
      assert AlwaysInStep(ms, coins, front);
      assert front[..n] == es[..n];
      InStepAfterPrefix(ms, coins, front, n);
    }
  }

  // ----- The methods that maintain it

  ghost predicate Resolved(tx: Transaction) {
    forall i :: 0 <= i < |tx.inputs| ==> tx.inputs[i].entry.Some?
  }

  method RemoveInputs(ms: Multiset, tx: Transaction) returns (ok: bool, ghost removed: nat)
    modifies ms
    ensures ok <==> Resolved(tx)
    ensures removed <= |tx.inputs| && ms.state == MuRun(old(ms.state), Spends(tx, removed))
    ensures if ok then removed == |tx.inputs| else removed < |tx.inputs| && tx.inputs[removed].entry.None?
  {
    removed := 0;
    for k := 0 to |tx.inputs|
      invariant removed == k && forall i :: 0 <= i < k ==> tx.inputs[i].entry.Some?
      invariant ms.state == MuRun(old(ms.state), Spends(tx, k))
    {
      if tx.inputs[k].entry.None? {
        return false, k;
      }
      MuRunSnoc(old(ms.state), Spends(tx, k), Spent(tx, k));
      ms.Remove((tx.inputs[k].previous, tx.inputs[k].entry.value));
      removed := removed + 1;
    }
    ok := true;
  }

  lemma MuCreationsStep(ms: MuHash, tx: Transaction, k: nat, isCoinbase: bool, daaScore: nat)
    requires k < |tx.outputs|
    ensures var soFar := MuRun(ms, Creations(tx, k, isCoinbase, daaScore));
            var coin := Created(tx, k, isCoinbase, daaScore);
            MuRun(ms, Creations(tx, k + 1, isCoinbase, daaScore)) ==
            soFar.(numerator := soFar.numerator + multiset{(coin.outpoint, coin.entry)})
  {
  }

  method AddOutputs(ms: Multiset, tx: Transaction, daaScore: nat, isCoinbase: bool) returns (ok: bool)
    modifies ms
    ensures ok <==> |tx.outputs| <= UINT32_MODULUS
    ensures ok ==> ms.state == MuRun(old(ms.state), Creations(tx, |tx.outputs|, isCoinbase, daaScore))
  {
    ghost var before := ms.state;
    for k := 0 to |tx.outputs|
      invariant k <= UINT32_MODULUS
      invariant ms.state == MuRun(before, Creations(tx, k, isCoinbase, daaScore))
    {
      if k >= UINT32_MODULUS {
        return false;
      }
      var coin := Created(tx, k, isCoinbase, daaScore);
      MuCreationsStep(before, tx, k, isCoinbase, daaScore);
      ms.Add((coin.outpoint, coin.entry));
    }
    ok := true;
  }

  /** Removes a transaction's inputs and adds its outputs; an input without a recorded entry is an error,
      which leaves the multiset with the inputs before it removed. */
  method AddTx(ms: Multiset, tx: Transaction, daaScore: nat, isCoinbase: bool) returns (ok: bool)
    modifies ms
    ensures ok <==> Resolved(tx) && |tx.outputs| <= UINT32_MODULUS
    ensures ok ==> ms.state == MuRun(old(ms.state), TxEvents(tx, isCoinbase, daaScore))
    ensures !Resolved(tx) ==>
              exists k: nat :: k < |tx.inputs| && tx.inputs[k].entry.None? &&
                               ms.state == MuRun(old(ms.state), Spends(tx, k))
  {
    ghost var removed;
    ok, removed := RemoveInputs(ms, tx);
    if ok {
      ok := AddOutputs(ms, tx, daaScore, isCoinbase);
      MuRunConcat(old(ms.state), Spends(tx, |tx.inputs|), Creations(tx, |tx.outputs|, isCoinbase, daaScore));
    }
  }

  /** Every accepted transaction among the first `n` can be applied. */
  ghost predicate Applicable(m: MergedBlock, n: nat)
    requires n <= |m|
  {
    forall k :: 0 <= k < n && m[k].isAccepted ==> Resolved(m[k].tx) && |m[k].tx.outputs| <= UINT32_MODULUS
  }

  method ApplyMerged(ms: Multiset, m: MergedBlock, daaScore: nat) returns (ok: bool)
    modifies ms
    ensures ok <==> Applicable(m, |m|)
    ensures ok ==> ms.state == MuRun(old(ms.state), MergedEvents(m, |m|, daaScore, ByPosition))
  {
    ghost var before := ms.state;
    for k := 0 to |m|
      invariant Applicable(m, k) && ms.state == MuRun(before, MergedEvents(m, k, daaScore, ByPosition))
    {
      MuMergedStep(before, m, k, daaScore);
      if m[k].isAccepted {
        ok := AddTx(ms, m[k].tx, daaScore, k == 0);
        if !ok {
          return;
        }
      }
    }
    return true;
  }

  lemma MuMergedStep(ms: MuHash, m: MergedBlock, k: nat, daaScore: nat)
    requires k < |m|
    ensures var soFar := MuRun(ms, MergedEvents(m, k, daaScore, ByPosition));
            MuRun(ms, MergedEvents(m, k + 1, daaScore, ByPosition)) ==
            if m[k].isAccepted then MuRun(soFar, TxEvents(m[k].tx, k == 0, daaScore)) else soFar
  {
    var es := MergedEvents(m, k, daaScore, ByPosition);
    if m[k].isAccepted {
      MuRunConcat(ms, es, TxEvents(m[k].tx, k == 0, daaScore));
    } else {
      assert es + [] == es;
    }
  }

  /** The base multiset, rebuilt from the stored pruning point UTXO set. */
  method BaseMultiset(pairs: seq<(Outpoint, Entry)>, ghost base: Coins) returns (ms: Multiset)
    requires Lists(pairs, base)
    ensures fresh(ms) && ms.state == OfCoins(base)
  {
    ms := new Multiset();
    ghost var seen: Coins := map[];
    for n := 0 to |pairs|
      invariant Lists(pairs[..n], seen) && ms.state == OfCoins(seen)
    {
      ListsNext(pairs, base, n, seen);
      ItemsWith(seen, pairs[n].0, pairs[n].1);
      seen := seen[pairs[n].0 := pairs[n].1];
      ms.Add(pairs[n]);
    }
    assert pairs[..|pairs|] == pairs;
    ListedSetUnique(pairs, seen, base);
  }

  /** The commitment after the blocks from the oldest of the chain up to `chain[from]`. */
  ghost function CommitmentAt(s: Stores, chain: seq<Hash>, base: Coins, from: nat): MuHash
    requires from <= |chain| && Loaded(s, chain, from)
  {
    MuRun(OfCoins(base), ChainEvents(s, chain, from, ByPosition))
  }

  lemma {:induction false} EventsOfOlderBlocksAreAPrefix(s: Stores, chain: seq<Hash>, from: nat)
    requires from <= |chain| && Loaded(s, chain, 0)
    ensures ChainEvents(s, chain, from, ByPosition) <= ChainEvents(s, chain, 0, ByPosition)
  {
    if from > 0 {
      EventsOfOlderBlocksAreAPrefix(s, chain, from - 1);
    }
  }

  /** After every block of a chain whose recorded acceptance is truthful, the incremental commitment is the
      hash of the set the plain replay reaches at that block. */
  lemma CommitmentAfterBlock(s: Stores, chain: seq<Hash>, from: nat, base: Coins)
    requires from <= |chain| && Loaded(s, chain, 0)
    requires AlwaysTruthful(base, ChainEvents(s, chain, 0, ByPosition))
    ensures SameHash(CommitmentAt(s, chain, base, from),
                     OfCoins(Replay(base, ChainEvents(s, chain, from, ByPosition))))
  {
    var all := ChainEvents(s, chain, 0, ByPosition);
    var es := ChainEvents(s, chain, from, ByPosition);
    EventsOfOlderBlocksAreAPrefix(s, chain, from);
    CommitmentTracksReplay(OfCoins(base), base, all);
    InStepAfterPrefix(OfCoins(base), base, all, |es|);
    assert all[..|es|] == es;
  }

  // ----- The three derivations together

  lemma ItemsDetermineCoins(a: Coins, b: Coins)
    ensures multiset(a.Items) == multiset(b.Items) <==> a == b
  {
    if multiset(a.Items) == multiset(b.Items) {
      forall o | o in a ensures o in b && a[o] == b[o] {
        assert (o, a[o]) in a.Items;
        assert (o, a[o]) in multiset(b.Items);
      }
      forall o | o in b ensures o in a {
        assert (o, b[o]) in b.Items;
        assert (o, b[o]) in multiset(a.Items);
      }
    }
  }

  /** A commitment is the hash of at most one set. */
  lemma HashDeterminesCoins(ms: MuHash, a: Coins, b: Coins)
    requires SameHash(ms, OfCoins(a))
    ensures SameHash(ms, OfCoins(b)) <==> a == b
  {
    if SameHash(ms, OfCoins(b)) {
      forall x ensures multiset(a.Items)[x] == multiset(b.Items)[x] {
        Counts(ms, OfCoins(a), x);
        Counts(ms, OfCoins(b), x);
      }
      ItemsDetermineCoins(a, b);
    }
  }

  /** Over valid blocks whose recorded acceptance is truthful, the set the node streams hashes to the incrementally
      kept commitment exactly when no coin of the base set is created again and then spent in the window. */
  lemma StreamedSetMatchesCommitment(s: Stores, chain: seq<Hash>, base: Coins)
    requires Loaded(s, chain, 0) && ValidBlocks(s, chain, 0)
    requires AlwaysTruthful(base, ChainEvents(s, chain, 0, ByPosition))
    ensures var es := ChainEvents(s, chain, 0, BySubnetwork);
            SameHash(CommitmentAt(s, chain, base, 0), OfCoins(Merged(base, Run(es)))) <==>
            forall o :: o in base ==> !RecreatedThenSpent(es, o)
  {
    CommitmentAfterBlock(s, chain, 0, base);
    DerivationsAgree(s, chain, base);
    HashDeterminesCoins(CommitmentAt(s, chain, base, 0), Replay(base, ChainEvents(s, chain, 0, ByPosition)),
                        Merged(base, Run(ChainEvents(s, chain, 0, BySubnetwork))));
  }
}
