/** What accepted transactions do to a set of coins, outpoint by outpoint: the last accepted transaction to touch an
    outpoint decides what is there. Every derivation of the UTXO set replays coin events; these are laws of that
    replay in terms of the transactions alone. */
module Acceptance {
  import opened Utxo
  import opened UtxoDerivation

  // ----- One transaction

  ghost predicate SpentBy(tx: Transaction, o: Outpoint) {
    exists i :: 0 <= i < |tx.inputs| && tx.inputs[i].previous == o
  }

  predicate CreatedBy(tx: Transaction, o: Outpoint) {
    o.txId == tx.id && o.index < |tx.outputs| && o.index < 0x1_0000_0000
  }

  /** The position of the last of `n` outputs whose position, in 32 bits, is `index`. */
  function LastAt(n: nat, index: nat): (k: nat)
    requires index < n && index < 0x1_0000_0000
    ensures k < n && k % 0x1_0000_0000 == index
    ensures forall j :: k < j < n ==> j % 0x1_0000_0000 != index
  {
    if (n - 1) % 0x1_0000_0000 == index then n - 1 else LastAt(n - 1, index)
  }

  /** The coin the transaction leaves at `o`. */
  function CoinOf(tx: Transaction, isCoinbase: bool, daaScore: nat, o: Outpoint): Option<Entry> {
    CoinOfFirst(tx, |tx.outputs|, isCoinbase, daaScore, o)
  }

  ghost predicate SpentByFirst(tx: Transaction, n: nat, o: Outpoint) {
    exists i :: 0 <= i < n <= |tx.inputs| && tx.inputs[i].previous == o
  }

  lemma NextInput(coins: Coins, tx: Transaction, n: nat, o: Outpoint)
    requires n < |tx.inputs|
    ensures Lookup(Replay(coins, Spends(tx, n + 1)), o) ==
            if o == tx.inputs[n].previous then None else Lookup(Replay(coins, Spends(tx, n)), o)
    ensures SpentByFirst(tx, n + 1, o) <==> SpentByFirst(tx, n, o) || o == tx.inputs[n].previous
  {
    var all := Spends(tx, n + 1);
    assert all[..|all|-1] == Spends(tx, n);
    if o == tx.inputs[n].previous {
      assert SpentByFirst(tx, n + 1, o);
    }
  }

  lemma {:induction false} SpendsMean(coins: Coins, tx: Transaction, n: nat, o: Outpoint)
    requires n <= |tx.inputs|
    ensures Lookup(Replay(coins, Spends(tx, n)), o) == if SpentByFirst(tx, n, o) then None else Lookup(coins, o)
  {
    if n > 0 {
      SpendsMean(coins, tx, n - 1, o);
      NextInput(coins, tx, n - 1, o);
    }
  }

  lemma NextOutput(coins: Coins, tx: Transaction, n: nat, isCoinbase: bool, daaScore: nat, o: Outpoint)
    requires n < |tx.outputs|
    ensures Lookup(Replay(coins, Creations(tx, n + 1, isCoinbase, daaScore)), o) ==
            if o == Outpoint(tx.id, n % 0x1_0000_0000)
            then Some(Entry(tx.outputs[n].value, tx.outputs[n].script, isCoinbase, daaScore))
            else Lookup(Replay(coins, Creations(tx, n, isCoinbase, daaScore)), o)
  {
    var all, before := Creations(tx, n + 1, isCoinbase, daaScore), Creations(tx, n, isCoinbase, daaScore);
    assert all[..|all|-1] == before;
  }

  /** The coin the first `n` outputs leave at `o`. */
  function CoinOfFirst(tx: Transaction, n: nat, isCoinbase: bool, daaScore: nat, o: Outpoint): Option<Entry>
    requires n <= |tx.outputs|
  {
    if o.txId == tx.id && o.index < n && o.index < 0x1_0000_0000 then
      var output := tx.outputs[LastAt(n, o.index)];
      Some(Entry(output.value, output.script, isCoinbase, daaScore))
    else None
  }

  lemma {:induction false} CreationsMean(coins: Coins, tx: Transaction, n: nat, isCoinbase: bool, daaScore: nat,
                                         o: Outpoint)
    requires n <= |tx.outputs|
    ensures var coin := CoinOfFirst(tx, n, isCoinbase, daaScore, o);
            Lookup(Replay(coins, Creations(tx, n, isCoinbase, daaScore)), o) ==
            if coin.Some? then coin else Lookup(coins, o)
  {
    if n > 0 {
      CreationsMean(coins, tx, n - 1, isCoinbase, daaScore, o);
      NextOutput(coins, tx, n - 1, isCoinbase, daaScore, o);
      CoinOfFirstOn(tx, n - 1, isCoinbase, daaScore, o);
    }
  }

  lemma CoinOfFirstOn(tx: Transaction, n: nat, isCoinbase: bool, daaScore: nat, o: Outpoint)
    requires n < |tx.outputs|
    ensures CoinOfFirst(tx, n + 1, isCoinbase, daaScore, o) ==
            if o == Outpoint(tx.id, n % 0x1_0000_0000)
            then Some(Entry(tx.outputs[n].value, tx.outputs[n].script, isCoinbase, daaScore))
            else CoinOfFirst(tx, n, isCoinbase, daaScore, o)
  {
  }

  /** A transaction leaves its outputs' coins, takes out the coins its inputs name, and touches nothing else. */
  lemma TransactionMeans(coins: Coins, tx: Transaction, isCoinbase: bool, daaScore: nat, o: Outpoint)
    ensures Lookup(Replay(coins, TxEvents(tx, isCoinbase, daaScore)), o) ==
            if CreatedBy(tx, o) then CoinOf(tx, isCoinbase, daaScore, o)
            else if SpentBy(tx, o) then None
            else Lookup(coins, o)
  {
    ReplayConcat(coins, Spends(tx, |tx.inputs|), Creations(tx, |tx.outputs|, isCoinbase, daaScore));
    SpendsMean(coins, tx, |tx.inputs|, o);
    CreationsMean(Replay(coins, Spends(tx, |tx.inputs|)), tx, |tx.outputs|, isCoinbase, daaScore, o);
  }

  /** With outputs that fit 32-bit positions, output `k` is the coin at position `k`. */
  lemma OutputsBecomeCoins(coins: Coins, tx: Transaction, isCoinbase: bool, daaScore: nat)
    requires |tx.outputs| <= 0x1_0000_0000
    ensures var after := Replay(coins, TxEvents(tx, isCoinbase, daaScore));
            && (forall k :: 0 <= k < |tx.outputs| ==>
                  Lookup(after, Outpoint(tx.id, k)) ==
                  Some(Entry(tx.outputs[k].value, tx.outputs[k].script, isCoinbase, daaScore)))
            && (forall o: Outpoint :: SpentBy(tx, o) && !(o.txId == tx.id && o.index < |tx.outputs|) ==> o !in after)
            && (forall o: Outpoint :: !SpentBy(tx, o) && !(o.txId == tx.id && o.index < |tx.outputs|) ==>
                  Lookup(after, o) == Lookup(coins, o))
  {
    forall k | 0 <= k < |tx.outputs|
      ensures Lookup(Replay(coins, TxEvents(tx, isCoinbase, daaScore)), Outpoint(tx.id, k)) ==
              Some(Entry(tx.outputs[k].value, tx.outputs[k].script, isCoinbase, daaScore))
    {
      TransactionMeans(coins, tx, isCoinbase, daaScore, Outpoint(tx.id, k));
      assert LastAt(|tx.outputs|, k) == k;
    }
    forall o: Outpoint | !(o.txId == tx.id && o.index < |tx.outputs|)
      ensures Lookup(Replay(coins, TxEvents(tx, isCoinbase, daaScore)), o) ==
              if SpentBy(tx, o) then None else Lookup(coins, o)
    {
      TransactionMeans(coins, tx, isCoinbase, daaScore, o);
    }
  }

  // ----- A merged block

  ghost predicate TouchedBy(tx: Transaction, o: Outpoint) {
    SpentBy(tx, o) || CreatedBy(tx, o)
  }

  /** The transaction is accepted and touches `o`. */
  ghost predicate Affects(t: TxAcceptance, o: Outpoint) {
    t.isAccepted && TouchedBy(t.tx, o)
  }

  /** None of the accepted transactions in `b[from..to]` touches `o`. */
  ghost predicate UntouchedIn(b: MergedBlock, from: nat, to: nat, o: Outpoint) {
    forall i :: from <= i < to && i < |b| ==> !Affects(b[i], o)
  }

  /** The `i`-th transaction is the last accepted one of the first `n` to touch `o`. */
  ghost predicate Decides(b: MergedBlock, n: nat, o: Outpoint, i: nat) {
    i < n <= |b| && Affects(b[i], o) && UntouchedIn(b, i + 1, n, o)
  }

  /** Whether the rule calls the coins of the transaction at position `i` coinbase coins. */
  predicate Coinbase(b: MergedBlock, i: nat, rule: CoinbaseRule)
    requires i < |b|
  {
    if rule == ByPosition then i == 0 else b[i].tx.isCoinbase
  }

  lemma NextTransaction(coins: Coins, b: MergedBlock, n: nat, daaScore: nat, rule: CoinbaseRule, o: Outpoint)
    requires n < |b|
    ensures Lookup(Replay(coins, MergedEvents(b, n + 1, daaScore, rule)), o) ==
            if Affects(b[n], o) then CoinOf(b[n].tx, Coinbase(b, n, rule), daaScore, o)
            else Lookup(Replay(coins, MergedEvents(b, n, daaScore, rule)), o)
  {
    var before := MergedEvents(b, n, daaScore, rule);
    if b[n].isAccepted {
      ReplayConcat(coins, before, TxEvents(b[n].tx, Coinbase(b, n, rule), daaScore));
      TransactionMeans(Replay(coins, before), b[n].tx, Coinbase(b, n, rule), daaScore, o);
    } else {
      assert before + [] == before;
    }
  }

  lemma {:induction false} MergedBlockLeaves(coins: Coins, b: MergedBlock, n: nat, daaScore: nat, rule: CoinbaseRule,
                                             o: Outpoint)
    requires n <= |b| && UntouchedIn(b, 0, n, o)
    ensures Lookup(Replay(coins, MergedEvents(b, n, daaScore, rule)), o) == Lookup(coins, o)
  {
    if n > 0 {
      assert !Affects(b[n-1], o);
      MergedBlockLeaves(coins, b, n - 1, daaScore, rule, o);
      NextTransaction(coins, b, n - 1, daaScore, rule, o);
    }
  }

  /** Only accepted transactions count, in order, under the given score; a coin is a coinbase coin by the rule. */
  lemma {:induction false} MergedBlockMeans(coins: Coins, b: MergedBlock, n: nat, daaScore: nat, rule: CoinbaseRule,
                                            o: Outpoint, i: nat)
    requires Decides(b, n, o, i)
    ensures Lookup(Replay(coins, MergedEvents(b, n, daaScore, rule)), o) ==
            CoinOf(b[i].tx, Coinbase(b, i, rule), daaScore, o)
  {
    NextTransaction(coins, b, n - 1, daaScore, rule, o);
    if i < n - 1 {
      MergedBlockMeans(coins, b, n - 1, daaScore, rule, o, i);
    }
  }

  /** Some transaction decides, or none touches the outpoint. */
  lemma {:induction false} MergedBlockSettles(b: MergedBlock, n: nat, o: Outpoint)
    requires n <= |b|
    ensures UntouchedIn(b, 0, n, o) || exists i: nat :: Decides(b, n, o, i)
  {
    if n > 0 {
      var before := n - 1;
      if Affects(b[before], o) {
        assert Decides(b, n, o, before);
      } else {
        MergedBlockSettles(b, before, o);
        if i: nat :| Decides(b, before, o, i) {
          assert Decides(b, n, o, i);
        }
      }
    }
  }

  // ----- A chain block

  ghost predicate UntouchedByMerged(blocks: seq<MergedBlock>, from: nat, to: nat, o: Outpoint) {
    forall m :: from <= m < to && m < |blocks| ==> UntouchedIn(blocks[m], 0, |blocks[m]|, o)
  }

  /** The `i`-th transaction of the `m`-th merged block is the last accepted one of the first `n` blocks to touch
      `o`. */
  ghost predicate DecidesIn(blocks: seq<MergedBlock>, n: nat, o: Outpoint, m: nat, i: nat) {
    m < n <= |blocks| && Decides(blocks[m], |blocks[m]|, o, i) && UntouchedByMerged(blocks, m + 1, n, o)
  }

  lemma NextMerged(coins: Coins, b: ChainBlock, n: nat, rule: CoinbaseRule)
    requires n < |b.mergeSet|
    ensures Replay(coins, BlockEvents(b, n + 1, rule)) ==
            Replay(Replay(coins, BlockEvents(b, n, rule)),
                   MergedEvents(b.mergeSet[n], |b.mergeSet[n]|, b.daaScore, rule))
  {
    ReplayConcat(coins, BlockEvents(b, n, rule), MergedEvents(b.mergeSet[n], |b.mergeSet[n]|, b.daaScore, rule));
  }

  lemma {:induction false} ChainBlockLeaves(coins: Coins, b: ChainBlock, n: nat, rule: CoinbaseRule, o: Outpoint)
    requires n <= |b.mergeSet| && UntouchedByMerged(b.mergeSet, 0, n, o)
    ensures Lookup(Replay(coins, BlockEvents(b, n, rule)), o) == Lookup(coins, o)
  {
    if n > 0 {
      var last := b.mergeSet[n-1];
      ChainBlockLeaves(coins, b, n - 1, rule, o);
      NextMerged(coins, b, n - 1, rule);
      MergedBlockLeaves(Replay(coins, BlockEvents(b, n - 1, rule)), last, |last|, b.daaScore, rule, o);
    }
  }

  /** All merged blocks count, in order, under the score of the block that merges them. */
  lemma {:induction false} ChainBlockMeans(coins: Coins, b: ChainBlock, n: nat, rule: CoinbaseRule, o: Outpoint,
                                           m: nat, i: nat)
    requires n <= |b.mergeSet| && DecidesIn(b.mergeSet, n, o, m, i)
    ensures Lookup(Replay(coins, BlockEvents(b, n, rule)), o) ==
            CoinOf(b.mergeSet[m][i].tx, Coinbase(b.mergeSet[m], i, rule), b.daaScore, o)
  {
    var before, last := Replay(coins, BlockEvents(b, n - 1, rule)), b.mergeSet[n-1];
    NextMerged(coins, b, n - 1, rule);
    if m < n - 1 {
      ChainBlockMeans(coins, b, n - 1, rule, o, m, i);
      MergedBlockLeaves(before, last, |last|, b.daaScore, rule, o);
    } else {
      MergedBlockMeans(before, last, |last|, b.daaScore, rule, o, i);
    }
  }

  lemma {:induction false} ChainBlockSettles(blocks: seq<MergedBlock>, n: nat, o: Outpoint)
    requires n <= |blocks|
    ensures UntouchedByMerged(blocks, 0, n, o) || exists m: nat, i: nat :: DecidesIn(blocks, n, o, m, i)
  {
    if n > 0 {
      var before, last := n - 1, blocks[n-1];
      MergedBlockSettles(last, |last|, o);
      if i: nat :| Decides(last, |last|, o, i) {
        assert DecidesIn(blocks, n, o, before, i);
      } else {
        ChainBlockSettles(blocks, before, o);
        if m: nat, i: nat :| DecidesIn(blocks, before, o, m, i) {
          assert DecidesIn(blocks, n, o, m, i);
        }
      }
    }
  }

  // ----- The chain

  ghost predicate UntouchedByChain(s: Stores, chain: seq<Hash>, from: nat, to: nat, o: Outpoint)
    requires Loaded(s, chain, from)
  {
    forall h :: from <= h < to && h < |chain| ==>
      UntouchedByMerged(s.acceptance[chain[h]], 0, |s.acceptance[chain[h]]|, o)
  }

  /** Of the blocks from the oldest up to `chain[from]`, that transaction of `chain[h]` is the last to touch `o`. */
  ghost predicate DecidesChain(s: Stores, chain: seq<Hash>, from: nat, o: Outpoint, h: nat, m: nat, i: nat)
    requires Loaded(s, chain, from)
  {
    && from <= h < |chain| && DecidesIn(s.acceptance[chain[h]], |s.acceptance[chain[h]]|, o, m, i)
    && UntouchedByChain(s, chain, from, h, o)
  }

  /** The DAA score a chain block stamps its coins with: its header's, or else the stored one. */
  function Stamp(s: Stores, h: Hash): nat
    requires h in s.headerDaaScore || h in s.storedDaaScore
  {
    if h in s.headerDaaScore then s.headerDaaScore[h] else s.storedDaaScore[h]
  }

  lemma NextChainBlock(base: Coins, s: Stores, chain: seq<Hash>, from: nat, rule: CoinbaseRule)
    requires from < |chain| && Loaded(s, chain, from)
    ensures var b := ChainBlock(Stamp(s, chain[from]), s.acceptance[chain[from]]);
            Replay(base, ChainEvents(s, chain, from, rule)) ==
            Replay(Replay(base, ChainEvents(s, chain, from + 1, rule)), BlockEvents(b, |b.mergeSet|, rule))
  {
    var b := Load(s, chain[from]).value;
    ReplayConcat(base, ChainEvents(s, chain, from + 1, rule), BlockEvents(b, |b.mergeSet|, rule));
  }

  lemma {:induction false} ChainLeaves(base: Coins, s: Stores, chain: seq<Hash>, from: nat, rule: CoinbaseRule,
                                       o: Outpoint)
    requires from <= |chain| && Loaded(s, chain, from) && UntouchedByChain(s, chain, from, |chain|, o)
    ensures Lookup(Replay(base, ChainEvents(s, chain, from, rule)), o) == Lookup(base, o)
    decreases |chain| - from
  {
    if from < |chain| {
      var b := ChainBlock(Stamp(s, chain[from]), s.acceptance[chain[from]]);
      ChainLeaves(base, s, chain, from + 1, rule, o);
      NextChainBlock(base, s, chain, from, rule);
      ChainBlockLeaves(Replay(base, ChainEvents(s, chain, from + 1, rule)), b, |b.mergeSet|, rule, o);
    }
  }

  /** The replayed set, outpoint by outpoint: the coin of the last accepted transaction of the chain to touch the
      outpoint, stamped with the score of the chain block that merged it; or else what the base set holds. */
  lemma {:induction false} ChainMeans(base: Coins, s: Stores, chain: seq<Hash>, from: nat, rule: CoinbaseRule,
                                      o: Outpoint, h: nat, m: nat, i: nat)
    requires Loaded(s, chain, from) && DecidesChain(s, chain, from, o, h, m, i)
    ensures var merged := s.acceptance[chain[h]][m];
            Lookup(Replay(base, ChainEvents(s, chain, from, rule)), o) ==
            CoinOf(merged[i].tx, Coinbase(merged, i, rule), Stamp(s, chain[h]), o)
    decreases |chain| - from
  {
    var b := ChainBlock(Stamp(s, chain[from]), s.acceptance[chain[from]]);
    var before := Replay(base, ChainEvents(s, chain, from + 1, rule));
    NextChainBlock(base, s, chain, from, rule);
    if h > from {
      ChainMeans(base, s, chain, from + 1, rule, o, h, m, i);
      ChainBlockLeaves(before, b, |b.mergeSet|, rule, o);
    } else {
      ChainBlockMeans(before, b, |b.mergeSet|, rule, o, m, i);
    }
  }

  /** Either some transaction of the chain decides an outpoint, or none touches it: the two laws leave nothing open. */
  lemma {:induction false} ChainSettles(s: Stores, chain: seq<Hash>, from: nat, o: Outpoint)
    requires from <= |chain| && Loaded(s, chain, from)
    ensures UntouchedByChain(s, chain, from, |chain|, o) ||
            exists h: nat, m: nat, i: nat :: DecidesChain(s, chain, from, o, h, m, i)
    decreases |chain| - from
  {
    if from < |chain| {
      var blocks := s.acceptance[chain[from]];
      ChainBlockSettles(blocks, |blocks|, o);
      if m: nat, i: nat :| DecidesIn(blocks, |blocks|, o, m, i) {
        assert DecidesChain(s, chain, from, o, from, m, i);
      } else {
        var older := from + 1;
        ChainSettles(s, chain, older, o);
        if h: nat, m: nat, i: nat :| DecidesChain(s, chain, older, o, h, m, i) {
          assert DecidesChain(s, chain, from, o, h, m, i);
        }
      }
    }
  }
}
