/** Looking up many outpoints in virtual's UTXO set: in key order, a chunk at a time, releasing the consensus
    lock between chunks while virtual may change. */
module VirtualLookup {
  import opened Utxo

  const CHUNK_SIZE: nat := 1024

  /** Virtual as one chunk sees it. */
  datatype View = View(parents: seq<Hash>, coins: Coins)

  /** What happens to one chunk: the lock is not free in time, a read fails, or it sees some virtual. */
  datatype ChunkOutcome = LockTimesOut | ReadFails | Sees(view: View)

  datatype Outcome = TimedOut | Failed | Answered(entries: seq<Option<Entry>>, parents: seq<Hash>)

  /** `ordered` lists every position below `n` once: the order of the outpoints' database keys. */
  ghost predicate Ordering(ordered: seq<nat>, n: nat) {
    && |ordered| == n
    && (forall r :: 0 <= r < n ==> ordered[r] < n)
    && (forall q, r :: 0 <= q < r < n ==> ordered[q] != ordered[r])
    && (forall i :: 0 <= i < n ==> i in ordered)
  }

  function Chunks(n: nat): nat {
    (n + CHUNK_SIZE - 1) / CHUNK_SIZE
  }

  /** Fills the answers of one chunk, `ordered[from..to]`. */
  method FillChunk(outpoints: seq<Outpoint>, ordered: seq<nat>, from: nat, to: nat, coins: Coins,
                   entries: array<Option<Entry>>)
    requires Ordering(ordered, |outpoints|) && from <= to <= |ordered| && entries.Length == |outpoints|
    modifies entries
    ensures forall r :: from <= r < to ==> entries[ordered[r]] == Lookup(coins, outpoints[ordered[r]])
    ensures forall r :: 0 <= r < |ordered| && !(from <= r < to) ==> entries[ordered[r]] == old(entries[ordered[r]])
  {
    for r := from to to
      invariant forall q :: from <= q < r ==> entries[ordered[q]] == Lookup(coins, outpoints[ordered[q]])
      invariant forall q :: 0 <= q < |ordered| && !(from <= q < r) ==> entries[ordered[q]] == old(entries[ordered[q]])
    {
      var o := outpoints[ordered[r]];
      entries[ordered[r]] := if o in coins then Some(coins[o]) else None;
    }
  }

  /** Every answer is a value virtual held while its chunk was read, at the position it was asked for; the
      parents are returned exactly when every chunk saw the same ones. */
  ghost predicate RightAnswer(outpoints: seq<Outpoint>, ordered: seq<nat>, chunk: nat -> ChunkOutcome,
                              entries: seq<Option<Entry>>, parents: seq<Hash>)
    requires Ordering(ordered, |outpoints|)
  {
    && (forall c :: 0 <= c < Chunks(|outpoints|) ==> chunk(c).Sees?)
    && |entries| == |outpoints|
    && (forall r :: 0 <= r < |ordered| ==>
          r / CHUNK_SIZE < Chunks(|outpoints|) &&
          entries[ordered[r]] == Lookup(chunk(r / CHUNK_SIZE).view.coins, outpoints[ordered[r]]))
    && (parents != [] ==> outpoints != [] && AllSaw(chunk, Chunks(|outpoints|), parents))
    && (outpoints != [] && AllSaw(chunk, Chunks(|outpoints|), chunk(0).view.parents) ==>
          parents == chunk(0).view.parents)
  }

  ghost predicate AllSaw(chunk: nat -> ChunkOutcome, n: nat, parents: seq<Hash>)
    requires forall c :: 0 <= c < n ==> chunk(c).Sees?
  {
    forall c :: 0 <= c < n ==> chunk(c).view.parents == parents
  }

  /** `prepared` is the key order, missing when an outpoint could not be encoded. */
  method VirtualUtxoEntries(outpoints: seq<Outpoint>, prepared: Option<seq<nat>>, chunk: nat -> ChunkOutcome)
    returns (outcome: Outcome)
    requires prepared.Some? ==> Ordering(prepared.value, |outpoints|)
    ensures outcome.Answered? <==> prepared.Some? && forall c :: 0 <= c < Chunks(|outpoints|) ==> chunk(c).Sees?
    ensures prepared.None? ==> outcome == Failed
    ensures prepared.Some? && !outcome.Answered? ==>
              exists c: nat :: c < Chunks(|outpoints|) && (forall b :: 0 <= b < c ==> chunk(b).Sees?) &&
                               outcome == if chunk(c).LockTimesOut? then TimedOut else Failed
    ensures outcome.Answered? ==> RightAnswer(outpoints, prepared.value, chunk, outcome.entries, outcome.parents)
    ensures outcome.Answered? && outpoints == [] ==> outcome.parents == []
  {
    if prepared.None? {
      return Failed;
    }
    var ordered := prepared.value;
    var entries := new Option<Entry>[|outpoints|](_ => None);
    var parents: seq<Hash> := [];
    var c := 0;
    while c * 1024 < |ordered|
      invariant 0 <= c <= Chunks(|outpoints|)
      invariant forall b :: 0 <= b < c ==> chunk(b).Sees?
      invariant forall r :: 0 <= r < c * CHUNK_SIZE && r < |ordered| ==>
                  r / CHUNK_SIZE < c &&
                  entries[ordered[r]] == Lookup(chunk(r / CHUNK_SIZE).view.coins, outpoints[ordered[r]])
      invariant parents != [] ==> c > 0 && AllSaw(chunk, c, parents)
      invariant c > 0 && AllSaw(chunk, c, chunk(0).view.parents) ==> parents == chunk(0).view.parents
      invariant c == 0 ==> parents == []
      decreases |ordered| - c * CHUNK_SIZE
    {
      assert c < Chunks(|outpoints|);
      var end := if (c + 1) * 1024 <= |ordered| then (c + 1) * 1024 else |ordered|;
      if chunk(c).LockTimesOut? {
        return TimedOut;
      }
      if chunk(c).ReadFails? {
        return Failed;
      }
      var view := chunk(c).view;
      FillChunk(outpoints, ordered, c * 1024, end, view.coins, entries);
      if c == 0 {
        parents := view.parents;
      } else if parents != view.parents {
        parents := [];
      }
      c := c + 1;
    }
    return Answered(entries[..], parents);
  }

  /** Virtual's set is a function of its parents, when it has any. */
  ghost predicate SetFollowsParents(chunk: nat -> ChunkOutcome, n: nat) {
    forall b, c :: 0 <= b < n && 0 <= c < n && chunk(b).Sees? && chunk(c).Sees? ==>
      chunk(b).view.parents == chunk(c).view.parents != [] ==> chunk(b).view.coins == chunk(c).view.coins
  }

  /** However virtual changes between chunks - also away and back - an answer that comes with virtual's parents
      is, position by position in request order, the lookup of one single virtual with those parents. */
  lemma ParentsMeanOneSnapshot(outpoints: seq<Outpoint>, ordered: seq<nat>, chunk: nat -> ChunkOutcome,
                               entries: seq<Option<Entry>>, parents: seq<Hash>)
    requires Ordering(ordered, |outpoints|) && SetFollowsParents(chunk, Chunks(|outpoints|))
    requires RightAnswer(outpoints, ordered, chunk, entries, parents) && parents != []
    ensures chunk(0).Sees? && chunk(0).view.parents == parents
    ensures forall i :: 0 <= i < |outpoints| ==> entries[i] == Lookup(chunk(0).view.coins, outpoints[i])
  {
    forall i | 0 <= i < |outpoints|
      ensures entries[i] == Lookup(chunk(0).view.coins, outpoints[i])
    {
      assert i in ordered;
      var r :| 0 <= r < |ordered| && ordered[r] == i;
      var c := r / CHUNK_SIZE;
      assert chunk(c).view.parents == parents == chunk(0).view.parents;
    }
  }
}
