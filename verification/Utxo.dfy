/** Coins, transactions and acceptance data, shared by the derivations of the UTXO set. */
module Utxo {

  newtype byte = x: int | 0 <= x < 256

  const UINT32_MODULUS: nat := 0x1_0000_0000
  const UINT64_MODULUS: nat := 0x1_0000_0000_0000_0000

  datatype Option<+T> = None | Some(value: T)

  function Lookup<K, V>(m: map<K, V>, k: K): Option<V> {
    if k in m then Some(m[k]) else None
  }

  ghost predicate SameAt<K, V>(x: map<K, V>, y: map<K, V>, k: K) {
    Lookup(x, k) == Lookup(y, k)
  }

  lemma SameEverywhere<K(!new), V>(x: map<K, V>, y: map<K, V>)
    ensures x == y <==> forall k :: SameAt(x, y, k)
  {
    if forall k :: SameAt(x, y, k) {
      forall k | k in x ensures k in y && x[k] == y[k] { assert SameAt(x, y, k); }
      forall k | k in y ensures k in x { assert SameAt(x, y, k); }
    }
  }

  datatype Hash = Hash(bytes: seq<byte>)

  datatype Outpoint = Outpoint(txId: Hash, index: nat)

  datatype ScriptPublicKey = ScriptPublicKey(version: nat, script: seq<byte>)

  /** A UTXO entry; `daaScore` is the DAA score of the block that merged the coin. */
  datatype Entry = Entry(amount: nat, script: ScriptPublicKey, isCoinbase: bool, daaScore: nat)

  type Coins = map<Outpoint, Entry>

  /** `entry` is the coin the node recorded for the input, missing when it was never resolved. */
  datatype Input = Input(previous: Outpoint, entry: Option<Entry>)

  datatype Output = Output(value: nat, script: ScriptPublicKey)

  /** `id` is the transaction's content hash and `isCoinbase` what its subnetwork says. */
  datatype Transaction = Transaction(id: Hash, inputs: seq<Input>, outputs: seq<Output>, isCoinbase: bool)

  datatype TxAcceptance = TxAcceptance(tx: Transaction, isAccepted: bool)

  /** The transactions of one merged block, with what the merging chain block decided about each. */
  type MergedBlock = seq<TxAcceptance>

  /** A selected-chain block: its DAA score and its acceptance data. */
  datatype ChainBlock = ChainBlock(daaScore: nat, mergeSet: seq<MergedBlock>)

  // ----- Accepted transactions as a sequence of coin events

  datatype Event =
    | Spend(outpoint: Outpoint, recorded: Option<Entry>)
    | Create(outpoint: Outpoint, entry: Entry)

  /** How a derivation decides that a created coin is a coinbase coin. */
  datatype CoinbaseRule = BySubnetwork | ByPosition

  predicate IsCoinbase(tx: Transaction, position: nat, rule: CoinbaseRule) {
    match rule
    case BySubnetwork => tx.isCoinbase
    case ByPosition => position == 0
  }

  /** The coin of output `k`; the output's position is narrowed to the outpoint's 32-bit index. */
  function Created(tx: Transaction, k: nat, isCoinbase: bool, daaScore: nat): Event
    requires k < |tx.outputs|
  {
    Create(Outpoint(tx.id, k % UINT32_MODULUS), Entry(tx.outputs[k].value, tx.outputs[k].script, isCoinbase, daaScore))
  }

  function Spent(tx: Transaction, k: nat): Event
    requires k < |tx.inputs|
  {
    Spend(tx.inputs[k].previous, tx.inputs[k].entry)
  }

  function Spends(tx: Transaction, n: nat): seq<Event>
    requires n <= |tx.inputs|
  {
    if n == 0 then [] else Spends(tx, n - 1) + [Spent(tx, n - 1)]
  }

  function Creations(tx: Transaction, n: nat, isCoinbase: bool, daaScore: nat): seq<Event>
    requires n <= |tx.outputs|
  {
    if n == 0 then [] else Creations(tx, n - 1, isCoinbase, daaScore) + [Created(tx, n - 1, isCoinbase, daaScore)]
  }

  function TxEvents(tx: Transaction, isCoinbase: bool, daaScore: nat): seq<Event> {
    Spends(tx, |tx.inputs|) + Creations(tx, |tx.outputs|, isCoinbase, daaScore)
  }

  /** The events of the first `n` transactions of a merged block. */
  function MergedEvents(b: MergedBlock, n: nat, daaScore: nat, rule: CoinbaseRule): seq<Event>
    requires n <= |b|
  {
    if n == 0 then [] else
      MergedEvents(b, n - 1, daaScore, rule) +
      if b[n-1].isAccepted then TxEvents(b[n-1].tx, IsCoinbase(b[n-1].tx, n - 1, rule), daaScore) else []
  }

  /** The events of the first `n` merged blocks of a chain block. */
  function BlockEvents(b: ChainBlock, n: nat, rule: CoinbaseRule): seq<Event>
    requires n <= |b.mergeSet|
  {
    if n == 0 then [] else
      BlockEvents(b, n - 1, rule) + MergedEvents(b.mergeSet[n-1], |b.mergeSet[n-1]|, b.daaScore, rule)
  }

  // ----- The plain meaning of events: delete what is spent, insert what is created

  function ReplayStep(coins: Coins, e: Event): Coins {
    match e
    case Spend(o, _) => coins - {o}
    case Create(o, entry) => coins[o := entry]
  }

  function Replay(coins: Coins, es: seq<Event>): Coins
    decreases |es|
  {
    if es == [] then coins else ReplayStep(Replay(coins, es[..|es|-1]), es[|es|-1])
  }

  lemma {:induction false} ReplayConcat(coins: Coins, a: seq<Event>, b: seq<Event>)
    ensures Replay(coins, a + b) == Replay(Replay(coins, a), b)
    decreases |b|
  {
    if b == [] {
      assert a + b == a;
    } else {
      assert (a + b)[..|a + b| - 1] == a + b[..|b|-1];
      ReplayConcat(coins, a, b[..|b|-1]);
    }
  }
}
