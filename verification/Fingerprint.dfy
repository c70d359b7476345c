/** Partitioned fingerprints of a UTXO set: a hash, a count and an amount per txid prefix, so that two operators can
    find which coins their sets disagree on. */
module Fingerprint {
  import opened Arithmetic
  import opened Utxo
  import opened UtxoDerivation
  import opened Commitment

  const HASH_SIZE: nat := 32

  // ----- Partitions

  predicate ValidBits(bits: int) {
    4 <= bits <= 20
  }

  /** The leading `bits` bits of the first three bytes of the transaction id. */
  function PartitionOf(o: Outpoint, bits: nat): nat
    requires ValidBits(bits) && |o.txId.bytes| == HASH_SIZE
  {
    var id := o.txId.bytes;
    var v := id[0] as int * 0x1_0000 + id[1] as int * 0x100 + id[2] as int;
    v / Pow2(24 - bits)
  }

  /** A partition holds the transaction ids that begin with its bits: those whose first 24 bits, as a number, are in
      the partition's own range. */
  lemma PartitionIsPrefix(o: Outpoint, bits: nat)
    requires 4 <= bits <= 20 && |o.txId.bytes| == HASH_SIZE
    ensures var id := o.txId.bytes;
            var first := 65536 * id[0] as int + 256 * id[1] as int + id[2] as int;
            var width := Pow2(24 - bits);
            Partitioning(bits)(o) * width <= first < (Partitioning(bits)(o) + 1) * width
  {
    var id := o.txId.bytes;
    var first := 65536 * id[0] as int + 256 * id[1] as int + id[2] as int;
    QuotientRange(first, Pow2(24 - bits));
  }

  lemma QuotientRange(v: nat, d: nat)
    requires d > 0
    ensures v / d * d <= v < (v / d + 1) * d
  {
    assert v == v / d * d + v % d;
  }

  /** Every outpoint's partition is in range. */
  lemma PartitionInRange(o: Outpoint, bits: nat)
    requires ValidBits(bits) && |o.txId.bytes| == HASH_SIZE
    ensures PartitionOf(o, bits) < Pow2(bits)
  {
    var id := o.txId.bytes;
    var v := id[0] as int * 0x1_0000 + id[1] as int * 0x100 + id[2] as int;
    Pow2Add(24 - bits, bits);
    Pow2Of24();
    QuotientBound(v, Pow2(24 - bits), Pow2(bits));
  }

  /** How a fingerprint assigns outpoints to partitions; transaction ids have HASH_SIZE bytes. */
  function Partitioning(bits: nat): Outpoint -> nat
    requires ValidBits(bits)
  {
    (o: Outpoint) => if |o.txId.bytes| == HASH_SIZE then PartitionOf(o, bits) else 0
  }

  lemma PartitioningInRange(bits: nat, o: Outpoint)
    requires ValidBits(bits)
    ensures Partitioning(bits)(o) < Pow2(bits)
  {
    if |o.txId.bytes| == HASH_SIZE {
      PartitionInRange(o, bits);
    }
  }

  lemma QuotientBound(v: nat, d: nat, n: nat)
    requires 0 < d && v < d * n
    ensures v / d < n
  {
  }

  lemma Pow2Of24()
    ensures Pow2(24) == 0x100_0000
  {
    assert Pow2(4) == 16;
    Pow2Add(4, 4);
    Pow2Add(8, 8);
    Pow2Add(16, 8);
  }

  /** The coins of one partition. */
  ghost function Part(coins: Coins, f: Outpoint -> nat, p: nat): Coins {
    map o | o in coins && f(o) == p :: coins[o]
  }

  // ----- Fingerprints

  /** The hash of a set; a partition without a coin has none. */
  ghost function HashOf(c: Coins): Option<multiset<Element>> {
    if c == map[] then None else Some(multiset(c.Items))
  }

  datatype Partition = Partition(count: nat, sompi: nat, hash: Option<multiset<Element>>)

  datatype SetFingerprint = SetFingerprint(
    pruningPoint: Option<Hash>, bits: nat, entries: nat, sompi: nat, hash: multiset<Element>,
    partitions: seq<Partition>)

  /** 64-bit addition. */
  function Plus(a: nat, b: nat): nat {
    Wrap(a + b)
  }

  /** The amounts of the first `n` coins listed that lie in partition `p`, added in 64 bits. */
  ghost function Amount(pairs: seq<(Outpoint, Entry)>, n: nat, f: Outpoint -> nat, p: nat): nat
    requires n <= |pairs|
  {
    if n == 0 then 0
    else if f(pairs[n-1].0) == p then Plus(Amount(pairs, n - 1, f, p), pairs[n-1].1.amount)
    else Amount(pairs, n - 1, f, p)
  }

  /** Their exact sum. */
  ghost function ExactAmount(pairs: seq<(Outpoint, Entry)>, n: nat, f: Outpoint -> nat, p: nat): nat
    requires n <= |pairs|
  {
    if n == 0 then 0 else
      ExactAmount(pairs, n - 1, f, p) + if f(pairs[n-1].0) == p then pairs[n-1].1.amount else 0
  }

  /** A partition's amount is its coins' sum, modulo 2^64. */
  lemma {:induction false} AmountIsSum(pairs: seq<(Outpoint, Entry)>, n: nat, f: Outpoint -> nat, p: nat)
    requires n <= |pairs|
    ensures Amount(pairs, n, f, p) == ExactAmount(pairs, n, f, p) % 0x1_0000_0000_0000_0000
  {
    if n > 0 {
      AmountIsSum(pairs, n - 1, f, p);
      WrapAdd(ExactAmount(pairs, n - 1, f, p), pairs[n-1].1.amount);
    }
  }

  /** What partition `p` says of a set whose coins are listed by the first `n` pairs. */
  ghost function PartitionFor(coins: Coins, pairs: seq<(Outpoint, Entry)>, n: nat, f: Outpoint -> nat,
                              p: nat): Partition
    requires n <= |pairs|
  {
    Partition(|Part(coins, f, p)|, Amount(pairs, n, f, p), HashOf(Part(coins, f, p)))
  }

  /** One more coin in a partition. */
  function WithCoin(part: Partition, o: Outpoint, e: Entry): Partition {
    Partition(part.count + 1, Plus(part.sompi, e.amount),
              Some((if part.hash.Some? then part.hash.value else multiset{}) + multiset{(o, e)}))
  }

  /** `parts` are the partitions of the coins that the first `n` pairs list. */
  ghost predicate PartsOf(parts: seq<Partition>, coins: Coins, pairs: seq<(Outpoint, Entry)>, n: nat,
                          f: Outpoint -> nat)
    requires n <= |pairs|
  {
    forall p :: 0 <= p < |parts| ==> parts[p] == PartitionFor(coins, pairs, n, f, p)
  }

  /** `fp` is the fingerprint of the coins `pairs` lists. */
  ghost predicate Fingerprints(fp: SetFingerprint, pairs: seq<(Outpoint, Entry)>, coins: Coins, bits: nat)
    requires ValidBits(bits)
  {
    && fp.bits == bits && fp.entries == |pairs| && fp.hash == multiset(coins.Items)
    && |fp.partitions| == Pow2(bits) && PartsOf(fp.partitions, coins, pairs, |pairs|, Partitioning(bits))
  }

  lemma PartWithCoin(coins: Coins, o: Outpoint, e: Entry, f: Outpoint -> nat, q: nat)
    requires o !in coins
    ensures Part(coins[o := e], f, q) == if f(o) == q then Part(coins, f, q)[o := e] else Part(coins, f, q)
  {
  }

  lemma CoinChangesOnePart(coins: Coins, pairs: seq<(Outpoint, Entry)>, n: nat, f: Outpoint -> nat, q: nat)
    requires n < |pairs| && pairs[n].0 !in coins
    ensures PartitionFor(coins[pairs[n].0 := pairs[n].1], pairs, n + 1, f, q) ==
            if f(pairs[n].0) == q then WithCoin(PartitionFor(coins, pairs, n, f, q), pairs[n].0, pairs[n].1)
            else PartitionFor(coins, pairs, n, f, q)
  {
    var (o, e) := pairs[n];
    PartWithCoin(coins, o, e, f, q);
    if f(o) == q {
      var before := Part(coins, f, q);
      ItemsWith(before, o, e);
      assert before[o := e] != map[] by { assert o in before[o := e]; }
      assert before[o := e].Keys == before.Keys + {o};
      assert before == map[] ==> multiset(before.Items) == multiset{};
      assert HashOf(before[o := e]) ==
        Some((if before == map[] then multiset{} else multiset(before.Items)) + multiset{(o, e)});
      assert |before[o := e]| == |before| + 1;
    }
  }

  /** Adds the `k`-th coin to its partition. */
  method AddCoin(parts: array<Partition>, pairs: seq<(Outpoint, Entry)>, k: nat, f: Outpoint -> nat, ghost seen: Coins)
    requires k < |pairs| && pairs[k].0 !in seen && f(pairs[k].0) < parts.Length
    requires PartsOf(parts[..], seen, pairs, k, f)
    modifies parts
    ensures PartsOf(parts[..], seen[pairs[k].0 := pairs[k].1], pairs, k + 1, f)
    ensures SompiTotal(parts[..], parts.Length) == Plus(SompiTotal(old(parts[..]), parts.Length), pairs[k].1.amount)
  {
    var (o, e) := pairs[k];
    var p := f(o);
    ghost var before := parts[..];
    SompiUpdate(before, parts.Length, p, o, e);
    parts[p] := WithCoin(parts[p], o, e);
    assert parts[..] == before[p := WithCoin(before[p], o, e)];
    forall q | 0 <= q < parts.Length
      ensures parts[..][q] == PartitionFor(seen[o := e], pairs, k + 1, f, q)
    {
      CoinChangesOnePart(seen, pairs, k, f, q);
      assert before[q] == PartitionFor(seen, pairs, k, f, q);
    }
  }

  /** Adds every coin to its partition, to the whole set's hash and to the total. */
  method FillPartitions(parts: array<Partition>, pairs: seq<(Outpoint, Entry)>, f: Outpoint -> nat, ghost coins: Coins)
    returns (whole: multiset<Element>, total: nat)
    requires Lists(pairs, coins) && forall o :: o in coins ==> f(o) < parts.Length
    requires PartsOf(parts[..], map[], pairs, 0, f) && SompiTotal(parts[..], parts.Length) == 0
    modifies parts
    ensures PartsOf(parts[..], coins, pairs, |pairs|, f) && whole == multiset(coins.Items)
    ensures total == SompiTotal(parts[..], parts.Length)
  {
    whole, total := multiset{}, 0;
    ghost var seen: Coins := map[];
    for k := 0 to |pairs|
      invariant Lists(pairs[..k], seen) && whole == multiset(seen.Items)
      invariant PartsOf(parts[..], seen, pairs, k, f)
      invariant total == SompiTotal(parts[..], parts.Length)
    {
      ListsNext(pairs, coins, k, seen);
      AddCoin(parts, pairs, k, f, seen);
      ItemsWith(seen, pairs[k].0, pairs[k].1);
      whole := whole + multiset{pairs[k]};
      total := Plus(total, pairs[k].1.amount);
      seen := seen[pairs[k].0 := pairs[k].1];
    }
    assert pairs[..|pairs|] == pairs;
    ListedSetUnique(pairs, seen, coins);
  }

  method WriteSetFingerprint(pruningPoint: Option<Hash>, pairs: seq<(Outpoint, Entry)>, ghost coins: Coins, bits: int)
    returns (fp: Option<SetFingerprint>)
    requires Lists(pairs, coins)
    ensures fp.Some? <==> ValidBits(bits)
    ensures fp.Some? ==> Fingerprints(fp.value, pairs, coins, bits) && fp.value.pruningPoint == pruningPoint
    ensures fp.Some? ==> fp.value.sompi == SompiTotal(fp.value.partitions, |fp.value.partitions|)
  {
    if bits < 4 || bits > 20 {
      return None;
    }
    var n := Pow2(bits);
    var f := Partitioning(bits);
    var parts := new Partition[n](_ => Partition(0, 0, None));
    forall o | o in coins ensures f(o) < n {
      PartitioningInRange(bits, o);
    }
    assert PartsOf(parts[..], map[], pairs, 0, f);
    SompiZero(parts[..], n);
    var whole, total := FillPartitions(parts, pairs, f, coins);
    return Some(SetFingerprint(pruningPoint, bits, |pairs|, total, whole, parts[..]));
  }

  // ----- The parts add up to the whole

  ghost function SompiTotal(parts: seq<Partition>, n: nat): nat
    requires n <= |parts|
  {
    if n == 0 then 0 else Plus(SompiTotal(parts, n - 1), parts[n-1].sompi)
  }

  lemma PlusSwap(a: nat, b: nat, x: nat)
    ensures Plus(a, Plus(b, x)) == Plus(Plus(a, b), x) && Plus(Plus(a, x), b) == Plus(Plus(a, b), x)
  {
    WrapAdd(b + x, a);
    WrapAdd(a + b, x);
    WrapAdd(a + x, b);
  }

  lemma {:induction false} SompiZero(parts: seq<Partition>, n: nat)
    requires n <= |parts| && forall i :: 0 <= i < |parts| ==> parts[i].sompi == 0
    ensures SompiTotal(parts, n) == 0
  {
    if n > 0 {
      SompiZero(parts, n - 1);
    }
  }

  lemma {:induction false} SompiUpdate(parts: seq<Partition>, n: nat, p: nat, o: Outpoint, e: Entry)
    requires n <= |parts| && p < |parts|
    ensures SompiTotal(parts[p := WithCoin(parts[p], o, e)], n) ==
            if p < n then Plus(SompiTotal(parts, n), e.amount) else SompiTotal(parts, n)
  {
    if n > 0 {
      SompiUpdate(parts, n - 1, p, o, e);
      PlusSwap(SompiTotal(parts, n - 1), parts[n-1].sompi, e.amount);
    }
  }

  ghost function Counts(parts: seq<Partition>, n: nat): nat
    requires n <= |parts|
  {
    if n == 0 then 0 else Counts(parts, n - 1) + parts[n-1].count
  }

  ghost function Hashes(parts: seq<Partition>, n: nat): multiset<Element>
    requires n <= |parts|
  {
    if n == 0 then multiset{} else Hashes(parts, n - 1) + Elements(parts[n-1])
  }

  /** What a partition's hash stands for. */
  function Elements(part: Partition): multiset<Element> {
    match part.hash
    case None => multiset{}
    case Some(h) => h
  }

  /** The coins of the partitions below `n`. */
  ghost function Below(coins: Coins, f: Outpoint -> nat, n: nat): Coins {
    map o | o in coins && f(o) < n :: coins[o]
  }

  lemma DisjointUnion(a: Coins, b: Coins)
    requires a.Keys !! b.Keys
    ensures |a + b| == |a| + |b| && multiset((a + b).Items) == multiset(a.Items) + multiset(b.Items)
  {
  }

  lemma BelowStep(coins: Coins, f: Outpoint -> nat, n: nat)
    ensures Below(coins, f, n + 1) == Below(coins, f, n) + Part(coins, f, n)
    ensures Below(coins, f, n).Keys !! Part(coins, f, n).Keys
  {
  }

  lemma NothingBelowZero(coins: Coins, f: Outpoint -> nat)
    ensures |Below(coins, f, 0)| == 0 && multiset(Below(coins, f, 0).Items) == multiset{}
  {
  }

  ghost predicate Describes(part: Partition, coins: Coins) {
    part.count == |coins| && part.hash == HashOf(coins)
  }

  lemma ElementsOf(part: Partition, coins: Coins)
    requires Describes(part, coins)
    ensures Elements(part) == multiset(coins.Items)
  {
  }

  lemma BelowGrows(coins: Coins, f: Outpoint -> nat, n: nat, part: Partition)
    requires Describes(part, Part(coins, f, n))
    ensures |Below(coins, f, n + 1)| == |Below(coins, f, n)| + part.count
    ensures multiset(Below(coins, f, n + 1).Items) == multiset(Below(coins, f, n).Items) + Elements(part)
  {
    BelowStep(coins, f, n);
    DisjointUnion(Below(coins, f, n), Part(coins, f, n));
    ElementsOf(part, Part(coins, f, n));
  }

  lemma {:induction false} PartsSumTo(parts: seq<Partition>, coins: Coins, f: Outpoint -> nat, n: nat)
    requires n <= |parts|
    requires forall p :: 0 <= p < |parts| ==> Describes(parts[p], Part(coins, f, p))
    ensures Counts(parts, n) == |Below(coins, f, n)|
    ensures Hashes(parts, n) == multiset(Below(coins, f, n).Items)
  {
    if n == 0 {
      NothingBelowZero(coins, f);
    } else {
      PartsSumTo(parts, coins, f, n - 1);
      BelowGrows(coins, f, n - 1, parts[n-1]);
    }
  }

  /** Counts and hashes of the partitions add up to the number of entries and the hash of the whole set. */
  lemma PartsMakeTheWhole(fp: SetFingerprint, pairs: seq<(Outpoint, Entry)>, coins: Coins, bits: nat)
    requires ValidBits(bits) && Lists(pairs, coins) && Fingerprints(fp, pairs, coins, bits)
    ensures Counts(fp.partitions, |fp.partitions|) == fp.entries == |coins|
    ensures Hashes(fp.partitions, |fp.partitions|) == fp.hash
  {
    ListsLength(pairs, coins);
    var f := Partitioning(bits);
    PartsSumTo(fp.partitions, coins, f, Pow2(bits));
    forall o | o in coins ensures f(o) < Pow2(bits) {
      PartitioningInRange(bits, o);
    }
    assert Below(coins, f, Pow2(bits)) == coins;
  }

  // ----- A partition's amount depends on its coins alone

  function Without<T>(s: seq<T>, i: nat): seq<T>
    requires i < |s|
  {
    s[..i] + s[i+1..]
  }

  lemma ListsWithout(pairs: seq<(Outpoint, Entry)>, coins: Coins, i: nat)
    requires Lists(pairs, coins) && i < |pairs|
    ensures Lists(Without(pairs, i), coins - {pairs[i].0})
  {
    var rest, o := Without(pairs, i), pairs[i].0;
    forall x | x in coins - {o} ensures exists j :: 0 <= j < |rest| && rest[j].0 == x {
      var j :| 0 <= j < |pairs| && pairs[j].0 == x;
      assert rest[if j < i then j else j - 1].0 == x;
    }
  }

  lemma {:induction false} ListsLength(pairs: seq<(Outpoint, Entry)>, coins: Coins)
    requires Lists(pairs, coins)
    ensures |pairs| == |coins|
    decreases |pairs|
  {
    if pairs == [] {
      assert coins == map[];
    } else {
      var n := |pairs| - 1;
      ListsWithout(pairs, coins, n);
      ListsLength(Without(pairs, n), coins - {pairs[n].0});
      assert coins.Keys == (coins - {pairs[n].0}).Keys + {pairs[n].0};
    }
  }

  /** Taking one pair out of a listing takes its amount out of its partition. */
  lemma {:induction false} AmountWithout(pairs: seq<(Outpoint, Entry)>, n: nat, i: nat, f: Outpoint -> nat, p: nat)
    requires i < n <= |pairs|
    ensures Amount(pairs, n, f, p) ==
            var rest := Amount(Without(pairs, i), n - 1, f, p);
            if f(pairs[i].0) == p then Plus(rest, pairs[i].1.amount) else rest
  {
    var rest := Without(pairs, i);
    if i == n - 1 {
      AmountOfPrefix(pairs, rest, n - 1, f, p);
    } else {
      AmountWithout(pairs, n - 1, i, f, p);
      assert rest[n-2] == pairs[n-1];
      PlusSwap(Amount(rest, n - 2, f, p), pairs[n-1].1.amount, pairs[i].1.amount);
    }
  }

  lemma {:induction false} AmountOfPrefix(a: seq<(Outpoint, Entry)>, b: seq<(Outpoint, Entry)>, n: nat,
                                          f: Outpoint -> nat, p: nat)
    requires n <= |a| && n <= |b| && a[..n] == b[..n]
    ensures Amount(a, n, f, p) == Amount(b, n, f, p) && Selected(a, n, f, p) == Selected(b, n, f, p)
  {
    if n > 0 {
      assert a[n-1] == a[..n][n-1] == b[n-1] && a[..n-1] == a[..n][..n-1] == b[..n-1];
      AmountOfPrefix(a, b, n - 1, f, p);
    }
  }

  /** The first `n` pairs that lie in partition `p`. */
  ghost function Selected(pairs: seq<(Outpoint, Entry)>, n: nat, f: Outpoint -> nat, p: nat): multiset<Element>
    requires n <= |pairs|
  {
    if n == 0 then multiset{}
    else if f(pairs[n-1].0) == p then Selected(pairs, n - 1, f, p) + multiset{pairs[n-1]}
    else Selected(pairs, n - 1, f, p)
  }

  lemma {:induction false} SelectedWithout(pairs: seq<(Outpoint, Entry)>, n: nat, i: nat, f: Outpoint -> nat, p: nat)
    requires i < n <= |pairs| && f(pairs[i].0) == p
    ensures Selected(pairs, n, f, p) == Selected(Without(pairs, i), n - 1, f, p) + multiset{pairs[i]}
  {
    var rest := Without(pairs, i);
    if i == n - 1 {
      AmountOfPrefix(pairs, rest, n - 1, f, p);
    } else {
      SelectedWithout(pairs, n - 1, i, f, p);
      assert rest[n-2] == pairs[n-1];
    }
  }

  lemma {:induction false} FindSelected(pairs: seq<(Outpoint, Entry)>, n: nat, f: Outpoint -> nat, p: nat, x: Element)
    returns (j: nat)
    requires n <= |pairs| && x in Selected(pairs, n, f, p)
    ensures j < n && pairs[j] == x && f(x.0) == p
  {
    if f(pairs[n-1].0) == p && pairs[n-1] == x {
      j := n - 1;
    } else {
      j := FindSelected(pairs, n - 1, f, p, x);
    }
  }

  /** A partition's amount depends on the pairs in it alone, not on their order or on the other pairs. */
  lemma {:induction false} AmountOfSelected(a: seq<(Outpoint, Entry)>, m: nat, b: seq<(Outpoint, Entry)>, n: nat,
                                            f: Outpoint -> nat, p: nat)
    requires m <= |a| && n <= |b| && Selected(a, m, f, p) == Selected(b, n, f, p)
    ensures Amount(a, m, f, p) == Amount(b, n, f, p)
    decreases m, n
  {
    if m > 0 {
      if f(a[m-1].0) != p {
        AmountOfSelected(a, m - 1, b, n, f, p);
      } else {
        assert a[m-1] in Selected(a, m, f, p);
        var j := FindSelected(b, n, f, p, a[m-1]);
        SelectedWithout(b, n, j, f, p);
        AmountWithout(b, n, j, f, p);
        assert Selected(a, m - 1, f, p) == Selected(a, m, f, p) - multiset{a[m-1]};
        AmountOfSelected(a, m - 1, Without(b, j), n - 1, f, p);
      }
    } else if n > 0 {
      AmountOfSelected(a, m, b, n - 1, f, p);
    }
  }

  /** The pairs a listing of a set has in a partition are the coins of that partition. */
  lemma {:induction false} SelectedOfPart(pairs: seq<(Outpoint, Entry)>, coins: Coins, f: Outpoint -> nat, p: nat)
    requires Lists(pairs, coins)
    ensures Selected(pairs, |pairs|, f, p) == multiset(Part(coins, f, p).Items)
    decreases |pairs|
  {
    if pairs == [] {
      NothingListed(pairs, coins, f, p);
    } else {
      var n := |pairs| - 1;
      var (o, e) := pairs[n];
      ListsWithout(pairs, coins, n);
      assert Without(pairs, n) == pairs[..n];
      SelectedOfPart(pairs[..n], coins - {o}, f, p);
      AmountOfPrefix(pairs, pairs[..n], n, f, p);
      PartWithLast(coins, o, e, f, p);
    }
  }

  lemma NothingListed(pairs: seq<(Outpoint, Entry)>, coins: Coins, f: Outpoint -> nat, p: nat)
    requires Lists(pairs, coins) && pairs == []
    ensures multiset(Part(coins, f, p).Items) == multiset{}
  {
    assert Part(coins, f, p) == map[];
  }

  lemma PartWithLast(coins: Coins, o: Outpoint, e: Entry, f: Outpoint -> nat, p: nat)
    requires o in coins && coins[o] == e
    ensures multiset(Part(coins, f, p).Items) ==
            multiset(Part(coins - {o}, f, p).Items) + if f(o) == p then multiset{(o, e)} else multiset{}
  {
    var rest := coins - {o};
    assert rest[o := e] == coins;
    PartWithCoin(rest, o, e, f, p);
    if f(o) == p {
      ItemsWith(Part(rest, f, p), o, e);
    }
  }

  /** Two sets with the same coins in a partition have the same amount there, however they are listed. */
  lemma AmountOfPart(pa: seq<(Outpoint, Entry)>, a: Coins, pb: seq<(Outpoint, Entry)>, b: Coins,
                     f: Outpoint -> nat, p: nat)
    requires Lists(pa, a) && Lists(pb, b) && Part(a, f, p) == Part(b, f, p)
    ensures Amount(pa, |pa|, f, p) == Amount(pb, |pb|, f, p)
  {
    SelectedOfPart(pa, a, f, p);
    SelectedOfPart(pb, b, f, p);
    AmountOfSelected(pa, |pa|, pb, |pb|, f, p);
  }

  // ----- Comparing two fingerprints

  datatype Comparison = DifferentPruningPoints | DifferentBits | Differing(partitions: seq<nat>)

  /** `r` refuses other pruning points and other widths, and otherwise lists the partitions whose hashes differ, in
      order. */
  ghost predicate Compares(a: SetFingerprint, b: SetFingerprint, r: Comparison) {
    && (r.DifferentPruningPoints? <==> a.pruningPoint != b.pruningPoint)
    && (r.DifferentBits? <==>
          a.pruningPoint == b.pruningPoint && (a.bits != b.bits || |a.partitions| != |b.partitions|))
    && (r.Differing? ==>
          && |a.partitions| == |b.partitions|
          && (forall p: nat ::
                p in r.partitions <==> p < |a.partitions| && a.partitions[p].hash != b.partitions[p].hash)
          && (forall i, j :: 0 <= i < j < |r.partitions| ==> r.partitions[i] < r.partitions[j]))
  }

  method CompareSetFingerprints(a: SetFingerprint, b: SetFingerprint) returns (r: Comparison)
    ensures Compares(a, b, r)
  {
    if a.pruningPoint != b.pruningPoint {
      return DifferentPruningPoints;
    }
    if a.bits != b.bits || |a.partitions| != |b.partitions| {
      return DifferentBits;
    }
    var differing: seq<nat> := [];
    for p := 0 to |a.partitions|
      invariant forall q: nat :: q in differing <==> q < p && a.partitions[q].hash != b.partitions[q].hash
      invariant forall i, j :: 0 <= i < j < |differing| ==> differing[i] < differing[j]
    {
      if a.partitions[p].hash != b.partitions[p].hash {
        assert forall i :: 0 <= i < |differing| ==> differing[i] in differing;
        differing := differing + [p];
      }
    }
    return Differing(differing);
  }

  ghost predicate DisagreeAt(a: Coins, b: Coins, o: Outpoint) {
    (o in a) != (o in b) || (o in a && o in b && a[o] != b[o])
  }

  lemma SameHashSameCoins(a: Coins, b: Coins)
    ensures HashOf(a) == HashOf(b) <==> a == b
  {
    ItemsDetermineCoins(a, b);
  }

  ghost predicate DisagreeIn(a: Coins, b: Coins, f: Outpoint -> nat, p: nat) {
    exists o :: (o in a || o in b) && DisagreeAt(a, b, o) && f(o) == p
  }

  lemma PartsDifferIff(a: Coins, b: Coins, f: Outpoint -> nat, p: nat)
    ensures Part(a, f, p) != Part(b, f, p) <==> DisagreeIn(a, b, f, p)
  {
    var x, y := Part(a, f, p), Part(b, f, p);
    if !DisagreeIn(a, b, f, p) {
      forall o | o in x ensures o in y && x[o] == y[o] {
        assert !DisagreeAt(a, b, o);
      }
      forall o | o in y ensures o in x {
        assert !DisagreeAt(a, b, o);
      }
      assert x == y;
    } else {
      var o :| (o in a || o in b) && DisagreeAt(a, b, o) && f(o) == p;
      assert x != y by {
        assert o in x ==> x[o] == a[o];
        assert o in y ==> y[o] == b[o];
      }
    }
  }

  /** Two sets' fingerprints differ in a partition if and only if it contains an outpoint on which the sets
      disagree; where the hashes agree, so do counts and amounts. */
  lemma DifferingPartitionsLocate(fa: SetFingerprint, pa: seq<(Outpoint, Entry)>, a: Coins,
                                  fb: SetFingerprint, pb: seq<(Outpoint, Entry)>, b: Coins, bits: nat, p: nat)
    requires ValidBits(bits) && p < Pow2(bits) && Lists(pa, a) && Lists(pb, b)
    requires Fingerprints(fa, pa, a, bits) && Fingerprints(fb, pb, b, bits)
    ensures fa.partitions[p].hash != fb.partitions[p].hash <==> DisagreeIn(a, b, Partitioning(bits), p)
    ensures fa.partitions[p].hash == fb.partitions[p].hash ==> fa.partitions[p] == fb.partitions[p]
  {
    var f := Partitioning(bits);
    SameHashSameCoins(Part(a, f, p), Part(b, f, p));
    PartsDifferIff(a, b, f, p);
    if Part(a, f, p) == Part(b, f, p) {
      AmountOfPart(pa, a, pb, b, f, p);
    }
  }

  lemma AgreeIffNoPartition(a: Coins, b: Coins, bits: nat)
    requires ValidBits(bits)
    ensures a == b <==> forall p: nat :: p < Pow2(bits) ==> !DisagreeIn(a, b, Partitioning(bits), p)
  {
    var f := Partitioning(bits);
    if forall p: nat :: p < Pow2(bits) ==> !DisagreeIn(a, b, f, p) {
      forall o ensures SameAt(a, b, o) {
        PartitioningInRange(bits, o);
        assert !DisagreeIn(a, b, f, f(o));
      }
      SameEverywhere(a, b);
    }
  }

  /** What comparing two nodes' fingerprints at one pruning point and width lists are exactly the partitions with an
      outpoint on which the two sets disagree; nothing is listed if and only if the sets are equal. */
  lemma ComparisonLocates(fa: SetFingerprint, pa: seq<(Outpoint, Entry)>, a: Coins,
                          fb: SetFingerprint, pb: seq<(Outpoint, Entry)>, b: Coins, bits: nat, r: Comparison)
    requires ValidBits(bits) && Lists(pa, a) && Lists(pb, b) && fa.pruningPoint == fb.pruningPoint
    requires Fingerprints(fa, pa, a, bits) && Fingerprints(fb, pb, b, bits) && Compares(fa, fb, r)
    ensures r.Differing?
    ensures forall p: nat :: p in r.partitions <==> p < Pow2(bits) && DisagreeIn(a, b, Partitioning(bits), p)
    ensures r.partitions == [] <==> a == b
  {
    forall p: nat ensures p in r.partitions <==> p < Pow2(bits) && DisagreeIn(a, b, Partitioning(bits), p) {
      if p < Pow2(bits) {
        DifferingPartitionsLocate(fa, pa, a, fb, pb, b, bits, p);
      }
    }
    assert r.partitions == [] || r.partitions[0] in r.partitions;
    AgreeIffNoPartition(a, b, bits);
  }
}
