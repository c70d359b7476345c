/** The forensic check of the stored pruning point UTXO set: its hash against the pruning point header's commitment,
    and, if they agree, the commitment walked up the chain under two rules for a coin's DAA score, against every
    header. */
module BaseCheck {
  import opened Utxo
  import opened UtxoDerivation
  import opened Commitment

  const WINDOW: nat := 20000

  /** Which rule reproduces a header: the merging block's DAA score, that of the block a coin was created in, or
      both. */
  datatype Verdict = Both | Merging | Creating | Neither

  /** A set that misses its header's commitment may still be that of another chain index. */
  datatype Result =
    | NoHeader
    | NotOnChain(matches: bool)
    | Mismatch(staleAt: Option<nat>)
    | Walked(verdicts: seq<Verdict>, complete: bool)

  /** The two commitments, one for each rule. */
  datatype Hashes = Hashes(merging: MuHash, creating: MuHash)

  // ----- The creating-block rule

  /** The DAA score of the `n`-th merged block itself. */
  function CreatingScore(s: Stores, h: Hash, n: nat): Option<nat> {
    if h in s.mergedBlocks && n < |s.mergedBlocks[h]| then OwnDaaScore(s, s.mergedBlocks[h][n]) else None
  }

  ghost predicate Scored(s: Stores, h: Hash, n: nat) {
    forall i :: 0 <= i < n ==> CreatingScore(s, h, i).Some?
  }

  /** The events of the first `n` merged blocks, each under its own score. */
  ghost function CreatingEvents(s: Stores, h: Hash, n: nat): seq<Event>
    requires h in s.acceptance && n <= |s.acceptance[h]| && Scored(s, h, n)
  {
    if n == 0 then [] else
      var m := s.acceptance[h][n-1];
      CreatingEvents(s, h, n - 1) + MergedEvents(m, |m|, CreatingScore(s, h, n - 1).value, ByPosition)
  }

  ghost predicate ApplicableUpTo(s: Stores, h: Hash, n: nat)
    requires h in s.acceptance && n <= |s.acceptance[h]|
  {
    forall i :: 0 <= i < n ==> Applicable(s.acceptance[h][i], |s.acceptance[h][i]|)
  }

  /** Everything the walk needs of the block is stored, and its accepted transactions can be applied. */
  ghost predicate Checkable(s: Stores, h: Hash) {
    && h in s.headerDaaScore && h in s.acceptance
    && Scored(s, h, |s.acceptance[h]|) && ApplicableUpTo(s, h, |s.acceptance[h]|)
  }

  /** Every block from `chain[from]` to the oldest is checkable. */
  ghost predicate CheckableFrom(s: Stores, chain: seq<Hash>, from: nat) {
    forall i :: from <= i < |chain| ==> Checkable(s, chain[i])
  }

  lemma CheckableLoaded(s: Stores, chain: seq<Hash>, from: nat)
    requires CheckableFrom(s, chain, from)
    ensures Loaded(s, chain, from)
  {
  }

  ghost function CreatingChain(s: Stores, chain: seq<Hash>, from: nat): seq<Event>
    requires from <= |chain| && CheckableFrom(s, chain, from)
    decreases |chain| - from
  {
    if from == |chain| then [] else
      CreatingChain(s, chain, from + 1) + CreatingEvents(s, chain[from], |s.acceptance[chain[from]]|)
  }

  ghost function CreatingAt(s: Stores, chain: seq<Hash>, base: Coins, from: nat): MuHash
    requires from <= |chain| && CheckableFrom(s, chain, from)
  {
    MuRun(OfCoins(base), CreatingChain(s, chain, from))
  }

  // ----- Applying one block under both rules

  /** What the multisets hold after the first `n` merged blocks, having started from `before`. */
  ghost predicate AppliedTo(s: Stores, h: Hash, n: nat, before: Hashes, now: Hashes) {
    && h in s.headerDaaScore && h in s.acceptance && n <= |s.acceptance[h]|
    && Scored(s, h, n) && ApplicableUpTo(s, h, n)
    && now.merging == MuRun(before.merging, BlockEvents(BlockOf(s, h), n, ByPosition))
    && now.creating == MuRun(before.creating, CreatingEvents(s, h, n))
  }

  function BlockOf(s: Stores, h: Hash): ChainBlock
    requires h in s.headerDaaScore && h in s.acceptance
  {
    ChainBlock(s.headerDaaScore[h], s.acceptance[h])
  }

  lemma AppliedOn(s: Stores, h: Hash, n: nat, before: Hashes, now: Hashes)
    requires AppliedTo(s, h, n, before, now) && n < |s.acceptance[h]|
    requires CreatingScore(s, h, n).Some? && Applicable(s.acceptance[h][n], |s.acceptance[h][n]|)
    ensures var m := s.acceptance[h][n];
            AppliedTo(s, h, n + 1, before,
                      Hashes(MuRun(now.merging, MergedEvents(m, |m|, s.headerDaaScore[h], ByPosition)),
                             MuRun(now.creating, MergedEvents(m, |m|, CreatingScore(s, h, n).value, ByPosition))))
  {
    var m := s.acceptance[h][n];
    MuRunConcat(before.merging, BlockEvents(BlockOf(s, h), n, ByPosition),
                MergedEvents(m, |m|, s.headerDaaScore[h], ByPosition));
    MuRunConcat(before.creating, CreatingEvents(s, h, n),
                MergedEvents(m, |m|, CreatingScore(s, h, n).value, ByPosition));
  }

  method OwnScore(s: Stores, h: Hash, n: nat) returns (score: Option<nat>)
    ensures score == CreatingScore(s, h, n)
  {
    if h !in s.mergedBlocks || n >= |s.mergedBlocks[h]| {
      return None;
    }
    var merged := s.mergedBlocks[h][n];
    if merged in s.headerDaaScore {
      return Some(s.headerDaaScore[merged]);
    }
    score := if merged in s.storedDaaScore then Some(s.storedDaaScore[merged]) else None;
  }

  method ApplyBlock(merging: Multiset, creating: Multiset, s: Stores, h: Hash) returns (ok: bool)
    requires merging != creating
    modifies merging, creating
    ensures ok <==> Checkable(s, h)
    ensures ok ==> AppliedTo(s, h, |s.acceptance[h]|, old(Hashes(merging.state, creating.state)),
                             Hashes(merging.state, creating.state))
  {
    if h !in s.headerDaaScore || h !in s.acceptance {
      return false;
    }
    ghost var before := Hashes(merging.state, creating.state);
    for n := 0 to |s.acceptance[h]|
      invariant AppliedTo(s, h, n, before, Hashes(merging.state, creating.state))
    {
      var m := s.acceptance[h][n];
      var score := OwnScore(s, h, n);
      if score.None? {
        return false;
      }
      ghost var now := Hashes(merging.state, creating.state);
      ok := ApplyMerged(merging, m, s.headerDaaScore[h]);
      if !ok {
        return;
      }
      ok := ApplyMerged(creating, m, score.value);
      AppliedOn(s, h, n, before, now);
    }
    return true;
  }

  // ----- The walk

  /** The commitments after `chain[i]`; those of the base where the stores do not reach so far. */
  ghost function HashesAt(s: Stores, chain: seq<Hash>, base: Coins, i: int): Hashes {
    if 0 <= i <= |chain| && CheckableFrom(s, chain, i) && Loaded(s, chain, i) then
      Hashes(CommitmentAt(s, chain, base, i), CreatingAt(s, chain, base, i))
    else
      Hashes(OfCoins(base), OfCoins(base))
  }

  ghost function HashesOf(s: Stores, chain: seq<Hash>, base: Coins): int -> Hashes {
    i => HashesAt(s, chain, base, i)
  }

  /** `hashes[k]` are the commitments after the k-th oldest of `n` blocks. */
  ghost predicate AreHashes(hashes: seq<Hashes>, at: int -> Hashes, n: nat) {
    forall k :: 0 <= k < |hashes| ==> hashes[k] == at(n - 1 - k)
  }

  lemma HashesSnoc(hashes: seq<Hashes>, at: int -> Hashes, n: nat)
    requires AreHashes(hashes, at, n)
    ensures AreHashes(hashes + [at(n - 1 - |hashes|)], at, n)
  {
  }

  lemma MergingOn(s: Stores, chain: seq<Hash>, base: Coins, i: nat)
    requires 0 < i <= |chain| && Loaded(s, chain, i - 1) && chain[i-1] in s.headerDaaScore
    ensures Loaded(s, chain, i) && chain[i-1] in s.acceptance
    ensures var b := BlockOf(s, chain[i-1]);
            CommitmentAt(s, chain, base, i - 1) ==
            MuRun(CommitmentAt(s, chain, base, i), BlockEvents(b, |b.mergeSet|, ByPosition))
  {
    var b := BlockOf(s, chain[i-1]);
    assert Load(s, chain[i-1]) == Some(b);
    MuRunConcat(OfCoins(base), ChainEvents(s, chain, i, ByPosition), BlockEvents(b, |b.mergeSet|, ByPosition));
  }

  lemma CreatingOn(s: Stores, chain: seq<Hash>, base: Coins, i: nat)
    requires 0 < i <= |chain| && CheckableFrom(s, chain, i - 1)
    ensures CheckableFrom(s, chain, i) && Checkable(s, chain[i-1])
    ensures CreatingAt(s, chain, base, i - 1) ==
            MuRun(CreatingAt(s, chain, base, i), CreatingEvents(s, chain[i-1], |s.acceptance[chain[i-1]]|))
  {
    assert Checkable(s, chain[i-1]);
    MuRunConcat(OfCoins(base), CreatingChain(s, chain, i),
                CreatingEvents(s, chain[i-1], |s.acceptance[chain[i-1]]|));
  }

  /** One block further the commitments are those of the block applied to the ones before. */
  lemma AppliedAt(s: Stores, chain: seq<Hash>, base: Coins, i: nat, now: Hashes)
    requires 0 < i <= |chain| && CheckableFrom(s, chain, i) && Checkable(s, chain[i-1])
    requires AppliedTo(s, chain[i-1], |s.acceptance[chain[i-1]]|, HashesAt(s, chain, base, i), now)
    ensures HashesAt(s, chain, base, i - 1) == now
  {
    assert CheckableFrom(s, chain, i - 1);
    CheckableLoaded(s, chain, i - 1);
    MergingOn(s, chain, base, i);
    CreatingOn(s, chain, base, i);
  }

  /** Where the walk stands before `chain[i-1]`. */
  ghost predicate WalkedTo(s: Stores, chain: seq<Hash>, base: Coins, i: int, now: Hashes, hashes: seq<Hashes>) {
    && 0 <= i == |chain| - |hashes| && CheckableFrom(s, chain, i)
    && now == HashesAt(s, chain, base, i) && AreHashes(hashes, HashesOf(s, chain, base), |chain|)
  }

  lemma WalkedOn(s: Stores, chain: seq<Hash>, base: Coins, i: nat, before: Hashes, now: Hashes, hashes: seq<Hashes>)
    requires 0 < i && WalkedTo(s, chain, base, i, before, hashes) && Checkable(s, chain[i-1])
    requires AppliedTo(s, chain[i-1], |s.acceptance[chain[i-1]]|, before, now)
    ensures WalkedTo(s, chain, base, i - 1, now, hashes + [now])
  {
    AppliedAt(s, chain, base, i, now);
    HashesSnoc(hashes, HashesOf(s, chain, base), |chain|);
  }

  /** What the walk hands over: the commitments of the blocks it could apply, the oldest first, and whether it applied
      them all. */
  ghost predicate WalkedUp(s: Stores, chain: seq<Hash>, base: Coins, hashes: seq<Hashes>, ok: bool) {
    && |hashes| <= |chain| && CheckableFrom(s, chain, |chain| - |hashes|)
    && AreHashes(hashes, HashesOf(s, chain, base), |chain|)
    && (ok <==> |hashes| == |chain|)
    && (!ok ==> !Checkable(s, chain[|chain| - 1 - |hashes|]))
  }

  method WalkUp(merging: Multiset, creating: Multiset, s: Stores, chain: seq<Hash>, ghost base: Coins)
    returns (hashes: seq<Hashes>, ok: bool)
    requires merging != creating && merging.state == creating.state == OfCoins(base)
    modifies merging, creating
    ensures WalkedUp(s, chain, base, hashes, ok)
  {
    hashes, ok := [], true;
    var i := |chain|;
    while i > 0
      invariant ok && WalkedTo(s, chain, base, i, Hashes(merging.state, creating.state), hashes)
    {
      ghost var before := Hashes(merging.state, creating.state);
      ok := ApplyBlock(merging, creating, s, chain[i-1]);
      if !ok {
        return;
      }
      WalkedOn(s, chain, base, i, before, Hashes(merging.state, creating.state), hashes);
      hashes := hashes + [Hashes(merging.state, creating.state)];
      i := i - 1;
    }
  }

  // ----- The verdicts

  /** `same` tells whether two multisets have one hash. */
  function VerdictOf(same: (MuHash, MuHash) -> bool, h: Hashes, commitment: MuHash): Verdict {
    if same(h.merging, commitment) && same(h.creating, commitment) then Both
    else if same(h.merging, commitment) then Merging
    else if same(h.creating, commitment) then Creating
    else Neither
  }

  function HashEqual(): (MuHash, MuHash) -> bool {
    (a, b) => SameHash(a, b)
  }

  /** `verdicts[k]` is the one on the k-th oldest block. */
  ghost predicate AreVerdicts(same: (MuHash, MuHash) -> bool, verdicts: seq<Verdict>, at: int -> Hashes,
                              commitment: Hash -> MuHash, chain: seq<Hash>)
    requires |verdicts| <= |chain|
  {
    forall k :: 0 <= k < |verdicts| ==>
      verdicts[k] == VerdictOf(same, at(|chain| - 1 - k), commitment(chain[|chain| - 1 - k]))
  }

  method Judge(same: (MuHash, MuHash) -> bool, hashes: seq<Hashes>, commitment: Hash -> MuHash, chain: seq<Hash>,
               ghost at: int -> Hashes) returns (verdicts: seq<Verdict>)
    requires |hashes| <= |chain| && AreHashes(hashes, at, |chain|)
    ensures |verdicts| == |hashes| && AreVerdicts(same, verdicts, at, commitment, chain)
  {
    verdicts := [];
    for k := 0 to |hashes|
      invariant |verdicts| == k && AreVerdicts(same, verdicts, at, commitment, chain)
    {
      verdicts := verdicts + [VerdictOf(same, hashes[k], commitment(chain[|chain| - 1 - k]))];
    }
  }

  /** `found` is the first chain index around `index` whose stored multiset has the given hash, if there is one. */
  ghost predicate Located(same: (MuHash, MuHash) -> bool, hash: MuHash, stored: map<nat, MuHash>, index: nat,
                          found: Option<nat>) {
    match found
    case Some(i) =>
      && index <= i + WINDOW && i <= index + WINDOW && i in stored && same(stored[i], hash)
      && forall j: nat :: index <= j + WINDOW && j < i && j in stored ==> !same(stored[j], hash)
    case None =>
      forall j: nat :: index <= j + WINDOW && j <= index + WINDOW && j in stored ==> !same(stored[j], hash)
  }

  method LocateBase(same: (MuHash, MuHash) -> bool, hash: MuHash, stored: map<nat, MuHash>, index: nat)
    returns (found: Option<nat>)
    ensures Located(same, hash, stored, index, found)
  {
    var low := if index > 20000 then index - 20000 else 0;
    for i := low to index + 20000 + 1
      invariant forall j: nat :: low <= j < i && j in stored ==> !same(stored[j], hash)
    {
      if i in stored && same(stored[i], hash) {
        return Some(i);
      }
    }
    return None;
  }

  /** The verdicts are those on the blocks that could be applied, from the oldest up to the first that could not. */
  ghost predicate WalkReport(same: (MuHash, MuHash) -> bool, s: Stores, commitment: Hash -> MuHash, chain: seq<Hash>,
                             base: Coins, verdicts: seq<Verdict>, complete: bool) {
    && |verdicts| <= |chain| && CheckableFrom(s, chain, |chain| - |verdicts|)
    && AreVerdicts(same, verdicts, HashesOf(s, chain, base), commitment, chain)
    && (complete <==> |verdicts| == |chain|)
    && (!complete ==> !Checkable(s, chain[|chain| - 1 - |verdicts|]))
  }

  lemma JudgedWalk(same: (MuHash, MuHash) -> bool, s: Stores, commitment: Hash -> MuHash, chain: seq<Hash>,
                   base: Coins, hashes: seq<Hashes>, verdicts: seq<Verdict>, complete: bool)
    requires WalkedUp(s, chain, base, hashes, complete) && |verdicts| == |hashes|
    requires AreVerdicts(same, verdicts, HashesOf(s, chain, base), commitment, chain)
    ensures WalkReport(same, s, commitment, chain, base, verdicts, complete)
  {
  }

  method WalkAndJudge(same: (MuHash, MuHash) -> bool, merging: Multiset, s: Stores, commitment: Hash -> MuHash,
                      chain: seq<Hash>, ghost base: Coins) returns (verdicts: seq<Verdict>, complete: bool)
    requires merging.state == OfCoins(base)
    modifies merging
    ensures WalkReport(same, s, commitment, chain, base, verdicts, complete)
  {
    var creating := new Multiset();
    creating.state := merging.state;
    var hashes;
    hashes, complete := WalkUp(merging, creating, s, chain, base);
    verdicts := Judge(same, hashes, commitment, chain, HashesOf(s, chain, base));
    JudgedWalk(same, s, commitment, chain, base, hashes, verdicts, complete);
  }

  /** What the check reports. */
  ghost predicate Reports(same: (MuHash, MuHash) -> bool, s: Stores, commitment: Hash -> MuHash, index: Option<nat>,
                          stored: map<nat, MuHash>, chain: seq<Hash>, base: Coins, r: Result) {
    match r
    case NoHeader => s.pruningPoint !in s.headerDaaScore
    case NotOnChain(matches) =>
      && s.pruningPoint in s.headerDaaScore && index.None?
      && (matches <==> same(OfCoins(base), commitment(s.pruningPoint)))
    case Mismatch(staleAt) =>
      && s.pruningPoint in s.headerDaaScore && index.Some? && !same(OfCoins(base), commitment(s.pruningPoint))
      && Located(same, OfCoins(base), stored, index.value, staleAt)
    case Walked(verdicts, complete) =>
      && s.pruningPoint in s.headerDaaScore && index.Some? && same(OfCoins(base), commitment(s.pruningPoint))
      && WalkReport(same, s, commitment, chain, base, verdicts, complete)
  }

  /** `index` is the pruning point's place on the selected chain, and `stored` the multisets stored there, by index.
      Hashes are compared by `same`; HashEqual() is what equal hashes mean. */
  method Check(same: (MuHash, MuHash) -> bool, s: Stores, commitment: Hash -> MuHash, index: Option<nat>,
               stored: map<nat, MuHash>, chain: seq<Hash>, pairs: seq<(Outpoint, Entry)>, ghost base: Coins)
    returns (r: Result)
    requires Lists(pairs, base)
    ensures Reports(same, s, commitment, index, stored, chain, base, r)
  {
    if s.pruningPoint !in s.headerDaaScore {
      return NoHeader;
    }
    var merging := BaseMultiset(pairs, base);
    var matches := same(merging.state, commitment(s.pruningPoint));
    if index.None? {
      return NotOnChain(matches);
    }
    if !matches {
      var found := LocateBase(same, merging.state, stored, index.value);
      return Mismatch(found);
    }
    var verdicts, complete := WalkAndJudge(same, merging, s, commitment, chain, base);
    return Walked(verdicts, complete);
  }

  // ----- What the verdicts say

  lemma SameHashThrough(a: MuHash, b: MuHash, c: MuHash)
    requires SameHash(a, b)
    ensures SameHash(a, c) <==> SameHash(b, c)
  {
    if SameHash(a, c) {
      forall x ensures (b.numerator + c.denominator)[x] == (c.numerator + b.denominator)[x] {
        Counts(a, b, x);
        Counts(a, c, x);
      }
    }
    if SameHash(b, c) {
      forall x ensures (a.numerator + c.denominator)[x] == (c.numerator + a.denominator)[x] {
        Counts(a, b, x);
        Counts(b, c, x);
      }
    }
  }

  lemma VerdictCredits(same: (MuHash, MuHash) -> bool, h: Hashes, commitment: MuHash)
    ensures var v := VerdictOf(same, h, commitment);
            && (v.Both? || v.Merging? <==> same(h.merging, commitment))
            && (v.Both? || v.Creating? <==> same(h.creating, commitment))
  {
  }

  /** On a chain whose recorded acceptance is truthful, the verdict on a block credits the merging-block rule exactly
      when the block's header commits to the set the plain replay reaches there. */
  lemma MergingVerdictMeans(s: Stores, commitment: Hash -> MuHash, chain: seq<Hash>, base: Coins, i: nat)
    requires CheckableFrom(s, chain, 0) && Loaded(s, chain, 0) && i < |chain|
    requires AlwaysTruthful(base, ChainEvents(s, chain, 0, ByPosition))
    ensures var v := VerdictOf(HashEqual(), HashesAt(s, chain, base, i), commitment(chain[i]));
            v.Both? || v.Merging? <==>
            SameHash(OfCoins(Replay(base, ChainEvents(s, chain, i, ByPosition))), commitment(chain[i]))
  {
    VerdictCredits(HashEqual(), HashesAt(s, chain, base, i), commitment(chain[i]));
    CommitmentAfterBlock(s, chain, i, base);
    SameHashThrough(CommitmentAt(s, chain, base, i), OfCoins(Replay(base, ChainEvents(s, chain, i, ByPosition))),
                    commitment(chain[i]));
  }

  /** And under the creating-block rule, with the replay of the events under every merged block's own score. */
  lemma CreatingVerdictMeans(s: Stores, commitment: Hash -> MuHash, chain: seq<Hash>, base: Coins, i: nat)
    requires CheckableFrom(s, chain, i) && Loaded(s, chain, i) && i < |chain|
    requires AlwaysTruthful(base, CreatingChain(s, chain, i))
    ensures var v := VerdictOf(HashEqual(), HashesAt(s, chain, base, i), commitment(chain[i]));
            v.Both? || v.Creating? <==>
            SameHash(OfCoins(Replay(base, CreatingChain(s, chain, i))), commitment(chain[i]))
  {
    var es := CreatingChain(s, chain, i);
    VerdictCredits(HashEqual(), HashesAt(s, chain, base, i), commitment(chain[i]));
    CommitmentTracksReplay(OfCoins(base), base, es);
    InStepAfterPrefix(OfCoins(base), base, es, |es|);
    assert es[..|es|] == es;
    SameHashThrough(CreatingAt(s, chain, base, i), OfCoins(Replay(base, es)), commitment(chain[i]));
  }

  /** Every merged block of the chain has the score of the block that merges it. */
  ghost predicate Degenerate(s: Stores, chain: seq<Hash>, from: nat)
    requires CheckableFrom(s, chain, from)
  {
    forall i :: from <= i < |chain| ==> DegenerateAt(s, chain[i], |s.acceptance[chain[i]]|)
  }

  ghost predicate DegenerateAt(s: Stores, h: Hash, n: nat)
    requires h in s.headerDaaScore
  {
    forall i :: 0 <= i < n ==> CreatingScore(s, h, i) == Some(s.headerDaaScore[h])
  }

  lemma {:induction false} DegenerateEvents(s: Stores, h: Hash, n: nat)
    requires Checkable(s, h) && n <= |s.acceptance[h]| && DegenerateAt(s, h, n)
    ensures var b := ChainBlock(s.headerDaaScore[h], s.acceptance[h]);
            CreatingEvents(s, h, n) == BlockEvents(b, n, ByPosition)
  {
    if n > 0 {
      DegenerateEvents(s, h, n - 1);
    }
  }

  lemma {:induction false} DegenerateChain(s: Stores, chain: seq<Hash>, from: nat)
    requires from <= |chain| && CheckableFrom(s, chain, from) && Loaded(s, chain, from) && Degenerate(s, chain, from)
    ensures CreatingChain(s, chain, from) == ChainEvents(s, chain, from, ByPosition)
    decreases |chain| - from
  {
    if from < |chain| {
      DegenerateChain(s, chain, from + 1);
      var h := chain[from];
      assert Checkable(s, h) && Load(s, h) == Some(ChainBlock(s.headerDaaScore[h], s.acceptance[h]));
      DegenerateEvents(s, h, |s.acceptance[h]|);
    }
  }

  /** Where the scores do not differ the rules cannot be told apart. */
  lemma DegenerateVerdicts(same: (MuHash, MuHash) -> bool, s: Stores, chain: seq<Hash>, base: Coins, i: nat,
                           commitment: MuHash)
    requires i <= |chain| && CheckableFrom(s, chain, i) && Loaded(s, chain, i) && Degenerate(s, chain, i)
    ensures var v := VerdictOf(same, HashesAt(s, chain, base, i), commitment); v.Both? || v.Neither?
  {
    DegenerateChain(s, chain, i);
  }
}
