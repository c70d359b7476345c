/** The checks of a node's stored pruning point list against its headers: the gate an imported list must pass,
    and the stricter header walk. */
module PruningList {
  import opened Arithmetic
  import opened Utxo
  import opened Dag

  datatype Header = Header(pruningPoint: Hash, blueScore: nat, daaScore: nat)

  datatype DaaRead = Stored(score: nat) | NotStored | Unreadable

  /** `points` is the stored list by index; `daaScore` reads the DAA score store. */
  datatype Stores = Stores(
    headers: map<Hash, Header>,
    ghostdag: GhostdagStore,
    points: map<nat, Hash>,
    daaScore: map<Hash, DaaRead>)

  /** The network parameters, by block version. */
  datatype Params = Params(
    genesis: Hash,
    version: nat -> nat,          // the block version at a DAA score
    finalityDepth: nat -> nat,
    pruningDepth: nat -> nat)

  datatype Verdict = Pass | Fail | Error

  // ----- The selected chain above the pruning point

  datatype Walk = Reached(blocks: seq<Hash>) | Misses | Breaks

  /** The selected chain from `h` down to just above the pruning point. `stopsAtVirtualGenesis` tells the gate's
      walk from the header walk's. */
  ghost function Above(s: Stores, pp: Hash, h: Hash, stopsAtVirtualGenesis: bool): Walk
    requires BlueScoresRise(s.ghostdag)
    decreases Remaining(s.ghostdag, h)
  {
    if h == pp then Reached([])
    else if stopsAtVirtualGenesis && h == VIRTUAL_GENESIS then Misses
    else if h !in s.headers || h !in s.ghostdag then Breaks
    else if s.ghostdag[h].selectedParent.None? then Misses
    else
      match Above(s, pp, s.ghostdag[h].selectedParent.value, stopsAtVirtualGenesis)
      case Reached(rest) => Reached([h] + rest)
      case Misses => Misses
      case Breaks => Breaks
  }

  lemma {:induction false} AboveExcludesPruningPoint(s: Stores, pp: Hash, h: Hash, v: bool)
    requires BlueScoresRise(s.ghostdag)
    ensures Above(s, pp, h, v).Reached? ==>
              pp !in Above(s, pp, h, v).blocks && AllHeaded(s, Above(s, pp, h, v).blocks)
    decreases Remaining(s.ghostdag, h)
  {
    if h != pp && h in s.ghostdag && s.ghostdag[h].selectedParent.Some? {
      AboveExcludesPruningPoint(s, pp, s.ghostdag[h].selectedParent.value, v);
    }
  }

  /** `h` is what the header of some block of `blocks` commits to. */
  ghost predicate Committed(s: Stores, blocks: seq<Hash>, h: Hash) {
    exists b :: b in blocks && b in s.headers && s.headers[b].pruningPoint == h
  }

  /** Appends unless it repeats the newest entry. */
  function Push(q: seq<Hash>, h: Hash): seq<Hash> {
    if q != [] && q[|q|-1] == h then q else q + [h]
  }

  ghost predicate AllHeaded(s: Stores, blocks: seq<Hash>) {
    forall i :: 0 <= i < |blocks| ==> blocks[i] in s.headers
  }

  /** The commitments of the headers of `blocks`, newest first, without consecutive repeats. */
  ghost function Commitments(s: Stores, blocks: seq<Hash>): seq<Hash>
    requires AllHeaded(s, blocks)
    decreases |blocks|
  {
    if blocks == [] then [] else
      Push(Commitments(s, blocks[..|blocks|-1]), s.headers[blocks[|blocks|-1]].pruningPoint)
  }

  lemma CommitmentsSnoc(s: Stores, blocks: seq<Hash>, b: Hash)
    requires AllHeaded(s, blocks) && b in s.headers
    ensures AllHeaded(s, blocks + [b])
    ensures Commitments(s, blocks + [b]) == Push(Commitments(s, blocks), s.headers[b].pruningPoint)
  {
  }

  /** Removing repeats loses no commitment, and none is left next to itself. */
  lemma {:induction false} CommitmentsMembers(s: Stores, blocks: seq<Hash>, h: Hash)
    requires AllHeaded(s, blocks)
    ensures h in Commitments(s, blocks) <==> Committed(s, blocks, h)
    ensures var all := Commitments(s, blocks); forall i :: 0 <= i < |all| - 1 ==> all[i] != all[i+1]
    decreases |blocks|
  {
    if blocks != [] {
      var front := blocks[..|blocks|-1];
      CommitmentsMembers(s, front, h);
      CommittedSnoc(s, front, blocks[|blocks|-1]);
      assert blocks == front + [blocks[|blocks|-1]];
      PushKeeps(Commitments(s, front), s.headers[blocks[|blocks|-1]].pruningPoint);
    }
  }

  method PushDistinct(q: seq<Hash>, h: Hash) returns (longer: seq<Hash>)
    ensures longer == Push(q, h)
  {
    longer := q;
    if |q| == 0 || q[|q|-1] != h {
      longer := q + [h];
    }
  }

  /** Walks down from the tip, collecting the blocks and their headers' commitments, newest first, without
      consecutive repeats. */
  method WalkDown(s: Stores, pp: Hash, tip: Hash, stopsAtVirtualGenesis: bool)
    returns (walk: Walk, commitments: seq<Hash>)
    requires BlueScoresRise(s.ghostdag)
    ensures walk == Above(s, pp, tip, stopsAtVirtualGenesis)
    ensures walk.Reached? ==> AllHeaded(s, walk.blocks)
    ensures walk.Reached? ==> commitments == Commitments(s, walk.blocks)
  {
    var blocks: seq<Hash> := [];
    commitments := [];
    var current := tip;
    ghost var all := Above(s, pp, tip, stopsAtVirtualGenesis);
    assert all.Reached? ==> [] + all.blocks == all.blocks;
    while current != pp
      invariant match Above(s, pp, current, stopsAtVirtualGenesis)
                case Reached(rest) => all == Reached(blocks + rest)
                case other => all == other
      invariant AllHeaded(s, blocks)
      invariant commitments == Commitments(s, blocks)
      decreases Remaining(s.ghostdag, current)
    {
      if stopsAtVirtualGenesis && current == VIRTUAL_GENESIS {
        return Misses, commitments;
      }
      if current !in s.headers {
        return Breaks, commitments;
      }
      ghost var before := blocks;
      blocks := blocks + [current];
      CommitmentsSnoc(s, before, current);
      commitments := PushDistinct(commitments, s.headers[current].pruningPoint);
      if current !in s.ghostdag {
        return Breaks, commitments;
      }
      if s.ghostdag[current].selectedParent.None? {
        return Misses, commitments;
      }
      ghost var rest := Above(s, pp, s.ghostdag[current].selectedParent.value, stopsAtVirtualGenesis);
      assert rest.Reached? ==> before + ([current] + rest.blocks) == blocks + rest.blocks;
      current := s.ghostdag[current].selectedParent.value;
    }
    assert blocks + [] == blocks;
    return Reached(blocks), commitments;
  }

  lemma PushKeeps(q: seq<Hash>, h: Hash)
    ensures forall x :: x in Push(q, h) <==> x in q || x == h
  {
  }

  lemma CommittedSnoc(s: Stores, blocks: seq<Hash>, b: Hash)
    requires b in s.headers
    ensures forall h :: Committed(s, blocks + [b], h) <==> Committed(s, blocks, h) || h == s.headers[b].pruningPoint
  {
  }

  // ----- The in-place filter

  function Kept(q: seq<Hash>, drop: set<Hash>): seq<Hash>
    decreases |q|
  {
    if q == [] then []
    else Kept(q[..|q|-1], drop) + if q[|q|-1] in drop then [] else [q[|q|-1]]
  }

  lemma {:induction false} KeptMembers(q: seq<Hash>, drop: set<Hash>, h: Hash)
    ensures |Kept(q, drop)| <= |q|
    ensures h in Kept(q, drop) <==> h in q && h !in drop
    decreases |q|
  {
    if q != [] {
      KeptMembers(q[..|q|-1], drop, h);
      assert q == q[..|q|-1] + [q[|q|-1]];
    }
  }

  /** Filters into the buffer it reads from, as a slice reusing its backing array does. */
  method FilterInPlace(buffer: array<Hash>, drop: set<Hash>) returns (n: nat)
    modifies buffer
    ensures n <= buffer.Length && buffer[..n] == Kept(old(buffer[..]), drop)
  {
    ghost var q := buffer[..];
    n := 0;
    for i := 0 to buffer.Length
      invariant n <= i && buffer[..n] == Kept(q[..i], drop)
      invariant buffer[i..] == q[i..]
    {
      assert buffer[i] == buffer[i..][0] == q[i];
      assert q[..i+1][..i] == q[..i];
      var h := buffer[i];
      if h !in drop {
        buffer[n] := h;
        n := n + 1;
      }
      assert buffer[i+1..] == q[i..][1..] == q[i+1..];
    }
    assert q[..buffer.Length] == q;
  }

  // ----- The gate

  function Max(a: nat, b: nat): nat {
    if a > b then a else b
  }

  /** How far below the pruning point the point its header commits to may be stored. */
  function Window(p: Params, version: nat): nat {
    var finality := Max(p.finalityDepth(version), 1);
    2 * ((p.pruningDepth(version) + finality - 1) / finality)
  }

  function Lowest(currentIndex: nat, window: nat): nat {
    if currentIndex > window then currentIndex - window else 0
  }

  /** The DAA score of the pruning point, its header's if none is stored. */
  function ScoreOf(s: Stores, pp: Hash): Option<nat>
    requires pp in s.headers
  {
    if pp !in s.daaScore then Some(s.headers[pp].daaScore) else
      match s.daaScore[pp]
      case Stored(score) => Some(score)
      case NotStored => Some(s.headers[pp].daaScore)
      case Unreadable => None
  }

  /** The `n`-th index the search looks at: down from just below the current one, in 64-bit arithmetic. */
  function Visited(currentIndex: nat, n: nat): nat {
    Wrap(currentIndex - 1 - n)
  }

  /** How many indexes it looks at until `lowest`: with an empty window it goes all the way round. */
  function Visits(currentIndex: nat, lowest: nat): nat
    requires lowest <= currentIndex
  {
    if lowest < currentIndex then currentIndex - lowest else UINT64_MODULUS
  }

  lemma LastVisit(currentIndex: nat, lowest: nat, n: nat)
    requires lowest <= currentIndex < UINT64_MODULUS && n < Visits(currentIndex, lowest)
    ensures Visited(currentIndex, n) == lowest <==> n == Visits(currentIndex, lowest) - 1
    ensures lowest < currentIndex ==> Visited(currentIndex, n) == currentIndex - 1 - n
  {
  }

  /** The first `n` points looked at are readable and not the one searched for. */
  ghost predicate PassedBy(s: Stores, previous: Hash, currentIndex: nat, n: nat) {
    forall m :: 0 <= m < n ==>
      Visited(currentIndex, m) in s.points && s.points[Visited(currentIndex, m)] != previous
  }

  /** The newest stored point in the window that is the one the pruning point commits to has a lower blue score,
      and everything newer is readable. */
  ghost predicate CommitmentStored(s: Stores, pp: Hash, currentIndex: nat, lowest: nat)
    requires pp in s.headers && lowest <= currentIndex
  {
    var previous := s.headers[pp].pruningPoint;
    exists n: nat ::
      && n < Visits(currentIndex, lowest) && PassedBy(s, previous, currentIndex, n)
      && Visited(currentIndex, n) in s.points && s.points[Visited(currentIndex, n)] == previous
      && previous in s.headers && s.headers[previous].blueScore < s.headers[pp].blueScore
  }

  /** What the gate asks of a list, declaratively. */
  ghost predicate GatePasses(s: Stores, p: Params, pp: Hash, tip: Hash, currentIndex: nat, anchorVersion: nat)
    requires BlueScoresRise(s.ghostdag)
  {
    if currentIndex == 0 then pp == p.genesis else
      && pp != p.genesis
      && Above(s, pp, tip, true).Reached? && Committed(s, Above(s, pp, tip, true).blocks, pp)
      && pp in s.headers && ScoreOf(s, pp).Some?
      && var version := p.version(ScoreOf(s, pp).value);
         version < anchorVersion ||
         CommitmentStored(s, pp, currentIndex, Lowest(currentIndex, Window(p, version)))
  }

  /** The first stored point the search looks at that settles it cannot be read, or is the one searched for and has no
      header. */
  ghost predicate CommitmentUnreadable(s: Stores, pp: Hash, currentIndex: nat, lowest: nat)
    requires pp in s.headers && lowest <= currentIndex
  {
    var previous := s.headers[pp].pruningPoint;
    exists n: nat ::
      && n < Visits(currentIndex, lowest) && PassedBy(s, previous, currentIndex, n)
      && (Visited(currentIndex, n) !in s.points ||
          (s.points[Visited(currentIndex, n)] == previous && previous !in s.headers))
  }

  /** The gate cannot answer: something it needs, and gets to, cannot be read. */
  ghost predicate GateErrs(s: Stores, p: Params, pp: Hash, tip: Hash, currentIndex: nat, anchorVersion: nat)
    requires BlueScoresRise(s.ghostdag)
  {
    && currentIndex > 0 && pp != p.genesis
    && match Above(s, pp, tip, true)
       case Misses => false
       case Breaks => true
       case Reached(blocks) =>
         && Committed(s, blocks, pp)
         && (pp !in s.headers || ScoreOf(s, pp).None? ||
             var version := p.version(ScoreOf(s, pp).value);
             && version >= anchorVersion
             && CommitmentUnreadable(s, pp, currentIndex, Lowest(currentIndex, Window(p, version))))
  }

  method CheckPruningPointsInValidChain(s: Stores, p: Params, pp: Hash, tip: Hash, currentIndex: nat,
                                        anchorVersion: nat) returns (verdict: Verdict)
    requires BlueScoresRise(s.ghostdag) && currentIndex < UINT64_MODULUS
    ensures verdict.Pass? <==> GatePasses(s, p, pp, tip, currentIndex, anchorVersion)
    ensures verdict.Error? <==> GateErrs(s, p, pp, tip, currentIndex, anchorVersion)
  {
    if currentIndex == 0 {
      return if pp == p.genesis then Pass else Fail;
    }
    if pp == p.genesis {
      return Fail;
    }
    var walk, commitments := WalkDown(s, pp, tip, true);
    match walk {
      case Misses => return Fail;
      case Breaks => return Error;
      case Reached(blocks) =>
        var adopted := AdoptedContains(s, commitments, blocks, pp, tip);
        if !adopted {
          return Fail;
        }
    }
    if pp !in s.headers {
      return Error;
    }
    var daaScore := s.headers[pp].daaScore;
    if pp in s.daaScore {
      match s.daaScore[pp] {
        case Stored(score) => daaScore := score;
        case NotStored =>
        case Unreadable => return Error;
      }
    }
    var version := p.version(daaScore);
    if version < anchorVersion {
      return Pass;
    }
    var finalityDepth := if p.finalityDepth(version) > 1 then p.finalityDepth(version) else 1;
    var window := 2 * ((p.pruningDepth(version) + finalityDepth - 1) / finalityDepth);
    var lowest := 0;
    if currentIndex > window {
      lowest := currentIndex - window;
    }
    verdict := FindCommitment(s, pp, currentIndex, lowest);
  }

  /** Whether the pruning point is among the commitments that are not themselves above it. Dropping those never
      drops the pruning point. */
  method AdoptedContains(s: Stores, commitments: seq<Hash>, blocks: seq<Hash>, pp: Hash, tip: Hash)
    returns (found: bool)
    requires BlueScoresRise(s.ghostdag) && Above(s, pp, tip, true) == Reached(blocks)
    requires AllHeaded(s, blocks) && commitments == Commitments(s, blocks)
    ensures found <==> Committed(s, blocks, pp)
  {
    var above := set b | b in blocks;
    var buffer := new Hash[|commitments|](i requires 0 <= i < |commitments| => commitments[i]);
    assert buffer[..] == commitments;
    var n := FilterInPlace(buffer, above);
    AboveExcludesPruningPoint(s, pp, tip, true);
    KeptMembers(commitments, above, pp);
    CommitmentsMembers(s, blocks, pp);
    found := pp in buffer[..n];
  }

  method FindCommitment(s: Stores, pp: Hash, currentIndex: nat, lowest: nat) returns (verdict: Verdict)
    requires pp in s.headers && lowest <= currentIndex < UINT64_MODULUS && 0 < currentIndex
    ensures verdict.Pass? <==> CommitmentStored(s, pp, currentIndex, lowest)
    ensures verdict.Error? <==> CommitmentUnreadable(s, pp, currentIndex, lowest)
  {
    var previous := s.headers[pp].pruningPoint;
    var index := currentIndex - 1;
    ghost var n := 0;
    while true
      invariant n < Visits(currentIndex, lowest) && index == Visited(currentIndex, n)
      invariant PassedBy(s, previous, currentIndex, n)
      decreases Visits(currentIndex, lowest) - n
    {
      LastVisit(currentIndex, lowest, n);
      if index !in s.points {
        return Error;
      }
      if s.points[index] == previous {
        if previous !in s.headers {
          return Error;
        }
        if s.headers[previous].blueScore >= s.headers[pp].blueScore {
          return Fail;
        }
        return Pass;
      }
      if index == lowest {
        return Fail;
      }
      index := Wrap(index - 1);
      n := n + 1;
    }
  }

  // ----- The header walk

  /** Stored point `i` is committed to by a header above the pruning point, or by a newer stored point's. */
  ghost predicate Backed(s: Stores, blocks: seq<Hash>, currentIndex: nat, i: nat, h: Hash) {
    || Committed(s, blocks, h)
    || exists j :: i < j <= currentIndex && j in s.points && s.points[j] in s.headers &&
                   s.headers[s.points[j]].pruningPoint == h
  }

  /** The stored points from index `i` down to genesis are, one index at a time, what the headers expect: `queue`
      first, then what each stored point's own header commits to. */
  ghost predicate Expected(s: Stores, genesis: Hash, queue: seq<Hash>, i: nat)
    decreases i
  {
    && i in s.points && queue != [] && s.points[i] == queue[0]
    && if i == 0 then s.points[0] == genesis && |queue| == 1
       else s.points[i] in s.headers &&
            Expected(s, genesis, Push(queue[1..], s.headers[s.points[i]].pruningPoint), i - 1)
  }

  ghost predicate HeaderWalkPasses(s: Stores, genesis: Hash, pp: Hash, tip: Hash, currentIndex: nat)
    requires BlueScoresRise(s.ghostdag)
  {
    && Above(s, pp, tip, false).Reached?
    && AllHeaded(s, Above(s, pp, tip, false).blocks)
    && Expected(s, genesis, Commitments(s, Above(s, pp, tip, false).blocks), currentIndex)
  }

  /** Following the expected points down from index `i` meets a point, or a point's header, that cannot be read
      before it meets a disagreement. */
  ghost predicate ExpectedUnreadable(s: Stores, queue: seq<Hash>, i: nat)
    decreases i
  {
    || i !in s.points
    || (i > 0 && queue != [] && s.points[i] == queue[0] &&
        (s.points[i] in s.headers ==>
           ExpectedUnreadable(s, Push(queue[1..], s.headers[s.points[i]].pruningPoint), i - 1)))
  }

  ghost predicate HeaderWalkErrs(s: Stores, pp: Hash, tip: Hash, currentIndex: nat)
    requires BlueScoresRise(s.ghostdag)
  {
    var walk := Above(s, pp, tip, false);
    || walk.Breaks?
    || (walk.Reached? && walk.blocks != [] && AllHeaded(s, walk.blocks) &&
        ExpectedUnreadable(s, Commitments(s, walk.blocks), currentIndex))
  }

  method CheckPruningPointHeaderWalk(s: Stores, genesis: Hash, pp: Hash, tip: Hash, currentIndex: nat)
    returns (verdict: Verdict)
    requires BlueScoresRise(s.ghostdag)
    ensures verdict.Pass? <==> HeaderWalkPasses(s, genesis, pp, tip, currentIndex)
    ensures verdict.Error? <==> HeaderWalkErrs(s, pp, tip, currentIndex)
  {
    var walk, expected := WalkDown(s, pp, tip, false);
    match walk {
      case Misses => return Fail;
      case Breaks => return Error;
      case Reached(_) =>
    }
    if expected == [] {
      return Fail;
    }
    var i := currentIndex;
    while true
      invariant 0 <= i <= currentIndex
      invariant Expected(s, genesis, expected, i) <==> HeaderWalkPasses(s, genesis, pp, tip, currentIndex)
      invariant ExpectedUnreadable(s, expected, i) <==> HeaderWalkErrs(s, pp, tip, currentIndex)
      decreases i
    {
      if i !in s.points {
        return Error;
      }
      var stored := s.points[i];
      if expected == [] || stored != expected[0] {
        return Fail;
      }
      expected := expected[1..];
      if i == 0 {
        return if stored == genesis && expected == [] then Pass else Fail;
      }
      if stored !in s.headers {
        return Error;
      }
      expected := PushDistinct(expected, s.headers[stored].pruningPoint);
      i := i - 1;
    }
  }

  lemma {:induction false} ExpectedMeansBacked(s: Stores, genesis: Hash, blocks: seq<Hash>, queue: seq<Hash>,
                                               i: nat, currentIndex: nat)
    requires i <= currentIndex && Expected(s, genesis, queue, i)
    requires forall h :: h in queue ==> Backed(s, blocks, currentIndex, i, h)
    ensures forall k: nat :: k <= i ==> k in s.points && Backed(s, blocks, currentIndex, k, s.points[k])
    ensures s.points[0] == genesis
    decreases i
  {
    if i > 0 {
      var h0 := s.headers[s.points[i]].pruningPoint;
      var next := Push(queue[1..], h0);
      PushKeeps(queue[1..], h0);
      forall h | h in next ensures Backed(s, blocks, currentIndex, i - 1, h) {
        if h != h0 {
          assert Backed(s, blocks, currentIndex, i, h);
        }
      }
      ExpectedMeansBacked(s, genesis, blocks, next, i - 1, currentIndex);
    }
  }

  /** A pass of the header walk means: the headers above reach down to the pruning point, every stored point down to
      index 0 is committed to by one of them or by a newer stored point, and index 0 is genesis. */
  lemma HeaderWalkPassMeans(s: Stores, genesis: Hash, pp: Hash, tip: Hash, currentIndex: nat)
    requires BlueScoresRise(s.ghostdag) && HeaderWalkPasses(s, genesis, pp, tip, currentIndex)
    ensures var blocks := Above(s, pp, tip, false).blocks;
            && Committed(s, blocks, s.points[currentIndex])
            && (forall i: nat :: i <= currentIndex ==>
                  i in s.points && Backed(s, blocks, currentIndex, i, s.points[i]))
            && s.points[0] == genesis
  {
    var blocks := Above(s, pp, tip, false).blocks;
    var queue := Commitments(s, blocks);
    forall h | h in queue ensures Committed(s, blocks, h) {
      CommitmentsMembers(s, blocks, h);
    }
    ExpectedMeansBacked(s, genesis, blocks, queue, currentIndex, currentIndex);
  }
}
