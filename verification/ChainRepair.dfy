/** The two repairs that walk each tip's selected-parent chain and send blocks back to verification: of
    disqualified blocks, and of UTXO-valid blocks without a stored multiset. */
module ChainRepair {
  import opened Utxo
  import opened Dag

  datatype Status = UtxoValid | UtxoPendingVerification | DisqualifiedFromChain | HeaderOnly | Invalid

  datatype Kind = DisqualifiedChains | MissingMultisets

  /** The stores; the `bad` sets are the blocks whose record cannot be read for another reason than being
      absent. */
  datatype Stores = Stores(
    status: map<Hash, Status>,
    ghostdag: GhostdagStore,
    multisets: set<Hash>,
    badStatus: set<Hash>,
    badGhostdag: set<Hash>,
    badMultiset: set<Hash>)

  predicate Eligible(s: Stores, kind: Kind, h: Hash) {
    h in s.status &&
    match kind
    case DisqualifiedChains => s.status[h].DisqualifiedFromChain?
    case MissingMultisets => s.status[h].UtxoValid? && h !in s.multisets
  }

  /** Where the walk goes on from `h`. */
  function Next(s: Stores, h: Hash): Option<Hash> {
    if h in s.ghostdag && s.ghostdag[h].selectedParent != Some(VIRTUAL_GENESIS)
    then s.ghostdag[h].selectedParent else None
  }

  // ----- The blocks a repair is for

  ghost predicate Linked(s: Stores, path: seq<Hash>) {
    forall i :: 0 <= i < |path| - 1 ==> Next(s, path[i]) == Some(path[i+1])
  }

  /** `path` leads from `tip` down the selected-parent chain through eligible blocks only. */
  ghost predicate LeadingRun(s: Stores, kind: Kind, tip: Hash, path: seq<Hash>) {
    path != [] && path[0] == tip && Linked(s, path) && forall i :: 0 <= i < |path| ==> Eligible(s, kind, path[i])
  }

  /** `b` is in the maximal leading run of eligible blocks of some tip's chain. */
  ghost predicate InLeadingRun(s: Stores, kind: Kind, tips: seq<Hash>, b: Hash) {
    exists tip, path :: tip in tips && LeadingRun(s, kind, tip, path) && path[|path|-1] == b
  }

  ghost function LeadingRuns(s: Stores, kind: Kind, tips: seq<Hash>): set<Hash> {
    set b | b in s.status.Keys && InLeadingRun(s, kind, tips, b)
  }

  /** Everything a repair must read: the tips and what follows a block of a leading run. */
  ghost predicate Visited(s: Stores, kind: Kind, tips: seq<Hash>, h: Hash) {
    h in tips || exists b :: InLeadingRun(s, kind, tips, b) && Next(s, b) == Some(h)
  }

  predicate Readable(s: Stores, kind: Kind, h: Hash) {
    h !in s.badStatus &&
    (kind.MissingMultisets? && h in s.status && s.status[h].UtxoValid? ==> h !in s.badMultiset)
  }

  ghost predicate AllReadable(s: Stores, kind: Kind, tips: seq<Hash>) {
    && (forall h :: Visited(s, kind, tips, h) ==> Readable(s, kind, h))
    && (forall b :: InLeadingRun(s, kind, tips, b) ==> b !in s.badGhostdag)
  }

  function Repaired(s: Stores, reset: set<Hash>): map<Hash, Status> {
    map h | h in s.status :: if h in reset then UtxoPendingVerification else s.status[h]
  }

  // ----- The walk

  /** Every eligible block that a block of `reset` leads to is in `reset`, and could be read; `except` is the
      one still being looked at. */
  ghost predicate ClosedBut(s: Stores, kind: Kind, reset: set<Hash>, except: Option<Hash>) {
    forall b :: b in reset ==>
      && Eligible(s, kind, b) && Readable(s, kind, b) && b !in s.badGhostdag
      && (Next(s, b).Some? && Next(s, b) != except ==>
            Readable(s, kind, Next(s, b).value) &&
            (Eligible(s, kind, Next(s, b).value) ==> Next(s, b).value in reset))
  }

  lemma {:induction false} ClosedCoversRun(s: Stores, kind: Kind, reset: set<Hash>, tip: Hash, path: seq<Hash>)
    requires ClosedBut(s, kind, reset, None) && tip in reset && LeadingRun(s, kind, tip, path)
    ensures path[|path|-1] in reset
    decreases |path|
  {
    if |path| > 1 {
      assert path[1] in reset by { assert Next(s, path[0]) == Some(path[1]); }
      var rest := path[1..];
      forall i | 0 <= i < |rest| - 1 ensures Next(s, rest[i]) == Some(rest[i+1]) {
        assert Next(s, path[i+1]) == Some(path[i+2]);
      }
      ClosedCoversRun(s, kind, reset, path[1], rest);
    }
  }

  lemma ExtendRun(s: Stores, kind: Kind, tips: seq<Hash>, b: Hash, h: Hash)
    requires InLeadingRun(s, kind, tips, b) && Next(s, b) == Some(h) && Eligible(s, kind, h)
    ensures InLeadingRun(s, kind, tips, h)
  {
    var tip, path :| tip in tips && LeadingRun(s, kind, tip, path) && path[|path|-1] == b;
    var longer := path + [h];
    forall i | 0 <= i < |longer| - 1 ensures Next(s, longer[i]) == Some(longer[i+1]) {
      if i < |path| - 1 { assert Next(s, path[i]) == Some(path[i+1]); }
    }
    assert LeadingRun(s, kind, tip, longer) && longer[|longer|-1] == h;
  }

  lemma TipStartsRun(s: Stores, kind: Kind, tips: seq<Hash>, tip: Hash)
    requires tip in tips && Eligible(s, kind, tip)
    ensures InLeadingRun(s, kind, tips, tip)
  {
    assert LeadingRun(s, kind, tip, [tip]);
  }

  /** Walks one tip's chain until a block that is not eligible, was reset before, or is where the chain's data
      ends. */
  method WalkTip(s: Stores, kind: Kind, tips: seq<Hash>, tip: Hash, before: set<Hash>)
    returns (reset: set<Hash>, ok: bool)
    requires tip in tips && ClosedBut(s, kind, before, None) && before <= s.status.Keys
    requires forall b :: b in before ==> InLeadingRun(s, kind, tips, b)
    ensures before <= reset <= s.status.Keys
    ensures forall b :: b in reset ==> InLeadingRun(s, kind, tips, b)
    ensures ok ==> ClosedBut(s, kind, reset, None)
    ensures ok ==> Readable(s, kind, tip) && (Eligible(s, kind, tip) ==> tip in reset)
    ensures !ok ==> !AllReadable(s, kind, tips)
  {
    reset, ok := before, true;
    var current := tip;
    while current !in reset
      invariant before <= reset <= s.status.Keys
      invariant forall b :: b in reset ==> InLeadingRun(s, kind, tips, b)
      invariant ClosedBut(s, kind, reset, Some(current))
      invariant current == tip || exists b :: b in reset && Next(s, b) == Some(current)
      invariant current == tip || tip in reset
      decreases s.status.Keys - reset
    {
      assert Visited(s, kind, tips, current);
      if current in s.badStatus {
        ok := false;
        return;
      }
      if current !in s.status {
        return;
      }
      if kind.MissingMultisets? && s.status[current].UtxoValid? && current in s.badMultiset {
        ok := false;
        return;
      }
      var eligible := match kind
                      case DisqualifiedChains => s.status[current] == DisqualifiedFromChain
                      case MissingMultisets => s.status[current] == UtxoValid && current !in s.multisets;
      if !eligible {
        return;
      }
      if current == tip {
        TipStartsRun(s, kind, tips, tip);
      } else {
        ghost var b :| b in reset && Next(s, b) == Some(current);
        ExtendRun(s, kind, tips, b, current);
      }
      reset := reset + {current};
      if current in s.badGhostdag {
        ok := false;
        return;
      }
      if current !in s.ghostdag || s.ghostdag[current].selectedParent.None? {
        return;
      }
      var parent := s.ghostdag[current].selectedParent.value;
      if parent == VIRTUAL_GENESIS {
        return;
      }
      current := parent;
    }
  }

  /** Resets exactly the leading runs of all tips, in one commit, and reports how many blocks that is. When a
      record cannot be read nothing is committed. */
  method Repair(s: Stores, kind: Kind, tips: seq<Hash>)
    returns (ok: bool, count: nat, status: map<Hash, Status>)
    ensures ok <==> AllReadable(s, kind, tips)
    ensures ok ==> count == |LeadingRuns(s, kind, tips)| && status == Repaired(s, LeadingRuns(s, kind, tips))
    ensures ok ==> status.Keys == s.status.Keys
    ensures ok ==> forall h :: h in s.status ==>
                     status[h] == if InLeadingRun(s, kind, tips, h) then UtxoPendingVerification else s.status[h]
    ensures !ok ==> count == 0 && status == s.status
  {
    var reset: set<Hash> := {};
    for i := 0 to |tips|
      invariant reset <= s.status.Keys && ClosedBut(s, kind, reset, None)
      invariant forall b :: b in reset ==> InLeadingRun(s, kind, tips, b)
      invariant forall j :: 0 <= j < i ==>
                  Readable(s, kind, tips[j]) && (Eligible(s, kind, tips[j]) ==> tips[j] in reset)
    {
      reset, ok := WalkTip(s, kind, tips, tips[i], reset);
      if !ok {
        return false, 0, s.status;
      }
    }
    assert reset == LeadingRuns(s, kind, tips) by {
      forall b | b in LeadingRuns(s, kind, tips) ensures b in reset {
        var tip, path :| tip in tips && LeadingRun(s, kind, tip, path) && path[|path|-1] == b;
        assert Eligible(s, kind, path[0]);
        ClosedCoversRun(s, kind, reset, tip, path);
      }
    }
    forall b | InLeadingRun(s, kind, tips, b) ensures b in reset {
      assert Eligible(s, kind, b);
    }
    return true, |reset|, map h | h in s.status :: if h in reset then UtxoPendingVerification else s.status[h];
  }

  // ----- What follows

  /** Whatever order, or repetition, the tips come in, the same blocks are reset. */
  lemma TipOrderIrrelevant(s: Stores, kind: Kind, tips: seq<Hash>, others: seq<Hash>)
    requires forall h :: h in tips <==> h in others
    ensures LeadingRuns(s, kind, tips) == LeadingRuns(s, kind, others)
  {
    forall b ensures InLeadingRun(s, kind, tips, b) <==> InLeadingRun(s, kind, others, b) {
      if InLeadingRun(s, kind, tips, b) {
        var tip, path :| tip in tips && LeadingRun(s, kind, tip, path) && path[|path|-1] == b;
        assert tip in others;
      }
      if InLeadingRun(s, kind, others, b) {
        var tip, path :| tip in others && LeadingRun(s, kind, tip, path) && path[|path|-1] == b;
        assert tip in tips;
      }
    }
  }

  /** A second run right after the first finds nothing to reset. */
  lemma SecondRunFindsNothing(s: Stores, kind: Kind, tips: seq<Hash>)
    ensures var after := s.(status := Repaired(s, LeadingRuns(s, kind, tips)));
            LeadingRuns(after, kind, tips) == {}
  {
    var after := s.(status := Repaired(s, LeadingRuns(s, kind, tips)));
    forall b ensures !InLeadingRun(after, kind, tips, b) {
      if InLeadingRun(after, kind, tips, b) {
        var tip, path :| tip in tips && LeadingRun(after, kind, tip, path) && path[|path|-1] == b;
        assert Eligible(after, kind, path[0]);
        TipStartsRun(s, kind, tips, tip);
        assert false;
      }
    }
  }

  /** `path` leads from `tip` down through UTXO-valid blocks only. */
  ghost predicate ValidRun(s: Stores, tip: Hash, path: seq<Hash>) {
    path != [] && path[0] == tip && Linked(s, path) &&
    forall i :: 0 <= i < |path| ==> path[i] in s.status && s.status[path[i]].UtxoValid?
  }

  /** A stored multiset means stored multisets for every earlier block of the run. */
  ghost predicate MultisetsReachDown(s: Stores, path: seq<Hash>) {
    forall i, j :: 0 <= i < j < |path| && path[i] in s.multisets ==> path[j] in s.multisets
  }

  /** No UTXO-valid block in a tip's leading UTXO-valid run is left without a multiset: it has one, or it was
      sent back to verification. */
  ghost predicate NoneLacking(s: Stores, tips: seq<Hash>, tip: Hash) {
    forall path :: ValidRun(s, tip, path) && path[|path|-1] !in s.multisets ==>
      path[|path|-1] in LeadingRuns(s, MissingMultisets, tips)
  }

  lemma {:induction false} MissingMultisetsCovered(s: Stores, tips: seq<Hash>, tip: Hash)
    requires tip in tips && forall path :: ValidRun(s, tip, path) ==> MultisetsReachDown(s, path)
    ensures NoneLacking(s, tips, tip)
  {
    forall path | ValidRun(s, tip, path) && path[|path|-1] !in s.multisets
      ensures path[|path|-1] in LeadingRuns(s, MissingMultisets, tips)
    {
      assert LeadingRun(s, MissingMultisets, tip, path);
    }
  }

  /** Block `j` of a tip's UTXO-valid run lacks its multiset below block `i`, which has one: that tip's walk stops
      first. */
  ghost predicate Shadowed(s: Stores, path: seq<Hash>, i: nat, j: nat) {
    i < j < |path| && path[i] in s.multisets && path[j] !in s.multisets
  }

  /** Some tip leads down to `b` through UTXO-valid blocks none of which has a multiset. */
  ghost predicate ReachedBare(s: Stores, tips: seq<Hash>, b: Hash) {
    exists tip, path :: tip in tips && ValidRun(s, tip, path) && path[|path|-1] == b && Bare(s, path)
  }

  ghost predicate Bare(s: Stores, path: seq<Hash>) {
    forall i :: 0 <= i < |path| ==> path[i] !in s.multisets
  }

  lemma BareIsLeading(s: Stores, tips: seq<Hash>, b: Hash)
    ensures ReachedBare(s, tips, b) <==> InLeadingRun(s, MissingMultisets, tips, b)
  {
    if ReachedBare(s, tips, b) {
      var tip, path :| tip in tips && ValidRun(s, tip, path) && path[|path|-1] == b && Bare(s, path);
      assert LeadingRun(s, MissingMultisets, tip, path);
    }
    if InLeadingRun(s, MissingMultisets, tips, b) {
      var tip, path :| tip in tips && LeadingRun(s, MissingMultisets, tip, path) && path[|path|-1] == b;
      assert ValidRun(s, tip, path) && Bare(s, path);
    }
  }

  lemma ShadowedReached(s: Stores, tips: seq<Hash>, tip: Hash, path: seq<Hash>, i: nat, j: nat)
    requires NoneLacking(s, tips, tip) && ValidRun(s, tip, path) && Shadowed(s, path, i, j)
    ensures ReachedBare(s, tips, path[j])
  {
    var upTo := path[..j+1];
    assert ValidRun(s, tip, upTo) && upTo[|upTo|-1] == path[j];
    BareIsLeading(s, tips, path[j]);
  }

  /** Every block that lacks its multiset below one that has it, on some tip's run, is reached from some tip with no
      stored multiset on the way. */
  ghost predicate ShadowsReached(s: Stores, tips: seq<Hash>) {
    forall tip, path, i, j :: tip in tips && ValidRun(s, tip, path) && Shadowed(s, path, i, j) ==>
      ReachedBare(s, tips, path[j])
  }

  lemma LackingReset(s: Stores, tips: seq<Hash>, tip: Hash, path: seq<Hash>)
    requires ShadowsReached(s, tips) && tip in tips && ValidRun(s, tip, path) && path[|path|-1] !in s.multisets
    ensures path[|path|-1] in LeadingRuns(s, MissingMultisets, tips)
  {
    if i :| 0 <= i < |path| && path[i] in s.multisets {
      assert Shadowed(s, path, i, |path| - 1);
    } else {
      assert Bare(s, path);
    }
    BareIsLeading(s, tips, path[|path|-1]);
  }

  /** For any tips, the repair leaves no block lacking exactly when no tip's walk stops short of a block that none
      reaches. */
  lemma MissingMultisetsCoveredExactly(s: Stores, tips: seq<Hash>)
    ensures (forall tip :: tip in tips ==> NoneLacking(s, tips, tip)) <==> ShadowsReached(s, tips)
  {
    if forall tip :: tip in tips ==> NoneLacking(s, tips, tip) {
      forall tip, path, i, j | tip in tips && ValidRun(s, tip, path) && Shadowed(s, path, i, j)
        ensures ReachedBare(s, tips, path[j])
      {
        ShadowedReached(s, tips, tip, path, i, j);
      }
    }
    if ShadowsReached(s, tips) {
      forall tip, path | tip in tips && ValidRun(s, tip, path) && path[|path|-1] !in s.multisets
        ensures path[|path|-1] in LeadingRuns(s, MissingMultisets, tips)
      {
        LackingReset(s, tips, tip, path);
      }
    }
  }

  lemma {:induction false} SameChain(s: Stores, a: seq<Hash>, b: seq<Hash>, k: nat)
    requires Linked(s, a) && Linked(s, b) && k < |a| && k < |b| && a[0] == b[0]
    ensures a[k] == b[k]
  {
    if k > 0 {
      SameChain(s, a, b, k - 1);
      assert Next(s, a[k-1]) == Some(a[k]) && Next(s, b[k-1]) == Some(b[k]);
    }
  }

  lemma {:induction false} ScoresFall(s: Stores, path: seq<Hash>, i: nat, j: nat)
    requires BlueScoresRise(s.ghostdag) && Linked(s, path) && i < j < |path| && path[j] in s.ghostdag
    ensures path[i] in s.ghostdag && s.ghostdag[path[j]].blueScore < s.ghostdag[path[i]].blueScore
    decreases j - i
  {
    assert Next(s, path[i]) == Some(path[i+1]);
    if i + 1 < j {
      ScoresFall(s, path, i + 1, j);
    }
  }

  /** With a single tip that is also exactly when the repair leaves no block lacking. */
  lemma MissingMultisetsCoveredIff(s: Stores, tip: Hash)
    requires BlueScoresRise(s.ghostdag)
    ensures NoneLacking(s, [tip], tip) <==> forall path :: ValidRun(s, tip, path) ==> MultisetsReachDown(s, path)
  {
    if NoneLacking(s, [tip], tip) {
      forall path, i, j | ValidRun(s, tip, path) && 0 <= i < j < |path| && path[i] in s.multisets
        ensures path[j] in s.multisets
      {
        if path[j] !in s.multisets {
          var upTo := path[..j+1];
          assert ValidRun(s, tip, upTo) && upTo[|upTo|-1] == path[j];
          var t, lead :| t in [tip] && LeadingRun(s, MissingMultisets, t, lead) && lead[|lead|-1] == path[j];
          SameChain(s, lead, path, if i < |lead| then i else |lead| - 1);
          if |lead| <= i {
            assert Next(s, path[|lead|-1]) == Some(path[|lead|]);
            ScoresFall(s, path, |lead| - 1, j);
          }
          assert false;
        }
      }
    }
    if forall path :: ValidRun(s, tip, path) ==> MultisetsReachDown(s, path) {
      MissingMultisetsCovered(s, [tip], tip);
    }
  }

  /** No block that has a multiset is touched by that repair, and no block of another status. */
  lemma RepairTouchesNothingElse(s: Stores, kind: Kind, tips: seq<Hash>, h: Hash)
    requires h in s.status && Repaired(s, LeadingRuns(s, kind, tips))[h] != s.status[h]
    ensures Eligible(s, kind, h)
  {
    var tip, path :| tip in tips && LeadingRun(s, kind, tip, path) && path[|path|-1] == h;
  }
}
