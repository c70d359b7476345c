/** UTXO diffs: the algebra that composes and compares them, and the mutable diff that accumulates the
    accepted transactions of a block. */
module UtxoDiff {
  import opened Utxo

  datatype Diff = Diff(toAdd: Coins, toRemove: Coins)

  const EMPTY_DIFF: Diff := Diff(map[], map[])

  predicate HasScore(c: Coins, o: Outpoint, daaScore: nat) {
    o in c && c[o].daaScore == daaScore
  }

  /** Two entries at one outpoint whose disagreement is tolerated rather than reported as corruption. */
  predicate Tolerable(a: Entry, b: Entry) {
    (a.isCoinbase && b.isCoinbase) || (a.amount == b.amount && a.script == b.script)
  }

  predicate SameCoin(a: Entry, b: Entry) {
    a.amount == b.amount && a.isCoinbase == b.isCoinbase && a.script == b.script
  }

  // ----- What a diff means

  /** The set after a diff is committed: its removals deleted, its additions put. */
  ghost function Apply(u: Coins, d: Diff): Coins {
    (u - d.toRemove.Keys) + d.toAdd
  }

  /** The diff fits the set it is applied to: it removes coins the set holds, and adds a coin where the set
      holds none or where it removes the one there. */
  ghost predicate Fits(u: Coins, d: Diff) {
    forall o :: FitsAt(u, d, o)
  }

  ghost predicate FitsAt(u: Coins, d: Diff, o: Outpoint) {
    && (o in d.toRemove ==> o in u && u[o] == d.toRemove[o])
    && (o in d.toAdd && o in u ==> o in d.toRemove)
  }

  // ----- Composition

  /** The coins of `a` that `b` does not hold with the same DAA score. */
  function Minus(a: Coins, b: Coins): Coins {
    map o | o in a && !HasScore(b, o, a[o].daaScore) :: a[o]
  }

  function Meet(a: Coins, b: Coins): set<Outpoint> {
    set o | o in a && HasScore(b, o, a[o].daaScore)
  }

  /** First `a`, then `b`, as one diff. */
  function Composed(a: Diff, b: Diff): Diff {
    var removed := a.toRemove + Minus(b.toRemove, a.toAdd);
    var added := a.toAdd - Meet(b.toRemove, a.toAdd);
    Diff(added + Minus(b.toAdd, removed), removed - Meet(b.toAdd, removed))
  }

  predicate RemovedTwice(a: Diff, b: Diff, o: Outpoint) {
    o in b.toRemove && o in a.toRemove && !HasScore(a.toAdd, o, b.toRemove[o].daaScore)
  }

  predicate AddedTwice(a: Diff, b: Diff, o: Outpoint) {
    o in b.toAdd && o in a.toAdd && !HasScore(b.toRemove, o, a.toAdd[o].daaScore)
  }

  /** An outpoint both diffs touch in the same way, with entries that cannot describe one coin. */
  predicate ComposeConflict(a: Diff, b: Diff, o: Outpoint) {
    || (RemovedTwice(a, b, o) && !Tolerable(b.toRemove[o], a.toRemove[o]))
    || (AddedTwice(a, b, o) && !Tolerable(b.toAdd[o], a.toAdd[o]))
  }

  method IsTolerableConflict(a: Entry, b: Entry) returns (ok: bool)
    ensures ok <==> Tolerable(a, b)
  {
    if a.isCoinbase && b.isCoinbase {
      return true;
    }
    ok := a.amount == b.amount && a.script == b.script;
  }

  /** Scanning two collections for outpoints that satisfy `rule` with entries that are not tolerable. */
  method ResolveConflicts(a: Coins, b: Coins, rule: (Outpoint, Entry, Entry) -> bool) returns (ok: bool)
    ensures ok <==> forall o :: o in a && o in b && rule(o, a[o], b[o]) ==> Tolerable(a[o], b[o])
  {
    var candidates := set o | o in a.Keys * b.Keys && rule(o, a[o], b[o]);
    var unseen := candidates;
    while unseen != {}
      invariant unseen <= candidates
      invariant forall o :: o in candidates - unseen ==> Tolerable(a[o], b[o])
      decreases unseen
    {
      var o :| o in unseen;
      ok := IsTolerableConflict(a[o], b[o]);
      if !ok {
        return;
      }
      unseen := unseen - {o};
    }
    return true;
  }

  // ----- When composition keeps the meaning

  /** Composing diffs that fit one after the other never conflicts, and the result means applying the one
      and then the other exactly when no coin the second diff adds shares its DAA score with a different
      coin the base set holds at that outpoint. */
  lemma ComposedMeaning(u: Coins, a: Diff, b: Diff)
    requires Fits(u, a) && Fits(Apply(u, a), b)
    ensures forall o :: !ComposeConflict(a, b, o)
    ensures Fits(u, Composed(a, b)) && Apply(u, Composed(a, b)) == Apply(Apply(u, a), b) <==>
            forall o :: o in b.toAdd && HasScore(u, o, b.toAdd[o].daaScore) ==> b.toAdd[o] == u[o]
  {
    forall o
      ensures !ComposeConflict(a, b, o)
      ensures FitsAt(u, Composed(a, b), o)
      ensures SameAt(Apply(u, Composed(a, b)), Apply(Apply(u, a), b), o) <==>
              (o in b.toAdd && HasScore(u, o, b.toAdd[o].daaScore) ==> b.toAdd[o] == u[o])
    {
      assert FitsAt(u, a, o) && FitsAt(Apply(u, a), b, o);
      ComposedFitsAt(u, a, b, o);
      ComposedSameAt(u, a, b, o);
    }
    SameEverywhere(Apply(u, Composed(a, b)), Apply(Apply(u, a), b));
  }

  lemma ComposedFitsAt(u: Coins, a: Diff, b: Diff, o: Outpoint)
    requires FitsAt(u, a, o) && FitsAt(Apply(u, a), b, o)
    ensures !ComposeConflict(a, b, o) && FitsAt(u, Composed(a, b), o)
  {
  }

  lemma ComposedSameAt(u: Coins, a: Diff, b: Diff, o: Outpoint)
    requires FitsAt(u, a, o) && FitsAt(Apply(u, a), b, o)
    ensures SameAt(Apply(u, Composed(a, b)), Apply(Apply(u, a), b), o) <==>
            (o in b.toAdd && HasScore(u, o, b.toAdd[o].daaScore) ==> b.toAdd[o] == u[o])
  {
  }

  // ----- The difference between two diffs from one base

  function Difference(a: Diff, b: Diff): Diff {
    Diff(Minus(a.toRemove, b.toRemove) + Minus(b.toAdd, a.toAdd),
         Minus(a.toAdd, b.toAdd) + Minus(b.toRemove, a.toRemove))
  }

  predicate RemovedThenAdded(a: Diff, b: Diff, o: Outpoint) {
    o in a.toRemove && o in b.toAdd &&
    !(b.toAdd[o].daaScore != a.toRemove[o].daaScore &&
      (HasScore(a.toAdd, o, b.toAdd[o].daaScore) || HasScore(b.toRemove, o, a.toRemove[o].daaScore)))
  }

  predicate AddedThenRemoved(a: Diff, b: Diff, o: Outpoint) {
    o in a.toAdd && o in b.toRemove &&
    !(b.toRemove[o].daaScore != a.toAdd[o].daaScore &&
      (HasScore(a.toRemove, o, b.toRemove[o].daaScore) || HasScore(b.toAdd, o, a.toAdd[o].daaScore)))
  }

  predicate RemovedWithTwoScores(a: Diff, b: Diff, o: Outpoint) {
    o in a.toRemove && o in b.toRemove && a.toRemove[o].daaScore != b.toRemove[o].daaScore
  }

  /** Both diffs add the coin and only one of them also removes a coin there. */
  predicate AddedByBothRemovedByOne(a: Diff, b: Diff, o: Outpoint) {
    o in a.toAdd && HasScore(b.toAdd, o, a.toAdd[o].daaScore) && (o in a.toRemove) != (o in b.toRemove)
  }

  predicate DifferenceConflict(a: Diff, b: Diff, o: Outpoint) {
    || (RemovedThenAdded(a, b, o) && !Tolerable(a.toRemove[o], b.toAdd[o]))
    || (AddedThenRemoved(a, b, o) && !Tolerable(a.toAdd[o], b.toRemove[o]))
    || (RemovedWithTwoScores(a, b, o) && !Tolerable(a.toRemove[o], b.toRemove[o]))
    || (AddedByBothRemovedByOne(a, b, o) &&
        !Tolerable(a.toAdd[o], if o in a.toRemove then a.toRemove[o] else b.toRemove[o]))
  }

  /** What a DAA score must settle at `o` for the difference to be exact: the coins both diffs add with one
      score are one coin, and a coin one diff adds with the score of the base coin the other removes is
      tolerably the same. */
  ghost predicate ScoreSettles(u: Coins, a: Diff, b: Diff, o: Outpoint) {
    && (o in a.toAdd && HasScore(b.toAdd, o, a.toAdd[o].daaScore) ==> a.toAdd[o] == b.toAdd[o])
    && (o in a.toRemove && o in b.toAdd && HasScore(u, o, b.toAdd[o].daaScore) ==> Tolerable(u[o], b.toAdd[o]))
    && (o in b.toRemove && o in a.toAdd && HasScore(u, o, a.toAdd[o].daaScore) ==> Tolerable(u[o], a.toAdd[o]))
  }

  /** For two diffs that fit one base, the difference is computed without error, fits the set the first
      diff leads to and leads from there to the set the second leads to, exactly when the DAA scores
      settle every outpoint. */
  lemma DifferenceMeaning(u: Coins, a: Diff, b: Diff)
    requires Fits(u, a) && Fits(u, b)
    ensures && (forall o :: !DifferenceConflict(a, b, o))
            && Fits(Apply(u, a), Difference(a, b))
            && Apply(Apply(u, a), Difference(a, b)) == Apply(u, b)
            <==> forall o :: ScoreSettles(u, a, b, o)
  {
    var d := Difference(a, b);
    forall o
      ensures FitsAt(Apply(u, a), d, o)
      ensures ScoreSettles(u, a, b, o) <==>
              !DifferenceConflict(a, b, o) && SameAt(Apply(Apply(u, a), d), Apply(u, b), o)
    {
      DifferenceConflictAt(u, a, b, o);
      DifferenceFitsAt(u, a, b, o);
      DifferenceAt(u, a, b, o);
    }
    SameEverywhere(Apply(Apply(u, a), d), Apply(u, b));
  }

  lemma DifferenceConflictAt(u: Coins, a: Diff, b: Diff, o: Outpoint)
    requires FitsAt(u, a, o) && FitsAt(u, b, o)
    ensures !DifferenceConflict(a, b, o) <==>
            && (o in a.toRemove && o in b.toAdd && HasScore(u, o, b.toAdd[o].daaScore) ==> Tolerable(u[o], b.toAdd[o]))
            && (o in b.toRemove && o in a.toAdd && HasScore(u, o, a.toAdd[o].daaScore) ==> Tolerable(u[o], a.toAdd[o]))
  {
  }

  lemma DifferenceFitsAt(u: Coins, a: Diff, b: Diff, o: Outpoint)
    requires FitsAt(u, a, o) && FitsAt(u, b, o)
    ensures FitsAt(Apply(u, a), Difference(a, b), o)
  {
  }

  lemma DifferenceAt(u: Coins, a: Diff, b: Diff, o: Outpoint)
    requires FitsAt(u, a, o) && FitsAt(u, b, o)
    ensures SameAt(Apply(Apply(u, a), Difference(a, b)), Apply(u, b), o) <==>
            (o in a.toAdd && HasScore(b.toAdd, o, a.toAdd[o].daaScore) ==> a.toAdd[o] == b.toAdd[o])
  {
    var mid, d := Apply(u, a), Difference(a, b);
    assert o in mid ==> mid[o] == if o in a.toAdd then a.toAdd[o] else u[o];
    if o !in u {
      assert o !in a.toRemove && o !in b.toRemove;
    } else if o !in a.toRemove {
      assert o !in a.toAdd;
    } else if o !in b.toRemove {
      assert o !in b.toAdd;
    } else {
      assert o in d.toAdd ==> o in b.toAdd && d.toAdd[o] == b.toAdd[o];
      assert o in d.toRemove ==> o in a.toAdd && d.toRemove[o] == a.toAdd[o];
    }
  }

  /** What a DAA score must settle besides for the round trip: a coin the second diff adds, and the first does not add
      with its score, is the base coin there if it has that coin's score. */
  ghost predicate ScoreKept(u: Coins, a: Diff, b: Diff, o: Outpoint) {
    o in b.toAdd && !HasScore(a.toAdd, o, b.toAdd[o].daaScore) && HasScore(u, o, b.toAdd[o].daaScore) ==>
      b.toAdd[o] == u[o]
  }

  lemma RoundTripAt(u: Coins, a: Diff, b: Diff, o: Outpoint)
    requires FitsAt(u, a, o) && FitsAt(u, b, o)
    ensures var d := Difference(a, b);
            SameAt(Apply(u, Composed(a, d)), Apply(u, b), o) <==>
            && (o in a.toAdd && HasScore(b.toAdd, o, a.toAdd[o].daaScore) ==> a.toAdd[o] == b.toAdd[o])
            && ScoreKept(u, a, b, o)
  {
    var d := Difference(a, b);
    DifferenceFitsAt(u, a, b, o);
    DifferenceAt(u, a, b, o);
    ComposedSameAt(u, a, d, o);
    AddedByDifference(u, a, b, o);
  }

  /** A coin the difference adds with the score of a different base coin is the second diff's, which the first does not
      add. */
  lemma AddedByDifference(u: Coins, a: Diff, b: Diff, o: Outpoint)
    requires FitsAt(u, a, o) && FitsAt(u, b, o)
    ensures var d := Difference(a, b);
            ScoreKept(u, a, b, o) <==>
            (o in d.toAdd && HasScore(u, o, d.toAdd[o].daaScore) ==> d.toAdd[o] == u[o])
    ensures !ScoreKept(u, a, b, o) && o in a.toAdd ==> !HasScore(b.toAdd, o, a.toAdd[o].daaScore)
  {
  }

  /** Going to the second diff's set through the difference and composing works, without an error on the way, exactly
      when the DAA scores settle every outpoint. */
  lemma RoundTrip(u: Coins, a: Diff, b: Diff)
    requires Fits(u, a) && Fits(u, b)
    ensures var d := Difference(a, b);
            && (forall o :: !DifferenceConflict(a, b, o)) && (forall o :: !ComposeConflict(a, d, o))
            && Fits(u, Composed(a, d)) && Apply(u, Composed(a, d)) == Apply(u, b)
            <==> forall o :: ScoreSettles(u, a, b, o) && ScoreKept(u, a, b, o)
  {
    var d := Difference(a, b);
    forall o
      ensures !ComposeConflict(a, d, o) && FitsAt(u, Composed(a, d), o)
      ensures ScoreSettles(u, a, b, o) && ScoreKept(u, a, b, o) <==>
              !DifferenceConflict(a, b, o) && SameAt(Apply(u, Composed(a, d)), Apply(u, b), o)
    {
      assert FitsAt(u, a, o) && FitsAt(u, b, o);
      DifferenceFitsAt(u, a, b, o);
      ComposedFitsAt(u, a, d, o);
      DifferenceConflictAt(u, a, b, o);
      RoundTripAt(u, a, b, o);
    }
    SameEverywhere(Apply(u, Composed(a, d)), Apply(u, b));
  }
}
