/** The forensic check of virtual's UTXO table: the acceptance data of the selected chain is replayed onto the pruning
    point set, and the result is compared, outpoint by outpoint, with the table. */
module ReplayCheck {
  import opened Utxo
  import opened Dag
  import opened UtxoDerivation

  const WALK_LIMIT: nat := 5000000

  // ----- The walk from the tip down to the pruning point

  /** The selected chain from `block` down to just above the pruning point, newest first, if it has at most `n`
      blocks. */
  ghost function ChainWithin(s: Stores, block: Hash, n: nat): Option<seq<Hash>>
    decreases n, block
  {
    if block == s.pruningPoint then Some([])
    else if n == 0 || block !in s.ghostdag || s.ghostdag[block].selectedParent.None? then None
    else
      match ChainWithin(s, s.ghostdag[block].selectedParent.value, n - 1)
      case None => None
      case Some(rest) => Some([block] + rest)
  }

  /** The chain of `tip` is `walked` and then the chain of `current`. */
  ghost predicate WalkedTo(s: Stores, tip: Hash, limit: nat, walked: seq<Hash>, current: Hash) {
    && |walked| <= limit
    && match ChainWithin(s, current, limit - |walked|)
       case None => ChainWithin(s, tip, limit).None?
       case Some(rest) => ChainWithin(s, tip, limit) == Some(walked + rest)
  }

  lemma WalkedOn(s: Stores, tip: Hash, limit: nat, walked: seq<Hash>, current: Hash)
    requires WalkedTo(s, tip, limit, walked, current) && |walked| < limit
    requires current != s.pruningPoint && current in s.ghostdag && s.ghostdag[current].selectedParent.Some?
    ensures WalkedTo(s, tip, limit, walked + [current], s.ghostdag[current].selectedParent.value)
  {
    var n := limit - |walked|;
    match ChainWithin(s, s.ghostdag[current].selectedParent.value, n - 1)
    case None =>
    case Some(rest) => assert (walked + [current]) + rest == walked + ([current] + rest);
  }

  /** Unlike the walk of the streaming derivation this one needs nothing of the blue scores to end: it counts. */
  method CollectWithin(s: Stores, tip: Hash, limit: nat) returns (chain: Option<seq<Hash>>)
    ensures chain == ChainWithin(s, tip, limit)
  {
    var walked, current := [], tip;
    ghost var all := ChainWithin(s, tip, limit);
    assert all.Some? ==> [] + all.value == all.value;
    while current != s.pruningPoint
      invariant WalkedTo(s, tip, limit, walked, current)
      decreases limit - |walked|
    {
      if current !in s.ghostdag || s.ghostdag[current].selectedParent.None? || |walked| == limit {
        return None;
      }
      WalkedOn(s, tip, limit, walked, current);
      walked := walked + [current];
      current := s.ghostdag[current].selectedParent.value;
    }
    assert walked + [] == walked;
    return Some(walked);
  }

  /** Where virtual genesis has no GHOSTDAG data the two walks differ in the limit only. */
  lemma {:induction false} WalksAgree(s: Stores, block: Hash, n: nat)
    requires BlueScoresRise(s.ghostdag)
    requires VIRTUAL_GENESIS !in s.ghostdag && s.pruningPoint != VIRTUAL_GENESIS
    ensures ChainWithin(s, block, n) ==
            match SelectedChain(s, block)
            case None => None
            case Some(chain) => if |chain| <= n then Some(chain) else None
    decreases n
  {
    if block != s.pruningPoint && block in s.ghostdag && s.ghostdag[block].selectedParent.Some? && n > 0 {
      WalksAgree(s, s.ghostdag[block].selectedParent.value, n - 1);
    }
  }

  // ----- The comparison

  /** What the comparison keeps of a coin: the script itself is replaced by a sum over its bytes. */
  datatype Print = Print(amount: nat, daaScore: nat, isCoinbase: bool, scriptVersion: nat, scriptSum: nat)

  function PrintOf(sum: seq<byte> -> nat, e: Entry): Print {
    Print(e.amount, e.daaScore, e.isCoinbase, e.script.version, sum(e.script.script))
  }

  /** Two coins have one print exactly when they agree in all but the script, and in the script's version and sum. */
  lemma SamePrint(sum: seq<byte> -> nat, a: Entry, b: Entry)
    ensures PrintOf(sum, a) == PrintOf(sum, b) <==>
            && a.amount == b.amount && a.daaScore == b.daaScore && a.isCoinbase == b.isCoinbase
            && a.script.version == b.script.version && sum(a.script.script) == sum(b.script.script)
  {
  }

  datatype Report = Report(tableCount: nat, onlyInTable: nat, onlyInReplay: nat, valueDiff: nat, daaOnlyDiff: nat)

  type Prints = map<Outpoint, Print>

  predicate DiffersOnlyInScore(a: Print, b: Print) {
    a != b && a.(daaScore := b.daaScore) == b
  }

  ghost function Count(s: set<Outpoint>, p: Outpoint -> bool): nat {
    |set o | o in s && p(o)|
  }

  lemma CountOn(s: set<Outpoint>, p: Outpoint -> bool, o: Outpoint)
    requires o !in s
    ensures Count(s + {o}, p) == Count(s, p) + if p(o) then 1 else 0
  {
    var before, after := set x | x in s && p(x), set x | x in s + {o} && p(x);
    assert after == if p(o) then before + {o} else before;
  }

  ghost function Absent(m: Prints): Outpoint -> bool {
    o => o !in m
  }

  ghost function Differs(table: Prints, replay: Prints): Outpoint -> bool {
    o => o in table && o in replay && table[o] != replay[o]
  }

  ghost function DiffersInScore(table: Prints, replay: Prints): Outpoint -> bool {
    o => o in table && o in replay && DiffersOnlyInScore(table[o], replay[o])
  }

  /** The report counts what it says it counts, over the outpoints `seen` of the table. */
  ghost predicate Tallies(seen: set<Outpoint>, absent: Outpoint -> bool, differs: Outpoint -> bool,
                          inScore: Outpoint -> bool, r: Report) {
    && r.tableCount == |seen| && r.onlyInTable == Count(seen, absent)
    && r.valueDiff == Count(seen, differs) && r.daaOnlyDiff == Count(seen, inScore)
  }

  lemma TalliesOn(seen: set<Outpoint>, absent: Outpoint -> bool, differs: Outpoint -> bool, inScore: Outpoint -> bool,
                  r: Report, o: Outpoint, next: Report)
    requires Tallies(seen, absent, differs, inScore, r) && o !in seen
    requires next.tableCount == r.tableCount + 1
    requires next.onlyInTable == r.onlyInTable + if absent(o) then 1 else 0
    requires next.valueDiff == r.valueDiff + if differs(o) then 1 else 0
    requires next.daaOnlyDiff == r.daaOnlyDiff + if inScore(o) then 1 else 0
    ensures Tallies(seen + {o}, absent, differs, inScore, next)
  {
    CountOn(seen, absent, o);
    CountOn(seen, differs, o);
    CountOn(seen, inScore, o);
  }

  ghost predicate Compares(table: Prints, replay: Prints, r: Report) {
    && Tallies(table.Keys, Absent(replay), Differs(table, replay), DiffersInScore(table, replay), r)
    && r.onlyInReplay == Count(replay.Keys, Absent(table))
  }

  /** The report with one more entry of the table; `left` are the replayed coins no entry has named yet. */
  function Counted(r: Report, left: Prints, o: Outpoint, got: Print): Report {
    var r := r.(tableCount := r.tableCount + 1);
    if o !in left then r.(onlyInTable := r.onlyInTable + 1)
    else if got == left[o] then r
    else if DiffersOnlyInScore(got, left[o]) then r.(valueDiff := r.valueDiff + 1, daaOnlyDiff := r.daaOnlyDiff + 1)
    else r.(valueDiff := r.valueDiff + 1)
  }

  /** Where the comparison stands once it has read the entries of `seen`. */
  ghost predicate ReadTo(table: Prints, replay: Prints, seen: set<Outpoint>, left: Prints, r: Report) {
    && left == replay - seen
    && Tallies(seen, Absent(replay), Differs(table, replay), DiffersInScore(table, replay), r)
  }

  lemma ReadOn(table: Prints, replay: Prints, seen: set<Outpoint>, left: Prints, r: Report, o: Outpoint)
    requires ReadTo(table, replay, seen, left, r) && o in table && o !in seen
    ensures ReadTo(table, replay, seen + {o}, left - {o}, Counted(r, left, o, table[o]))
  {
    assert left - {o} == replay - (seen + {o});
    TalliesOn(seen, Absent(replay), Differs(table, replay), DiffersInScore(table, replay), r, o,
              Counted(r, left, o, table[o]));
  }

  lemma LeftOver(table: Prints, replay: Prints)
    ensures |(replay - table.Keys).Keys| == Count(replay.Keys, Absent(table))
  {
    assert (replay - table.Keys).Keys == set o | o in replay.Keys && Absent(table)(o);
  }

  lemma ReadAll(table: Prints, replay: Prints, left: Prints, r: Report)
    requires ReadTo(table, replay, table.Keys, left, r)
    ensures Compares(table, replay, r.(onlyInReplay := |left.Keys|))
  {
    LeftOver(table, replay);
  }

  function PrintsOf(sum: seq<byte> -> nat, coins: Coins): Prints {
    map o | o in coins :: PrintOf(sum, coins[o])
  }

  ghost function Named(pairs: seq<(Outpoint, Entry)>, n: nat): set<Outpoint>
    requires n <= |pairs|
  {
    set i | 0 <= i < n :: pairs[i].0
  }

  lemma NamedOn(pairs: seq<(Outpoint, Entry)>, table: Coins, n: nat)
    requires Lists(pairs, table) && n < |pairs|
    ensures pairs[n].0 in table && table[pairs[n].0] == pairs[n].1 && pairs[n].0 !in Named(pairs, n)
    ensures Named(pairs, n + 1) == Named(pairs, n) + {pairs[n].0}
  {
  }

  lemma NamedAll(pairs: seq<(Outpoint, Entry)>, table: Coins)
    requires Lists(pairs, table)
    ensures Named(pairs, |pairs|) == table.Keys
  {
  }

  /** How the comparison goes on with the next entry of the table. */
  lemma NextRead(sum: seq<byte> -> nat, pairs: seq<(Outpoint, Entry)>, table: Coins, replay: Prints, n: nat,
                 left: Prints, r: Report)
    requires Lists(pairs, table) && n < |pairs|
    requires ReadTo(PrintsOf(sum, table), replay, Named(pairs, n), left, r)
    ensures var (o, e) := pairs[n];
            ReadTo(PrintsOf(sum, table), replay, Named(pairs, n + 1), left - {o},
                   Counted(r, left, o, PrintOf(sum, e)))
  {
    NamedOn(pairs, table, n);
    ReadOn(PrintsOf(sum, table), replay, Named(pairs, n), left, r, pairs[n].0);
  }

  lemma AllRead(sum: seq<byte> -> nat, pairs: seq<(Outpoint, Entry)>, table: Coins, replay: Prints, left: Prints,
                r: Report)
    requires Lists(pairs, table) && ReadTo(PrintsOf(sum, table), replay, Named(pairs, |pairs|), left, r)
    ensures Compares(PrintsOf(sum, table), replay, r.(onlyInReplay := |left.Keys|))
  {
    NamedAll(pairs, table);
    assert PrintsOf(sum, table).Keys == table.Keys;
    ReadAll(PrintsOf(sum, table), replay, left, r);
  }

  method CompareWithTable(sum: seq<byte> -> nat, coins: Coins, pairs: seq<(Outpoint, Entry)>, ghost table: Coins)
    returns (r: Report)
    requires Lists(pairs, table)
    ensures Compares(PrintsOf(sum, table), PrintsOf(sum, coins), r)
  {
    var left := PrintsOf(sum, coins);
    ghost var replay := left;
    r := Report(0, 0, 0, 0, 0);
    for n := 0 to |pairs|
      invariant ReadTo(PrintsOf(sum, table), replay, Named(pairs, n), left, r)
    {
      var (o, e) := pairs[n];
      NextRead(sum, pairs, table, replay, n, left, r);
      r := Counted(r, left, o, PrintOf(sum, e));
      left := left - {o};
    }
    AllRead(sum, pairs, table, replay, left, r);
    r := r.(onlyInReplay := |left.Keys|);
  }

  // ----- The whole check

  /** The stores hold everything the check reads: virtual's selected parent has a chain short enough down to the pruning
      point, every block of it is loadable, and so is virtual. */
  ghost predicate Replayable(s: Stores, virtual: Hash) {
    && virtual in s.ghostdag && s.ghostdag[virtual].selectedParent.Some?
    && ChainWithin(s, s.ghostdag[virtual].selectedParent.value, WALK_LIMIT).Some?
    && Loaded(s, ChainWithin(s, s.ghostdag[virtual].selectedParent.value, WALK_LIMIT).value, 0)
    && virtual in s.storedDaaScore && virtual in s.acceptance
  }

  /** Everything that happened to the pruning point set up to virtual. */
  ghost function EventsToVirtual(s: Stores, virtual: Hash): seq<Event>
    requires Replayable(s, virtual)
  {
    var b := ChainBlock(s.storedDaaScore[virtual], s.acceptance[virtual]);
    ChainEvents(s, ChainWithin(s, s.ghostdag[virtual].selectedParent.value, WALK_LIMIT).value, 0, ByPosition) +
    BlockEvents(b, |b.mergeSet|, ByPosition)
  }

  method Check(s: Stores, virtual: Hash, sum: seq<byte> -> nat, pairs: seq<(Outpoint, Entry)>,
               tablePairs: seq<(Outpoint, Entry)>, ghost base: Coins, ghost table: Coins)
    returns (r: Option<Report>)
    requires Lists(pairs, base) && Lists(tablePairs, table)
    ensures r.Some? <==> Replayable(s, virtual)
    ensures r.Some? ==>
              Compares(PrintsOf(sum, table), PrintsOf(sum, Replay(base, EventsToVirtual(s, virtual))), r.value)
  {
    if virtual !in s.ghostdag || s.ghostdag[virtual].selectedParent.None? {
      return None;
    }
    var chain := CollectWithin(s, s.ghostdag[virtual].selectedParent.value, 5000000);
    if chain.None? {
      return None;
    }
    var coins := ReplayToVirtual(s, virtual, chain.value, pairs, base);
    if coins.None? {
      return None;
    }
    var report := CompareWithTable(sum, coins.value, tablePairs, table);
    return Some(report);
  }

  // ----- What the report says

  lemma NoneCounted(s: set<Outpoint>, p: Outpoint -> bool)
    ensures Count(s, p) == 0 <==> forall o :: o in s ==> !p(o)
  {
    var counted := set o | o in s && p(o);
    if exists o :: o in s && p(o) {
      var o :| o in s && p(o);
      assert o in counted;
    } else {
      assert counted == {};
    }
  }

  lemma CountsEqual(s: set<Outpoint>, p: Outpoint -> bool, q: Outpoint -> bool)
    requires forall o :: o in s && q(o) ==> p(o)
    ensures Count(s, p) == Count(s, q) <==> forall o :: o in s && p(o) ==> q(o)
  {
    var ps, qs := set o | o in s && p(o), set o | o in s && q(o);
    assert |ps| == |qs| + |ps - qs| by { assert ps == qs + (ps - qs); }
    if Count(s, p) == Count(s, q) {
      forall o | o in s && p(o) ensures q(o) { assert o in ps && ps - qs == {}; }
    } else {
      assert ps != qs;
    }
  }

  ghost predicate SameOutpoints(r: Report) {
    r.onlyInTable == 0 && r.onlyInReplay == 0
  }

  lemma SameOutpointsMeans(table: Prints, replay: Prints, r: Report)
    requires Compares(table, replay, r)
    ensures SameOutpoints(r) <==> table.Keys == replay.Keys
  {
    NoneCounted(table.Keys, Absent(replay));
    NoneCounted(replay.Keys, Absent(table));
    assert (forall o :: o in table.Keys ==> !Absent(replay)(o)) <==> table.Keys <= replay.Keys;
    assert (forall o :: o in replay.Keys ==> !Absent(table)(o)) <==> replay.Keys <= table.Keys;
  }

  /** A report without differences is one of two equal sets, as far as the prints tell. */
  lemma CleanReport(table: Prints, replay: Prints, r: Report)
    requires Compares(table, replay, r)
    ensures SameOutpoints(r) && r.valueDiff == 0 <==> table == replay
  {
    SameOutpointsMeans(table, replay, r);
    NoneCounted(table.Keys, Differs(table, replay));
    if SameOutpoints(r) && r.valueDiff == 0 {
      forall o | o in table ensures table[o] == replay[o] { assert !Differs(table, replay)(o); }
    }
  }

  function Unscored(m: Prints): Prints {
    map o | o in m :: m[o].(daaScore := 0)
  }

  /** Every difference is one of DAA score exactly when the sets are equal but for the scores. */
  lemma ScoreOnlyReport(table: Prints, replay: Prints, r: Report)
    requires Compares(table, replay, r)
    ensures SameOutpoints(r) && r.valueDiff == r.daaOnlyDiff <==> Unscored(table) == Unscored(replay)
  {
    SameOutpointsMeans(table, replay, r);
    var p, q := Differs(table, replay), DiffersInScore(table, replay);
    CountsEqual(table.Keys, p, q);
    assert Unscored(table).Keys == table.Keys && Unscored(replay).Keys == replay.Keys;
    if SameOutpoints(r) && r.valueDiff == r.daaOnlyDiff {
      forall o | o in table ensures Unscored(table)[o] == Unscored(replay)[o] { assert p(o) ==> q(o); }
    }
    if Unscored(table) == Unscored(replay) {
      forall o | o in table && p(o) ensures q(o) { assert Unscored(table)[o] == Unscored(replay)[o]; }
    }
  }

  lemma CountsApart(s: set<Outpoint>, p: Outpoint -> bool, q: Outpoint -> bool)
    requires forall o :: o in s ==> !(p(o) && q(o))
    ensures Count(s, p) + Count(s, q) <= |s|
  {
    var ps, qs := set o | o in s && p(o), set o | o in s && q(o);
    assert |s| == |ps + qs| + |s - (ps + qs)| by { assert s == (ps + qs) + (s - (ps + qs)); }
    assert ps !! qs;
  }

  lemma CountsNested(s: set<Outpoint>, p: Outpoint -> bool, q: Outpoint -> bool)
    requires forall o :: o in s && q(o) ==> p(o)
    ensures Count(s, q) <= Count(s, p)
  {
    var ps, qs := set o | o in s && p(o), set o | o in s && q(o);
    assert ps == qs + (ps - qs);
  }

  lemma CommonPart(table: Prints, replay: Prints)
    ensures |table.Keys| - Count(table.Keys, Absent(replay)) == |table.Keys * replay.Keys|
  {
    LeftOver(replay, table);
    assert (table - replay.Keys).Keys == table.Keys - replay.Keys;
    assert table.Keys == (table.Keys - replay.Keys) + (table.Keys * replay.Keys);
  }

  /** The counts account for every coin of both sets. */
  lemma CountsBalance(table: Prints, replay: Prints, r: Report)
    requires Compares(table, replay, r)
    ensures r.tableCount + r.onlyInReplay == |replay.Keys| + r.onlyInTable
    ensures r.daaOnlyDiff <= r.valueDiff <= r.tableCount - r.onlyInTable
  {
    CommonPart(table, replay);
    CommonPart(replay, table);
    assert table.Keys * replay.Keys == replay.Keys * table.Keys;
    CountsNested(table.Keys, Differs(table, replay), DiffersInScore(table, replay));
    CountsApart(table.Keys, Absent(replay), Differs(table, replay));
  }
}
