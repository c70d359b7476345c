/** Inferring the network's pruning depth from mined headers: each header that commits to a known pruning point
    bounds the depth from above, and from below by the next point it did not commit to. */
module DepthBracket {
  import opened Utxo

  const UINT64_MAX: nat := 0xFFFF_FFFF_FFFF_FFFF

  datatype Point = Point(hash: Hash, blueScore: nat)

  datatype Header = Header(blueScore: nat, pruningPoint: Hash)

  /** What the scan finds at one selected-chain index. */
  datatype Read = NoHash | NoHeader | Found(header: Header)

  datatype Bracket = Bracket(lowerExclusive: nat, upperInclusive: nat)

  datatype Counts = Counts(bracketed: nat, unknownPoint: nat, inconsistent: nat, missingHash: nat, missingHeader: nat)

  // ----- Positions in the table

  /** The last table entry with this hash. */
  ghost predicate IsPosition(table: seq<Point>, h: Hash, pos: nat) {
    pos < |table| && table[pos].hash == h && forall j :: pos < j < |table| ==> table[j].hash != h
  }

  method Positions(table: seq<Point>) returns (position: map<Hash, nat>)
    ensures forall h :: h in position <==> exists j :: 0 <= j < |table| && table[j].hash == h
    ensures forall h :: h in position ==> IsPosition(table, h, position[h])
  {
    position := map[];
    for i := 0 to |table|
      invariant forall h :: h in position <==> exists j :: 0 <= j < i && table[j].hash == h
      invariant forall h :: h in position ==> IsPosition(table[..i], h, position[h])
    {
      position := position[table[i].hash := i];
      assert table[..i+1] == table[..i] + [table[i]];
    }
    assert table[..|table|] == table;
  }

  // ----- What a header says about a depth

  /** The header counts as evidence: it commits to the table's point `pos`, which is not above it. */
  ghost predicate Usable(table: seq<Point>, h: Header, pos: nat) {
    IsPosition(table, h.pruningPoint, pos) && h.blueScore >= table[pos].blueScore
  }

  predicate Qualifies(h: Header, p: Point, depth: nat) {
    h.blueScore >= p.blueScore + depth
  }

  /** The committed point is deep enough for `depth`, and the point after it is not. */
  ghost predicate Explains(table: seq<Point>, h: Header, pos: nat, depth: nat)
    requires pos < |table|
  {
    Qualifies(h, table[pos], depth) && (pos + 1 < |table| ==> !Qualifies(h, table[pos+1], depth))
  }

  ghost predicate ExplainsAll(table: seq<Point>, scanned: seq<Read>, n: nat, depth: nat)
    requires n <= |scanned|
  {
    forall i, pos :: 0 <= i < n && scanned[i].Found? && Usable(table, scanned[i].header, pos) ==>
      Explains(table, scanned[i].header, pos, depth)
  }

  ghost predicate In(b: Bracket, depth: nat) {
    b.lowerExclusive < depth <= b.upperInclusive
  }

  /** The bracket holds exactly the depths that explain every usable header among the first `n`. */
  ghost predicate BracketExact(table: seq<Point>, scanned: seq<Read>, n: nat, b: Bracket)
    requires n <= |scanned|
  {
    forall depth :: 1 <= depth <= UINT64_MAX ==> (In(b, depth) <==> ExplainsAll(table, scanned, n, depth))
  }

  function Tighten(table: seq<Point>, h: Header, pos: nat, b: Bracket): Bracket
    requires pos < |table| && h.blueScore >= table[pos].blueScore
  {
    var upper := h.blueScore - table[pos].blueScore;
    var b := if upper < b.upperInclusive then b.(upperInclusive := upper) else b;
    if pos + 1 < |table| && table[pos+1].blueScore < h.blueScore
       && h.blueScore - table[pos+1].blueScore > b.lowerExclusive
    then b.(lowerExclusive := h.blueScore - table[pos+1].blueScore) else b
  }

  /** One header's bounds cut the bracket down to exactly the depths that explain it. */
  lemma TightenExact(table: seq<Point>, h: Header, pos: nat, b: Bracket, depth: nat)
    requires pos < |table| && h.blueScore >= table[pos].blueScore && depth >= 1
    ensures In(Tighten(table, h, pos, b), depth) <==> In(b, depth) && Explains(table, h, pos, depth)
  {
  }

  /** What the scan makes of one index. */
  datatype Class = MissingHash | MissingHeader | Unknown | Inconsistent | Evidence

  ghost function ClassOf(table: seq<Point>, r: Read): Class {
    match r
    case NoHash => MissingHash
    case NoHeader => MissingHeader
    case Found(h) =>
      if !exists j :: 0 <= j < |table| && table[j].hash == h.pruningPoint then Unknown
      else if exists pos :: Usable(table, h, pos) then Evidence
      else Inconsistent
  }

  ghost function Number(table: seq<Point>, scanned: seq<Read>, n: nat, k: Class): nat
    requires n <= |scanned|
  {
    if n == 0 then 0 else
      Number(table, scanned, n - 1, k) + if ClassOf(table, scanned[n-1]) == k then 1 else 0
  }

  ghost predicate Counted(table: seq<Point>, scanned: seq<Read>, n: nat, c: Counts)
    requires n <= |scanned|
  {
    && c.bracketed == Number(table, scanned, n, Evidence) && c.unknownPoint == Number(table, scanned, n, Unknown)
    && c.inconsistent == Number(table, scanned, n, Inconsistent)
    && c.missingHash == Number(table, scanned, n, MissingHash)
    && c.missingHeader == Number(table, scanned, n, MissingHeader)
  }

  /** Scans the headers and returns the bracket: a depth is in it if and only if it explains every usable header. Each
      count is that of the indexes it is named for, and together they account for every index scanned. */
  method DepthFromHeaders(table: seq<Point>, scanned: seq<Read>) returns (b: Bracket, c: Counts)
    ensures BracketExact(table, scanned, |scanned|, b)
    ensures Counted(table, scanned, |scanned|, c)
    ensures c.bracketed + c.unknownPoint + c.inconsistent + c.missingHash + c.missingHeader == |scanned|
    ensures c.bracketed > 0 <==>
            exists i, pos :: 0 <= i < |scanned| && scanned[i].Found? && Usable(table, scanned[i].header, pos)
    ensures b.upperInclusive <= UINT64_MAX
  {
    var position := Positions(table);
    b, c := Bracket(0, UINT64_MAX), Counts(0, 0, 0, 0, 0);
    for i := 0 to |scanned|
      invariant BracketExact(table, scanned, i, b)
      invariant Counted(table, scanned, i, c)
      invariant c.bracketed + c.unknownPoint + c.inconsistent + c.missingHash + c.missingHeader == i
      invariant c.bracketed > 0 <==>
                exists k, pos :: 0 <= k < i && scanned[k].Found? && Usable(table, scanned[k].header, pos)
      invariant b.upperInclusive <= UINT64_MAX
    {
      match scanned[i] {
        case NoHash => c := c.(missingHash := c.missingHash + 1);
        case NoHeader => c := c.(missingHeader := c.missingHeader + 1);
        case Found(h) =>
          if h.pruningPoint !in position {
            c := c.(unknownPoint := c.unknownPoint + 1);
          } else {
            var pos := position[h.pruningPoint];
            assert forall p :: IsPosition(table, h.pruningPoint, p) ==> p == pos;
            if h.blueScore < table[pos].blueScore {
              c := c.(inconsistent := c.inconsistent + 1);
            } else {
              assert Usable(table, h, pos);
              forall depth | 1 <= depth <= UINT64_MAX
                ensures In(Tighten(table, h, pos, b), depth) <==> ExplainsAll(table, scanned, i + 1, depth)
              {
                TightenExact(table, h, pos, b, depth);
              }
              b := Tighten(table, h, pos, b);
              c := c.(bracketed := c.bracketed + 1);
            }
          }
      }
    }
  }

  // ----- What the bracket proves

  ghost predicate Increasing(table: seq<Point>) {
    forall i, j :: 0 <= i < j < |table| ==> table[i].blueScore < table[j].blueScore
  }

  /** The committed point is the newest point of the table that is deep enough: what a single pruning depth
      prescribes. */
  ghost predicate NewestQualifying(table: seq<Point>, h: Header, pos: nat, depth: nat)
    requires pos < |table|
  {
    forall j :: 0 <= j < |table| ==> (Qualifies(h, table[j], depth) <==> j <= pos)
  }

  /** In a table of rising blue scores, the neighbours decide. */
  lemma ExplainsMeansNewest(table: seq<Point>, h: Header, pos: nat, depth: nat)
    requires Increasing(table) && pos < |table|
    ensures Explains(table, h, pos, depth) <==> NewestQualifying(table, h, pos, depth)
  {
    if Explains(table, h, pos, depth) {
      forall j | 0 <= j < |table| ensures Qualifies(h, table[j], depth) <==> j <= pos {
        if j < pos { assert table[j].blueScore < table[pos].blueScore; }
        if j > pos + 1 { assert table[pos+1].blueScore < table[j].blueScore; }
      }
    }
  }

  /** Some single depth prescribes every usable header's commitment. */
  ghost predicate OneDepth(table: seq<Point>, scanned: seq<Read>, depth: nat) {
    forall i, pos :: 0 <= i < |scanned| && scanned[i].Found? && Usable(table, scanned[i].header, pos) ==>
      NewestQualifying(table, scanned[i].header, pos, depth)
  }

  /** The bracket is empty exactly when no single depth can have produced the headers; when it is not, every depth
      in it could have. */
  lemma EmptyBracketIsProof(table: seq<Point>, scanned: seq<Read>, b: Bracket)
    requires Increasing(table) && b.upperInclusive <= UINT64_MAX
    requires BracketExact(table, scanned, |scanned|, b)
    ensures forall depth :: 1 <= depth <= UINT64_MAX ==> (In(b, depth) <==> OneDepth(table, scanned, depth))
    ensures b.lowerExclusive >= b.upperInclusive <==>
            !exists depth :: 1 <= depth <= UINT64_MAX && OneDepth(table, scanned, depth)
  {
    forall depth | 1 <= depth <= UINT64_MAX
      ensures In(b, depth) <==> OneDepth(table, scanned, depth)
    {
      forall i, pos | 0 <= i < |scanned| && scanned[i].Found? && Usable(table, scanned[i].header, pos)
        ensures Explains(table, scanned[i].header, pos, depth) <==>
                NewestQualifying(table, scanned[i].header, pos, depth)
      {
        ExplainsMeansNewest(table, scanned[i].header, pos, depth);
      }
    }
    if b.lowerExclusive < b.upperInclusive {
      assert In(b, b.upperInclusive);
    }
  }
}
