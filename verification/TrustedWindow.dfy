/** Finding a block's GHOSTDAG data in the trusted DAA window that a pruned node serves, starting from an index
    hint that may name another block. */
module TrustedWindow {
  import opened Utxo
  import opened Dag

  datatype Pair = Pair(hash: Hash, data: GhostdagData)

  type Window = map<nat, Pair>

  /** The stores; `badWindow` and `badGhostdag` name records that cannot be read for another reason than being
      absent. */
  datatype Stores = Stores(
    windows: map<Hash, Window>,
    ghostdag: GhostdagStore,
    genesis: Hash,
    badWindow: set<(Hash, nat)>,
    badGhostdag: set<Hash>)

  datatype Result = Found(data: GhostdagData) | NotFound | Failed

  datatype Read = Entry(pair: Pair) | Absent | Broken

  /** DAAWindowBlock. */
  function ReadWindow(s: Stores, block: Hash, i: nat): Read {
    if (block, i) in s.badWindow then Broken
    else if block in s.windows && i in s.windows[block] then Read.Entry(s.windows[block][i])
    else Absent
  }

  // ----- The anchor

  predicate HasWindow(s: Stores, h: Hash) {
    h in s.windows && 0 in s.windows[h]
  }

  /** Where the search for the anchor goes on from `h`. */
  function Below(s: Stores, h: Hash): Option<Hash> {
    if h in s.ghostdag && s.ghostdag[h].selectedParent != Some(s.genesis)
       && s.ghostdag[h].selectedParent != Some(VIRTUAL_GENESIS)
    then s.ghostdag[h].selectedParent else None
  }

  /** The nearest block at or below `h` on its selected chain that has a trusted window. */
  ghost function Anchor(s: Stores, h: Hash): (r: Option<Hash>)
    requires BlueScoresRise(s.ghostdag)
    decreases Remaining(s.ghostdag, h)
  {
    if HasWindow(s, h) then Some(h)
    else if Below(s, h).None? then None
    else Anchor(s, Below(s, h).value)
  }

  /** `path` leads from `h` down the selected chain to its first block with a trusted window. */
  ghost predicate LeadsToWindow(s: Stores, h: Hash, path: seq<Hash>) {
    && path != [] && path[0] == h && HasWindow(s, path[|path|-1])
    && (forall i :: 0 <= i < |path| - 1 ==> !HasWindow(s, path[i]) && Below(s, path[i]) == Some(path[i+1]))
  }

  lemma {:induction false} AnchorIsNearest(s: Stores, h: Hash, a: Hash)
    requires BlueScoresRise(s.ghostdag)
    ensures Anchor(s, h) == Some(a) <==> exists path :: LeadsToWindow(s, h, path) && path[|path|-1] == a
    decreases Remaining(s.ghostdag, h)
  {
    if HasWindow(s, h) {
      assert LeadsToWindow(s, h, [h]);
      forall path | LeadsToWindow(s, h, path) ensures path == [h] {
        if |path| > 1 { assert false; }
      }
    } else if Below(s, h).None? {
      forall path ensures !LeadsToWindow(s, h, path) {
        if path != [] && |path| > 1 && path[0] == h && Below(s, path[0]) == Some(path[1]) { assert false; }
      }
    } else {
      var next := Below(s, h).value;
      AnchorIsNearest(s, next, a);
      if Anchor(s, next) == Some(a) {
        var path :| LeadsToWindow(s, next, path) && path[|path|-1] == a;
        LongerPath(s, h, path);
        assert ([h] + path)[|path|] == a;
      }
      if exists path :: LeadsToWindow(s, h, path) && path[|path|-1] == a {
        var path :| LeadsToWindow(s, h, path) && path[|path|-1] == a;
        ShorterPath(s, h, path);
      }
    }
  }

  lemma LongerPath(s: Stores, h: Hash, path: seq<Hash>)
    requires !HasWindow(s, h) && Below(s, h).Some? && LeadsToWindow(s, Below(s, h).value, path)
    ensures LeadsToWindow(s, h, [h] + path)
  {
  }

  lemma ShorterPath(s: Stores, h: Hash, path: seq<Hash>)
    requires !HasWindow(s, h) && Below(s, h).Some? && LeadsToWindow(s, h, path)
    ensures LeadsToWindow(s, Below(s, h).value, path[1..])
  {
  }

  /** Some read on the way down from `h` fails. */
  ghost predicate WalkBroken(s: Stores, h: Hash)
    requires BlueScoresRise(s.ghostdag)
    decreases Remaining(s.ghostdag, h)
  {
    || (h, 0) in s.badWindow
    || (!HasWindow(s, h) && (h in s.badGhostdag || (Below(s, h).Some? && WalkBroken(s, Below(s, h).value))))
  }

  method TrustedWindowAnchor(s: Stores, block: Hash) returns (anchor: Option<Hash>, ok: bool)
    requires BlueScoresRise(s.ghostdag)
    ensures ok <==> !WalkBroken(s, block)
    ensures ok ==> anchor == Anchor(s, block)
  {
    var current := block;
    while true
      invariant Anchor(s, current) == Anchor(s, block) && (WalkBroken(s, current) <==> WalkBroken(s, block))
      decreases Remaining(s.ghostdag, current)
    {
      var first := ReadWindow(s, current, 0);
      if first.Entry? {
        return Some(current), true;
      }
      if first.Broken? || current in s.badGhostdag {
        return None, false;
      }
      if current !in s.ghostdag {
        return None, true;
      }
      var parent := s.ghostdag[current].selectedParent;
      if parent.None? || parent.value == s.genesis || parent.value == VIRTUAL_GENESIS {
        return None, true;
      }
      current := parent.value;
    }
  }

  // ----- The search

  /** The window holds `h` at `i`, with no gap before. */
  ghost predicate HoldsAt(w: Window, h: Hash, i: nat) {
    i in w && w[i].hash == h && forall j: nat :: j < i ==> j in w
  }

  ghost predicate SearchBroken(s: Stores, a: Hash, h: Hash)
    requires a in s.windows
  {
    exists i: nat ::
      (a, i) in s.badWindow && (forall j: nat :: j < i ==> j in s.windows[a] && s.windows[a][j].hash != h)
  }

  /** Scans `a`'s window from index 0 until `h`, a gap or a failing read. */
  method SearchWindow(s: Stores, a: Hash, h: Hash) returns (r: Result)
    requires a in s.windows
    ensures r.Failed? <==> SearchBroken(s, a, h)
    ensures !SearchBroken(s, a, h) ==>
              (r.NotFound? <==> !exists i :: HoldsAt(s.windows[a], h, i))
    ensures r.Found? ==> exists i :: HoldsAt(s.windows[a], h, i) && r.data == s.windows[a][i].data
  {
    var w := s.windows[a];
    var i: nat := 0;
    while true
      invariant forall j: nat :: j < i ==> j in w && w[j].hash != h && (a, j) !in s.badWindow
      decreases set j | j in w.Keys && j >= i
    {
      var entry := ReadWindow(s, a, i);
      if entry.Broken? {
        return Failed;
      }
      if entry.Absent? {
        return NotFound;
      }
      if entry.pair.hash == h {
        assert HoldsAt(w, h, i);
        return Found(entry.pair.data);
      }
      ghost var rest := set j | j in w.Keys && j >= i;
      assert i in rest;
      i := i + 1;
      assert (set j | j in w.Keys && j >= i) == rest - {i - 1};
    }
  }

  /** The hint is tried first, and only trusted if it names the requested block; then the anchor's window is
      searched by hash. */
  method TrustedWindowGhostdagData(s: Stores, trusted: Hash, h: Hash, hint: nat) returns (r: Result)
    requires BlueScoresRise(s.ghostdag)
    ensures r.Found? ==> exists a, i :: a in s.windows && i in s.windows[a] && s.windows[a][i] == Pair(h, r.data)
    ensures Sound(s) ==> r == Answer(s, trusted, h)
  {
    var hinted := ReadWindow(s, trusted, hint);
    if hinted.Broken? {
      return Failed;
    }
    if hinted.Entry? && hinted.pair.hash == h {
      if Sound(s) {
        assert HoldsAt(s.windows[trusted], h, hint);
        AnswerIs(s, trusted, h, trusted, hint);
      }
      return Found(hinted.pair.data);
    }
    var anchor, ok := TrustedWindowAnchor(s, trusted);
    if !ok {
      if Sound(s) {
        NeverBroken(s, trusted);
      }
      return Failed;
    }
    if anchor.Some? {
      AnchorHasWindow(s, trusted);
      r := SearchWindow(s, anchor.value, h);
      if r.Found? {
        ghost var i :| HoldsAt(s.windows[anchor.value], h, i) && r.data == s.windows[anchor.value][i].data;
        if Sound(s) {
          AnswerIs(s, trusted, h, anchor.value, i);
        }
      }
      return;
    }
    return NotFound;
  }

  lemma {:induction false} AnchorHasWindow(s: Stores, h: Hash)
    requires BlueScoresRise(s.ghostdag)
    ensures Anchor(s, h).Some? ==> HasWindow(s, Anchor(s, h).value)
    decreases Remaining(s.ghostdag, h)
  {
    if !HasWindow(s, h) && Below(s, h).Some? {
      AnchorHasWindow(s, Below(s, h).value);
    }
  }

  lemma {:induction false} NeverBroken(s: Stores, h: Hash)
    requires BlueScoresRise(s.ghostdag) && s.badWindow == {} && s.badGhostdag == {}
    ensures !WalkBroken(s, h)
    decreases Remaining(s.ghostdag, h)
  {
    if !HasWindow(s, h) && Below(s, h).Some? {
      NeverBroken(s, Below(s, h).value);
    }
  }

  // ----- The hint does not matter

  /** Every record can be read, every window is contiguous from 0 and lists a block once. */
  ghost predicate Sound(s: Stores) {
    && s.badWindow == {} && s.badGhostdag == {}
    && (forall a, i, j: nat :: a in s.windows && i in s.windows[a] && j < i ==> j in s.windows[a])
    && (forall a, i, j :: a in s.windows && i in s.windows[a] && j in s.windows[a] ==>
          s.windows[a][i].hash == s.windows[a][j].hash ==> i == j)
  }

  /** The data of `h` in the window of the nearest block at or below `trusted` that has one. */
  ghost function Answer(s: Stores, trusted: Hash, h: Hash): Result
    requires BlueScoresRise(s.ghostdag)
  {
    var a := Anchor(s, trusted);
    if a.Some? && a.value in s.windows && exists i :: HoldsAt(s.windows[a.value], h, i) then
      var i :| HoldsAt(s.windows[a.value], h, i);
      Found(s.windows[a.value][i].data)
    else NotFound
  }

  lemma AnswerIs(s: Stores, trusted: Hash, h: Hash, a: Hash, i: nat)
    requires BlueScoresRise(s.ghostdag) && Sound(s) && a in s.windows && HoldsAt(s.windows[a], h, i)
    requires a == trusted || Anchor(s, trusted) == Some(a)
    ensures Answer(s, trusted, h) == Found(s.windows[a][i].data)
  {
  }

  /** On sound stores the answer is the requested block's data in the anchor's window, and not found exactly when
      that window lacks the block. */
  lemma AnswerMeaning(s: Stores, trusted: Hash, h: Hash)
    requires BlueScoresRise(s.ghostdag) && Sound(s)
    ensures match Anchor(s, trusted)
            case None => Answer(s, trusted, h).NotFound?
            case Some(a) =>
              && a in s.windows
              && (Answer(s, trusted, h).NotFound? <==> forall i :: i in s.windows[a] ==> s.windows[a][i].hash != h)
              && forall i :: i in s.windows[a] && s.windows[a][i].hash == h ==>
                   Answer(s, trusted, h) == Found(s.windows[a][i].data)
  {
    AnchorHasWindow(s, trusted);
    if Anchor(s, trusted).Some? {
      var a := Anchor(s, trusted).value;
      forall i | i in s.windows[a] && s.windows[a][i].hash == h
        ensures Answer(s, trusted, h) == Found(s.windows[a][i].data)
      {
        assert HoldsAt(s.windows[a], h, i);
        AnswerIs(s, trusted, h, a, i);
      }
    }
  }
}
