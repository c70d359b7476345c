/** What the actions of a run say about the state it reaches: a fact that some actions establish and others end. */
module Trace {

  /** Among the first `n` actions one is an `up`, and no `down` comes after it. */
  ghost predicate Standing(up: nat -> bool, down: nat -> bool, n: nat) {
    exists i: nat :: i < n && up(i) && NoneFrom(down, i + 1, n)
  }

  ghost predicate NoneFrom(p: nat -> bool, from: nat, to: nat) {
    forall j: nat :: from <= j < to ==> !p(j)
  }

  lemma StandingOn(up: nat -> bool, down: nat -> bool, n: nat)
    ensures Standing(up, down, n + 1) <==> up(n) || (Standing(up, down, n) && !down(n))
  {
    if Standing(up, down, n + 1) && !up(n) {
      var i: nat :| i < n + 1 && up(i) && NoneFrom(down, i + 1, n + 1);
      assert NoneFrom(down, i + 1, n);
    }
    if Standing(up, down, n) && !down(n) {
      var i: nat :| i < n && up(i) && NoneFrom(down, i + 1, n);
      assert NoneFrom(down, i + 1, n + 1);
    }
    if up(n) {
      assert NoneFrom(down, n + 1, n + 1);
    }
  }

  lemma NoneFromOn(p: nat -> bool, from: nat, n: nat)
    requires from <= n
    ensures NoneFrom(p, from, n + 1) <==> NoneFrom(p, from, n) && !p(n)
  {
  }
}
