/** What a history says that sets a mark and later clears it: the mark stands exactly since it was last set. */
module Histories {

  /** Set at a position, and not cleared after it and before a moment. */
  ghost predicate StandsFrom(sets: nat -> bool, clears: nat -> bool, s: nat, n: nat) {
    s < n && sets(s) && forall k :: s < k < n ==> !clears(k)
  }

  ghost predicate Stands(sets: nat -> bool, clears: nat -> bool, n: nat) {
    exists s: nat :: StandsFrom(sets, clears, s, n)
  }

  /** A mark that each event sets, clears or leaves alone is up at a moment exactly if it stands there. */
  lemma {:induction false} MarkStands(mark: nat -> bool, sets: nat -> bool, clears: nat -> bool, n: nat)
    requires !mark(0)
    requires forall k: nat :: k < n ==> mark(k + 1) == (sets(k) || (mark(k) && !clears(k)))
    ensures mark(n) <==> Stands(sets, clears, n)
  {
    if n > 0 {
      MarkStands(mark, sets, clears, n - 1);
      if mark(n - 1) && !clears(n - 1) {
        var s: nat :| StandsFrom(sets, clears, s, n - 1);
        assert StandsFrom(sets, clears, s, n);
      }
      if sets(n - 1) {
        assert StandsFrom(sets, clears, n - 1, n);
      }
      if s: nat :| StandsFrom(sets, clears, s, n) && s < n - 1 {
        assert StandsFrom(sets, clears, s, n - 1);
      }
    }
  }

  // ---- The parts that successive events add to a history ----

  /** Where each event's part begins, and where the last one ends. */
  ghost predicate Chaptered<E>(marks: seq<nat>, log: seq<E>) {
    && |marks| > 0 && marks[0] == 0 && marks[|marks| - 1] == |log|
    && forall i, j :: 0 <= i <= j < |marks| ==> marks[i] <= marks[j]
  }

  ghost function Chapter<E>(marks: seq<nat>, log: seq<E>, i: nat): seq<E>
    requires Chaptered(marks, log) && i + 1 < |marks|
  {
    log[marks[i]..marks[i + 1]]
  }

  /** A longer history has one more part; the earlier ones stay. */
  lemma AddChapter<E>(marks: seq<nat>, log: seq<E>, longer: seq<E>)
    requires Chaptered(marks, log) && log <= longer
    ensures Chaptered(marks + [|longer|], longer)
    ensures forall i: nat :: i + 1 < |marks| ==> Chapter(marks + [|longer|], longer, i) == Chapter(marks, log, i)
    ensures Chapter(marks + [|longer|], longer, |marks| - 1) == longer[|log|..]
  {
    var more := marks + [|longer|];
    forall i: nat | i + 1 < |marks| ensures Chapter(more, longer, i) == Chapter(marks, log, i) {
      assert more[i] == marks[i] && more[i + 1] == marks[i + 1];
    }
  }
}
