/**
 Cutting a line of `n` items into consecutive batches. Batch `i` is `[cuts[i], cuts[i+1])`, and
 `ok(i, lo, hi)` says that the i-th batch may be `[lo, hi)`.
 */
module Packing {

  type Rule = (nat, nat, nat) -> bool

  /** Never going back, and never past `n`. */
  ghost predicate Ordered(cuts: seq<nat>, n: nat) {
    && (forall i, j | 0 <= i && j == i + 1 && j < |cuts| :: cuts[i] <= cuts[j])
    && (forall i | 0 <= i < |cuts| :: cuts[i] <= n)
  }

  /** The cuts of `n` items: from 0 to `n`. */
  ghost predicate Cuts(cuts: seq<nat>, n: nat) {
    |cuts| >= 1 && cuts[0] == 0 && cuts[|cuts| - 1] == n && Ordered(cuts, n)
  }

  /** Every batch is allowed. */
  ghost predicate Allowed(ok: Rule, cuts: seq<nat>) {
    forall i, j | 0 <= i && j == i + 1 && j < |cuts| :: ok(i, cuts[i], cuts[j])
  }

  /** No batch but the last could have taken one more item, and none after the first is empty. */
  ghost predicate Greedy(ok: Rule, cuts: seq<nat>) {
    && (forall i, j | 0 <= i && j == i + 1 && j < |cuts| - 1 :: !ok(i, cuts[i], cuts[j] + 1))
    && (forall i, j | 1 <= i && j == i + 1 && j < |cuts| :: cuts[i] < cuts[j])
  }

  /** What is allowed stays allowed when items are taken away at either end. */
  ghost predicate Hereditary(ok: Rule) {
    forall i, lo, hi, lo', hi' | lo <= lo' <= hi' <= hi && ok(i, lo, hi) :: ok(i, lo', hi')
  }

  /** The greedy cuts are never behind any other allowed cuts. */
  lemma {:induction false} GreedyStaysAhead(ok: Rule, greedy: seq<nat>, other: seq<nat>, n: nat, k: nat)
    requires Hereditary(ok) && Cuts(greedy, n) && Greedy(ok, greedy) && Cuts(other, n) && Allowed(ok, other)
    requires k < |greedy| && k < |other|
    ensures other[k] <= greedy[k]
  {
    if k > 0 {
      var i := k - 1;
      GreedyStaysAhead(ok, greedy, other, n, i);
      assert greedy[i] <= greedy[k] && ok(i, other[i], other[k]);
      assert k < |greedy| - 1 ==> !ok(i, greedy[i], greedy[k] + 1);
    }
  }

  /** Greedy cutting uses the fewest batches. */
  lemma GreedyIsOptimal(ok: Rule, greedy: seq<nat>, other: seq<nat>, n: nat)
    requires Hereditary(ok) && Cuts(greedy, n) && Greedy(ok, greedy) && Cuts(other, n) && Allowed(ok, other)
    requires |other| >= 2
    ensures |greedy| <= |other|
  {
    var k := |other| - 1;
    if k < |greedy| - 1 {
      assert greedy[k] < greedy[k + 1] <= n;
      GreedyStaysAhead(ok, greedy, other, n, k);
    }
  }

  /** Greedy cuts under way: as far as they go, no batch short of the end could have taken one more item. */
  ghost predicate Partial(ok: Rule, cuts: seq<nat>, n: nat) {
    && |cuts| >= 1 && cuts[0] == 0 && Ordered(cuts, n) && Allowed(ok, cuts)
    && (forall i, j | 0 <= i && j == i + 1 && j < |cuts| :: cuts[j] == n || !ok(i, cuts[i], cuts[j] + 1))
    && (forall i, j | 1 <= i && j == i + 1 && j < |cuts| :: cuts[i] < cuts[j])
  }

  /** One more batch, as large as allowed. */
  lemma PartialExtends(ok: Rule, cuts: seq<nat>, n: nat, next: nat)
    requires Partial(ok, cuts, n)
    requires var i := |cuts| - 1;
             && cuts[i] <= next <= n && (i >= 1 ==> cuts[i] < next)
             && ok(i, cuts[i], next) && (next < n ==> !ok(i, cuts[i], next + 1))
    ensures Partial(ok, cuts + [next], n)
  {
    var more := cuts + [next];
    var last := |cuts| - 1;
    assert more[last] == cuts[last] && more[last + 1] == next;
    forall i, j | 0 <= i && j == i + 1 && j < |more|
      ensures more[i] <= more[j] && ok(i, more[i], more[j]) && (more[j] == n || !ok(i, more[i], more[j] + 1))
      ensures i >= 1 ==> more[i] < more[j]
    {
      if i < last {
        assert more[i] == cuts[i] && more[j] == cuts[j];
      }
    }
  }

  /** Cuts that reached the end are complete and greedy. */
  lemma PartialComplete(ok: Rule, cuts: seq<nat>, n: nat)
    requires Partial(ok, cuts, n) && cuts[|cuts| - 1] == n
    ensures Cuts(cuts, n) && Greedy(ok, cuts)
  {
    forall i, j | 0 <= i && j == i + 1 && j < |cuts| - 1 ensures !ok(i, cuts[i], cuts[j] + 1) {
      var m := j + 1;
      assert cuts[j] < cuts[m] <= n;
    }
  }
}
