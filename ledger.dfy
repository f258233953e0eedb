/** Stock is never stored: it is a projection of the append-only movement
    ledger, `movements.filter(m => m.flavorId == id).reduce((sum, m) =>
    sum + delta(m), 0)`. The three screens that compute it each use their
    own sign rule `delta`; this module holds the fold they share and the
    facts about it that hold whatever the rule. */
module Ledger {
  import opened Records

  /** `movs.filter(m => m.flavorId == id)`. */
  function OfFlavor(movs: seq<Movement>, id: string): (r: seq<Movement>)
    ensures |r| <= |movs|
    ensures forall k :: 0 <= k < |r| ==> r[k].flavorId == id
  {
    if movs == [] then []
    else
      var last := movs[|movs| - 1];
      OfFlavor(movs[..|movs| - 1], id) + (if last.flavorId == id then [last] else [])
  }

  /** `movs.reduce((sum, m) => sum + delta(m), 0)`, a left fold. */
  function Fold(movs: seq<Movement>, delta: Movement -> int): int
  {
    if movs == [] then 0 else Fold(movs[..|movs| - 1], delta) + delta(movs[|movs| - 1])
  }

  /** The stock of flavour `id` under sign rule `delta`. */
  function Projection(movs: seq<Movement>, id: string, delta: Movement -> int): int
  {
    Fold(OfFlavor(movs, id), delta)
  }

  lemma {:induction false} FoldAppend(a: seq<Movement>, b: seq<Movement>, delta: Movement -> int)
    ensures Fold(a + b, delta) == Fold(a, delta) + Fold(b, delta)
  {
    if b != [] {
      var b' := b[..|b| - 1];
      assert (a + b)[..|a + b| - 1] == a + b';
      FoldAppend(a, b', delta);
    } else {
      assert a + b == a;
    }
  }

  lemma {:induction false} OfFlavorAppend(a: seq<Movement>, b: seq<Movement>, id: string)
    ensures OfFlavor(a + b, id) == OfFlavor(a, id) + OfFlavor(b, id)
  {
    if b != [] {
      var b' := b[..|b| - 1];
      assert (a + b)[..|a + b| - 1] == a + b';
      OfFlavorAppend(a, b', id);
    } else {
      assert a + b == a;
    }
  }

  /** The stock of a ledger built from two parts is the sum of the parts' stocks. */
  lemma ProjectionAppend(a: seq<Movement>, b: seq<Movement>, id: string, delta: Movement -> int)
    ensures Projection(a + b, id, delta) == Projection(a, id, delta) + Projection(b, id, delta)
  {
    OfFlavorAppend(a, b, id);
    FoldAppend(OfFlavor(a, id), OfFlavor(b, id), delta);
  }

  /** Appending one movement changes this flavour's stock by that movement's
      signed quantity if it is this flavour's, and not at all otherwise. */
  lemma ProjectionStep(movs: seq<Movement>, m: Movement, id: string, delta: Movement -> int)
    ensures Projection(movs + [m], id, delta)
         == Projection(movs, id, delta) + (if m.flavorId == id then delta(m) else 0)
  {
    ProjectionAppend(movs, [m], id, delta);
    assert OfFlavor([m], id) == OfFlavor([], id) + (if m.flavorId == id then [m] else []);
    if m.flavorId == id {
      assert Fold([m], delta) == Fold([], delta) + delta(m);
    }
  }

  lemma {:induction false} OfFlavorNone(others: seq<Movement>, id: string)
    requires forall k :: 0 <= k < |others| ==> others[k].flavorId != id
    ensures OfFlavor(others, id) == []
  {
    if others != [] {
      OfFlavorNone(others[..|others| - 1], id);
    }
  }

  /** Movements of other flavours never affect this flavour's stock. */
  lemma ProjectionIgnoresOthers(movs: seq<Movement>, others: seq<Movement>, id: string, delta: Movement -> int)
    requires forall k :: 0 <= k < |others| ==> others[k].flavorId != id
    ensures Projection(movs + others, id, delta) == Projection(movs, id, delta)
  {
    ProjectionAppend(movs, others, id, delta);
    OfFlavorNone(others, id);
  }

  /** The fold that adds `delta` for this flavour's movements and 0 for the others. */
  function Masked(id: string, delta: Movement -> int): Movement -> int
  {
    (m: Movement) => if m.flavorId == id then delta(m) else 0
  }

  lemma {:induction false} ProjectionIsMaskedFold(movs: seq<Movement>, id: string, delta: Movement -> int)
    ensures Projection(movs, id, delta) == Fold(movs, Masked(id, delta))
  {
    if movs != [] {
      var init := movs[..|movs| - 1];
      var last := movs[|movs| - 1];
      ProjectionIsMaskedFold(init, id, delta);
      assert movs == init + [last];
      ProjectionStep(init, last, id, delta);
    }
  }

  /** Taking one movement out of a ledger takes its delta out of the fold. */
  lemma FoldRemove(b: seq<Movement>, k: nat, delta: Movement -> int)
    requires k < |b|
    ensures Fold(b, delta) == Fold(b[..k] + b[k + 1..], delta) + delta(b[k])
  {
    assert b == b[..k] + ([b[k]] + b[k + 1..]);
    FoldAppend(b[..k], [b[k]] + b[k + 1..], delta);
    FoldAppend([b[k]], b[k + 1..], delta);
    FoldAppend(b[..k], b[k + 1..], delta);
    assert Fold([b[k]], delta) == Fold([], delta) + delta(b[k]);
  }

  lemma MultisetRemove(b: seq<Movement>, k: nat)
    requires k < |b|
    ensures multiset(b[..k] + b[k + 1..]) == multiset(b) - multiset{b[k]}
  {
    assert b == b[..k] + [b[k]] + b[k + 1..];
  }

  /** A fold of a sum does not depend on the order of the movements. */
  lemma {:induction false} FoldPermutation(a: seq<Movement>, b: seq<Movement>, delta: Movement -> int)
    requires multiset(a) == multiset(b)
    ensures Fold(a, delta) == Fold(b, delta)
    decreases |a|
  {
    if a == [] {
      assert |b| == |multiset(b)| == 0;
    } else {
      var x := a[|a| - 1];
      var a' := a[..|a| - 1];
      assert x in multiset(a);
      var k :| 0 <= k < |b| && b[k] == x;
      MultisetRemove(b, k);
      MultisetRemove(a, |a| - 1);
      assert a[..|a| - 1] + a[|a|..] == a';
      FoldPermutation(a', b[..k] + b[k + 1..], delta);
      FoldRemove(b, k, delta);
    }
  }

  /** Stock is invariant under any reordering of the ledger (the database
      returns movements newest first; the screens may see them in any order). */
  lemma ProjectionPermutation(a: seq<Movement>, b: seq<Movement>, id: string, delta: Movement -> int)
    requires multiset(a) == multiset(b)
    ensures Projection(a, id, delta) == Projection(b, id, delta)
  {
    ProjectionIsMaskedFold(a, id, delta);
    ProjectionIsMaskedFold(b, id, delta);
    FoldPermutation(a, b, Masked(id, delta));
  }

  /** getMovimientos: the movements newest first, the reverse of the order
      they were appended in. */
  function NewestFirst(movs: seq<Movement>): (r: seq<Movement>)
    ensures |r| == |movs|
    ensures forall i :: 0 <= i < |movs| ==> r[i] == movs[|movs| - 1 - i]
  {
    if movs == [] then [] else [movs[|movs| - 1]] + NewestFirst(movs[..|movs| - 1])
  }

  lemma {:induction false} NewestFirstPermutes(movs: seq<Movement>)
    ensures multiset(NewestFirst(movs)) == multiset(movs)
  {
    if movs != [] {
      var init := movs[..|movs| - 1];
      NewestFirstPermutes(init);
      assert movs == init + [movs[|movs| - 1]];
    }
  }
}
