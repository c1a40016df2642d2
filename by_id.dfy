/**
 * The list updates the stores build with `filter` and `map`: keep the
 * entries a predicate accepts, replace the entries with a given id, remove
 * the entries with a given id. Each preserves the order of what it keeps.
 */
module Lists {

  /** `xs.filter(keep)`. */
  function Filter<T>(xs: seq<T>, keep: T -> bool): (r: seq<T>)
    ensures |r| <= |xs|
    ensures forall x :: x in r ==> keep(x)
  {
    if xs == [] then [] else (if keep(xs[0]) then [xs[0]] else []) + Filter(xs[1..], keep)
  }

  /** An entry survives the filter exactly when it was in the list and the predicate accepts it. */
  lemma {:induction false} FilterMembers<T>(xs: seq<T>, keep: T -> bool, x: T)
    ensures x in Filter(xs, keep) <==> x in xs && keep(x)
  {
    if xs != [] {
      FilterMembers(xs[1..], keep, x);
      assert xs == [xs[0]] + xs[1..];
    }
  }

  /** Filtering a concatenation filters each part in place, so the order of what is kept is the list's order. */
  lemma {:induction false} FilterAppend<T>(a: seq<T>, b: seq<T>, keep: T -> bool)
    ensures Filter(a + b, keep) == Filter(a, keep) + Filter(b, keep)
  {
    if a == [] {
      assert a + b == b;
    } else {
      var head := if keep(a[0]) then [a[0]] else [];
      FilterAppend(a[1..], b, keep);
      assert (a + b)[0] == a[0] && (a + b)[1..] == a[1..] + b;
      Associate(head, Filter(a[1..], keep), Filter(b, keep));
    }
  }

  /** Concatenation regroups freely. */
  lemma Associate<T>(x: seq<T>, y: seq<T>, z: seq<T>)
    ensures x + (y + z) == (x + y) + z
  {
  }

  /** A list whose entries all pass the filter comes out unchanged; one whose entries all fail comes out empty. */
  lemma {:induction false} FilterUniform<T>(xs: seq<T>, keep: T -> bool)
    ensures (forall x :: x in xs ==> keep(x)) ==> Filter(xs, keep) == xs
    ensures (forall x :: x in xs ==> !keep(x)) ==> Filter(xs, keep) == []
  {
    if xs != [] {
      assert xs[0] in xs;
      assert forall x :: x in xs[1..] ==> x in xs;
      FilterUniform(xs[1..], keep);
      assert xs == [xs[0]] + xs[1..];
    }
  }

  /** Filtering twice by the same predicate is filtering once. */
  lemma {:induction false} FilterIdempotent<T>(xs: seq<T>, keep: T -> bool)
    ensures Filter(Filter(xs, keep), keep) == Filter(xs, keep)
  {
    FilterUniform(Filter(xs, keep), keep);
  }

  /** `xs.map(x => id(x) === key ? replacement : x)`. */
  function ReplaceById<T>(xs: seq<T>, idOf: T -> int, key: int, replacement: T): (r: seq<T>)
    ensures |r| == |xs|
  {
    if xs == [] then [] else [if idOf(xs[0]) == key then replacement else xs[0]] + ReplaceById(xs[1..], idOf, key, replacement)
  }

  /** Every entry with the id becomes the replacement; every other entry stays where it was. */
  lemma {:induction false} ReplaceByIdPointwise<T>(xs: seq<T>, idOf: T -> int, key: int, replacement: T)
    ensures forall i :: 0 <= i < |xs| ==>
      ReplaceById(xs, idOf, key, replacement)[i] == (if idOf(xs[i]) == key then replacement else xs[i])
  {
    if xs != [] {
      ReplaceByIdPointwise(xs[1..], idOf, key, replacement);
    }
  }

  /** Replacing an id that no entry has changes nothing. */
  lemma ReplaceAbsentId<T>(xs: seq<T>, idOf: T -> int, key: int, replacement: T)
    requires forall x :: x in xs ==> idOf(x) != key
    ensures ReplaceById(xs, idOf, key, replacement) == xs
  {
    ReplaceByIdPointwise(xs, idOf, key, replacement);
  }

  /** `xs.filter(x => id(x) !== key)`. */
  function RemoveById<T>(xs: seq<T>, idOf: T -> int, key: int): (r: seq<T>)
    ensures |r| <= |xs|
    ensures forall x :: x in r ==> idOf(x) != key
  {
    Filter(xs, x => idOf(x) != key)
  }

  /**
   * Removal takes out exactly the entries with the id: none is left, every
   * other entry is kept, and removing twice is removing once.
   */
  lemma RemoveByIdExact<T>(xs: seq<T>, idOf: T -> int, key: int)
    ensures forall x :: x in RemoveById(xs, idOf, key) ==> idOf(x) != key
    ensures forall x :: x in xs && idOf(x) != key ==> x in RemoveById(xs, idOf, key)
    ensures RemoveById(RemoveById(xs, idOf, key), idOf, key) == RemoveById(xs, idOf, key)
  {
    forall x | x in xs && idOf(x) != key
      ensures x in RemoveById(xs, idOf, key)
    {
      FilterMembers(xs, x => idOf(x) != key, x);
    }
    FilterIdempotent(xs, x => idOf(x) != key);
  }

  /** An update that keeps the id is forgotten by a later removal of that id. */
  lemma {:induction false} RemoveAfterReplace<T>(xs: seq<T>, idOf: T -> int, key: int, replacement: T)
    requires idOf(replacement) == key
    ensures RemoveById(ReplaceById(xs, idOf, key, replacement), idOf, key) == RemoveById(xs, idOf, key)
  {
    if xs != [] {
      RemoveAfterReplace(xs[1..], idOf, key, replacement);
    }
  }

  /** Removing the id of an entry just appended, when no earlier entry shares it, gives back the list before the append. */
  lemma RemoveAppended<T>(xs: seq<T>, idOf: T -> int, added: T)
    requires forall x :: x in xs ==> idOf(x) != idOf(added)
    ensures RemoveById(xs + [added], idOf, idOf(added)) == xs
  {
    var keep := x => idOf(x) != idOf(added);
    FilterAppend(xs, [added], keep);
    FilterUniform(xs, keep);
    FilterUniform([added], keep);
  }
}
