/** The favorites `Set<string>` that the guide, favorites and tips screens each
    keep, and its persisted shape under the storage key 'favorites'.

    A JavaScript `Set` iterates in insertion order, and `Array.from(set)` (what
    the screens store) lists it in that order. So the set is modelled as a
    sequence without duplicates, in insertion order; the stored array is that
    sequence itself. */
module FavoritesStore {
  import opened Wrappers
  import opened Seqs

  /** `set.add(x)`: appends `x` unless it is already present. */
  function Add(s: seq<string>, x: string): (r: seq<string>)
    ensures forall y :: y in r <==> y in s || y == x
    ensures Distinct(s) ==> Distinct(r)
    ensures x !in s ==> r == s + [x]
    ensures x in s ==> r == s
  {
    if x in s then s else s + [x]
  }

  /** `set.delete(x)`: removes `x`, keeping the order of the rest. */
  function Delete(s: seq<string>, x: string): (r: seq<string>)
    ensures forall y :: y in r <==> y in s && y != x
    ensures Distinct(s) ==> Distinct(r)
    ensures IsSubsequence(r, s)
  {
    FilterDistinctIf(s, Other(x));
    FilterIsSubsequence(s, Other(x));
    forall y ensures y in Filter(s, Other(x)) <==> y in s && y != x {
      FilterMembership(s, Other(x), y);
    }
    Filter(s, Other(x))
  }

  lemma FilterDistinctIf(s: seq<string>, p: string -> bool)
    ensures Distinct(s) ==> Distinct(Filter(s, p))
  {
    if Distinct(s) {
      FilterDistinct(s, p);
    }
  }

  /** The toggle of the screens' `toggleFavorite(id)`: copy the set, then delete
      `x` if it is present and add it otherwise. */
  function Toggle(s: seq<string>, x: string): (r: seq<string>)
    ensures forall y :: y in r <==> (if y == x then x !in s else y in s)
    ensures Distinct(s) ==> Distinct(r)
  {
    if x in s then Delete(s, x) else Add(s, x)
  }

  /** `new Set(array)`: adds the array's elements in order. */
  function FromArray(a: seq<string>): (r: seq<string>)
    ensures Distinct(r)
    ensures forall y :: y in r <==> y in a
  {
    if a == [] then [] else Add(FromArray(a[..|a| - 1]), a[|a| - 1])
  }

  /** The initial favorites: `saved ? new Set(JSON.parse(saved)) : new Set()`, where
      `saved` is the parsed array stored under 'favorites', or `None` when the key
      is absent. */
  function Load(saved: Option<seq<string>>): (r: seq<string>)
    ensures Distinct(r)
    ensures saved.None? ==> r == []
    ensures saved.Some? ==> forall y :: y in r <==> y in saved.value
  {
    match saved
    case None => []
    case Some(a) => FromArray(a)
  }

  /** Toggling twice restores the membership of every id; the order of the set
      is restored too when `x` was absent, and otherwise `x` moves to the end. */
  lemma {:induction false} ToggleTwice(s: seq<string>, x: string)
    requires Distinct(s)
    ensures forall y :: y in Toggle(Toggle(s, x), x) <==> y in s
    ensures x !in s ==> Toggle(Toggle(s, x), x) == s
    ensures x in s ==> Toggle(Toggle(s, x), x) == Delete(s, x) + [x]
  {
    if x !in s {
      assert Toggle(s, x) == s + [x];
      FilterAppend(s, [x], Other(x));
      FilterAllPass(s, Other(x));
      assert Filter([x], Other(x)) == [];
    }
  }

  /** Storing the set as an array and loading it back gives the same set, in the same order. */
  lemma {:induction false} LoadAfterSave(s: seq<string>)
    requires Distinct(s)
    ensures Load(Some(s)) == s
  {
    FromArrayOfDistinct(s);
  }

  lemma {:induction false} FromArrayOfDistinct(s: seq<string>)
    requires Distinct(s)
    ensures FromArray(s) == s
  {
    if s != [] {
      var init := s[..|s| - 1];
      assert Distinct(init);
      FromArrayOfDistinct(init);
      assert s[|s| - 1] !in init by {
        forall k | 0 <= k < |init| ensures init[k] != s[|s| - 1] {
          assert s[k] != s[|s| - 1];
        }
      }
      assert init + [s[|s| - 1]] == s;
    }
  }
}
