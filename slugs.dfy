/**
 * The unique-slug loop of POST /api/campaigns and POST /api/teams: look up
 * the base slug, then `${base}-1`, `${base}-2`, … and keep the first one no
 * row uses.
 */
module Slugs {
  import opened Common

  /** `${base}-${counter}`. */
  function Candidate(base: string, counter: nat): string
  {
    base + "-" + NatToString(counter)
  }

  /** The k-th slug the loop looks up: the base itself, then base-1, base-2, … */
  function Tried(base: string, k: nat): string
  {
    if k == 0 then base else Candidate(base, k)
  }

  /** Different steps look up different slugs. */
  lemma TriedInjective(base: string, j: nat, k: nat)
    requires Tried(base, j) == Tried(base, k)
    ensures j == k
  {
    if j != 0 && k != 0 {
      assert Tried(base, j)[|base| + 1..] == NatToString(j);
      assert Tried(base, k)[|base| + 1..] == NatToString(k);
      NatToStringInjective(j, k);
    }
  }

  lemma {:induction false} SubsetCard<T>(a: set<T>, b: set<T>)
    requires a <= b
    ensures |a| <= |b|
    decreases a
  {
    if a != {} {
      var x :| x in a;
      SubsetCard(a - {x}, b - {x});
    }
  }

  lemma TriedSnoc(base: string, n: nat)
    requires n > 0
    ensures (set j | 0 <= j < n :: Tried(base, j))
      == (set j | 0 <= j < n - 1 :: Tried(base, j)) + {Tried(base, n - 1)}
  {
  }

  /** The first n slugs looked up are n different strings. */
  lemma {:induction false} TriedCount(base: string, n: nat)
    ensures |set j | 0 <= j < n :: Tried(base, j)| == n
  {
    if n > 0 {
      TriedCount(base, n - 1);
      TriedSnoc(base, n);
      forall j | 0 <= j < n - 1
        ensures Tried(base, j) != Tried(base, n - 1)
      {
        if Tried(base, j) == Tried(base, n - 1) {
          TriedInjective(base, j, n - 1);
        }
      }
    }
  }

  /** The loop cannot find more taken slugs than there are rows. */
  lemma TriedBound(base: string, taken: set<string>, n: nat)
    requires forall j :: 0 <= j < n ==> Tried(base, j) in taken
    ensures n <= |taken|
  {
    TriedCount(base, n);
    SubsetCard(set j | 0 <= j < n :: Tried(base, j), taken);
  }

  /**
   * The step at which the loop stops when the steps before `k` all found a
   * taken slug: the first free one from `k` on.
   */
  function FreeFrom(base: string, taken: set<string>, k: nat): (r: nat)
    requires forall j :: 0 <= j < k ==> Tried(base, j) in taken
    ensures k <= r && Tried(base, r) !in taken
    ensures forall j :: 0 <= j < r ==> Tried(base, j) in taken
    decreases |taken| - k
  {
    if Tried(base, k) !in taken then k
    else
      TriedBound(base, taken, k + 1);
      FreeFrom(base, taken, k + 1)
  }

  /** The slug the loop settles on, given the slugs in use. */
  function FreeSlug(base: string, taken: set<string>): string
  {
    Tried(base, FreeFrom(base, taken, 0))
  }

  method UniqueSlug(base: string, taken: set<string>) returns (slug: string)
    ensures slug == FreeSlug(base, taken)
  {
    slug := base;
    var slugExists := slug in taken;
    var counter := 1;
    while slugExists
      invariant counter >= 1
      invariant slug == Tried(base, counter - 1)
      invariant slugExists == (slug in taken)
      invariant forall j :: 0 <= j < counter - 1 ==> Tried(base, j) in taken
      invariant FreeFrom(base, taken, counter - 1) == FreeFrom(base, taken, 0)
      invariant slugExists ==> counter <= |taken|
      decreases |taken| - counter
    {
      slug := Candidate(base, counter);
      slugExists := slug in taken;
      counter := counter + 1;
      if slugExists {
        TriedBound(base, taken, counter);
      }
    }
  }

  /**
   * The slug is free; it is the base when the base is free, and otherwise the
   * first `${base}-k` that is, every earlier candidate being taken.
   */
  lemma FreeSlugSound(base: string, taken: set<string>)
    ensures FreeSlug(base, taken) !in taken
    ensures base !in taken ==> FreeSlug(base, taken) == base
    ensures base in taken ==>
      exists k: nat :: k >= 1 && FreeSlug(base, taken) == Candidate(base, k)
        && forall j: nat :: 1 <= j < k ==> Candidate(base, j) in taken
  {
    var n := FreeFrom(base, taken, 0);
    if base in taken {
      assert n >= 1;
      forall j: nat | 1 <= j < n
        ensures Candidate(base, j) in taken
      {
        assert Tried(base, j) in taken;
      }
    }
  }
}
