/** Value types and sequence helpers shared by every module of the model. */
module Common {

  datatype Option<+T> = None | Some(value: T)

  /** Row identifiers. A table's storage order is ascending identifier order. */
  type Id = nat

  /** JavaScript truthiness of an optional string: absent and "" are both false. */
  predicate Present(s: Option<string>)
  {
    s.Some? && s.value != ""
  }

  predicate IsDigit(c: char)
  {
    '0' <= c <= '9'
  }

  predicate AllDigits(s: string)
  {
    forall i :: 0 <= i < |s| ==> IsDigit(s[i])
  }

  /** ASCII lower-casing of one character. */
  function LowerChar(c: char): char
  {
    if 'A' <= c <= 'Z' then (c as int + 32) as char else c
  }

  function LowerAll(s: string): (r: string)
    ensures |r| == |s|
    ensures forall i :: 0 <= i < |s| ==> r[i] == LowerChar(s[i])
  {
    seq(|s|, i requires 0 <= i < |s| => LowerChar(s[i]))
  }

  /** A character outside the Basic Multilingual Plane, which UTF-16 stores as a surrogate pair. */
  predicate Astral(c: char)
  {
    c as int >= 0x1_0000
  }

  /** JavaScript's `.length` of a string: its UTF-16 code units. */
  function Utf16Length(s: string): (n: nat)
    ensures |s| <= n <= 2 * |s|
  {
    if s == [] then 0 else Utf16Length(s[..|s| - 1]) + (if Astral(s[|s| - 1]) then 2 else 1)
  }

  /** Without astral characters, code units and characters coincide. */
  lemma {:induction false} Utf16LengthBasic(s: string)
    requires forall i :: 0 <= i < |s| ==> !Astral(s[i])
    ensures Utf16Length(s) == |s|
  {
    if s != [] {
      var init := s[..|s| - 1];
      assert forall i :: 0 <= i < |init| ==> init[i] == s[i];
      Utf16LengthBasic(init);
    }
  }

  /** The code units of a concatenation add up. */
  lemma {:induction false} Utf16LengthAppend(s: string, t: string)
    ensures Utf16Length(s + t) == Utf16Length(s) + Utf16Length(t)
    decreases |t|
  {
    if t != [] {
      var u := s + t;
      assert u[..|u| - 1] == s + t[..|t| - 1];
      Utf16LengthAppend(s, t[..|t| - 1]);
    } else {
      assert s + t == s;
    }
  }

  predicate OccursAt(needle: string, hay: string, i: nat)
  {
    i + |needle| <= |hay| && hay[i..i + |needle|] == needle
  }

  /** Prisma's `contains` in `insensitive` mode, over ASCII case. */
  predicate ContainsInsensitive(hay: string, needle: string)
  {
    exists i: nat :: i <= |hay| && OccursAt(LowerAll(needle), LowerAll(hay), i)
  }

  /** The decimal digit character of `d`. */
  function DigitChar(d: nat): (c: char)
    requires d < 10
    ensures IsDigit(c) && c as int - '0' as int == d
  {
    ('0' as int + d) as char
  }

  /** JavaScript's decimal rendering of a non-negative integer, as in `${counter}`. */
  function NatToString(n: nat): (s: string)
    ensures |s| >= 1 && AllDigits(s)
  {
    if n < 10 then [DigitChar(n)] else NatToString(n / 10) + [DigitChar(n % 10)]
  }

  /** The number a string of decimal digits denotes. */
  function DigitsValue(s: string): nat
    requires AllDigits(s)
  {
    if s == [] then 0 else DigitsValue(s[..|s| - 1]) * 10 + (s[|s| - 1] as int - '0' as int)
  }

  lemma {:induction false} DigitsValueOfNatToString(n: nat)
    ensures DigitsValue(NatToString(n)) == n
  {
    if n >= 10 {
      var s := NatToString(n);
      assert s[..|s| - 1] == NatToString(n / 10);
      DigitsValueOfNatToString(n / 10);
    }
  }

  lemma NatToStringInjective(m: nat, n: nat)
    requires NatToString(m) == NatToString(n)
    ensures m == n
  {
    DigitsValueOfNatToString(m);
    DigitsValueOfNatToString(n);
  }

  function SumReal(s: seq<real>): real
  {
    if s == [] then 0.0 else SumReal(s[..|s| - 1]) + s[|s| - 1]
  }

  lemma SumRealAppend(s: seq<real>, x: real)
    ensures SumReal(s + [x]) == SumReal(s) + x
  {
    assert (s + [x])[..|s|] == s;
  }

  /** The rows of table `m` whose ids are below `n`, in storage (ascending id) order. */
  function Rows<T>(m: map<Id, T>, n: nat): (r: seq<(Id, T)>)
    ensures forall k :: 0 <= k < |r| ==> r[k].0 < n && r[k].0 in m && m[r[k].0] == r[k].1
    ensures forall id :: id in m && id < n ==> (id, m[id]) in r
    ensures forall row :: row in r ==> row.0 in m && m[row.0] == row.1
  {
    if n == 0 then []
    else
      var prefix := Rows(m, n - 1);
      prefix + (if n - 1 in m then [(n - 1, m[n - 1])] else [])
  }

  /** The keys of m below n. */
  function KeysBelow<T>(m: map<Id, T>, n: nat): set<Id>
  {
    set id | id in m.Keys && id < n
  }

  /** A table with every key below n has exactly |m| rows. */
  lemma RowsCount<T>(m: map<Id, T>, n: nat)
    requires forall id :: id in m ==> id < n
    ensures |Rows(m, n)| == |m|
  {
    RowsBelow(m, n);
    assert KeysBelow(m, n) == m.Keys;
  }

  lemma KeysBelowStep<T>(m: map<Id, T>, n: nat)
    ensures KeysBelow(m, n + 1) == if n in m then KeysBelow(m, n) + {n} else KeysBelow(m, n)
    ensures n !in KeysBelow(m, n)
  {
  }

  lemma {:induction false} RowsBelow<T>(m: map<Id, T>, n: nat)
    ensures |Rows(m, n)| == |KeysBelow(m, n)|
  {
    if n > 0 {
      RowsBelow(m, n - 1);
      KeysBelowStep(m, n - 1);
      assert |Rows(m, n)| == |Rows(m, n - 1)| + (if n - 1 in m then 1 else 0);
    } else {
      assert KeysBelow(m, n) == {};
    }
  }

  /** The elements of `s` that satisfy `p`, in their original order. */
  function Filter<T>(s: seq<T>, p: T -> bool): (r: seq<T>)
    ensures |r| <= |s|
    ensures forall k :: 0 <= k < |r| ==> p(r[k]) && r[k] in s
    ensures forall x :: x in s && p(x) ==> x in r
  {
    if s == [] then []
    else
      var prefix := Filter(s[..|s| - 1], p);
      assert forall x :: x in s ==> x in s[..|s| - 1] || x == s[|s| - 1];
      prefix + (if p(s[|s| - 1]) then [s[|s| - 1]] else [])
  }

  /** Filtering by two predicates that agree on every element gives the same rows. */
  lemma {:induction false} FilterCongruent<T>(s: seq<T>, p: T -> bool, q: T -> bool)
    requires forall x :: x in s ==> p(x) == q(x)
    ensures Filter(s, p) == Filter(s, q)
    decreases |s|
  {
    if s != [] {
      assert forall x :: x in s[..|s| - 1] ==> x in s;
      FilterCongruent(s[..|s| - 1], p, q);
    }
  }

  /** `s` back to front. */
  function Reversed<T>(s: seq<T>): (r: seq<T>)
    ensures |r| == |s|
    ensures forall k :: 0 <= k < |s| ==> r[k] == s[|s| - 1 - k]
  {
    seq(|s|, k requires 0 <= k < |s| => s[|s| - 1 - k])
  }

  lemma ReversedHas<T>(s: seq<T>, x: T)
    requires x in s
    ensures x in Reversed(s)
  {
    var j :| 0 <= j < |s| && s[j] == x;
    assert Reversed(s)[|s| - 1 - j] == x;
  }

  /** JavaScript's `slice(0, n)` and Prisma's `take: n`. */
  function TakeFirst<T>(s: seq<T>, n: nat): (r: seq<T>)
    ensures |r| == if |s| <= n then |s| else n
    ensures r == s[..|r|]
    ensures |s| <= n ==> r == s
  {
    if |s| <= n then s else s[..n]
  }

  ghost predicate NonIncreasing<T>(s: seq<T>, key: T -> real)
  {
    forall j, k :: 0 <= j < k < |s| ==> key(s[j]) >= key(s[k])
  }

  /** Inserts `x` before the first element whose key is not greater than x's. */
  function Insert<T>(x: T, s: seq<T>, key: T -> real): (r: seq<T>)
    ensures |r| == |s| + 1
  {
    if s == [] || key(s[0]) <= key(x) then [x] + s
    else [s[0]] + Insert(x, s[1..], key)
  }

  /** Every element of an insertion is `x` or an element of `s`. */
  lemma {:induction false} InsertElements<T>(x: T, s: seq<T>, key: T -> real)
    ensures forall k :: 0 <= k < |Insert(x, s, key)| ==> Insert(x, s, key)[k] == x || Insert(x, s, key)[k] in s
    decreases |s|
  {
    if s != [] && key(s[0]) > key(x) {
      InsertElements(x, s[1..], key);
      var t := Insert(x, s[1..], key);
      forall k | 0 <= k < |t| ensures t[k] == x || t[k] in s {
        if t[k] != x {
          var j :| 0 <= j < |s[1..]| && s[1..][j] == t[k];
          assert s[j + 1] == t[k];
        }
      }
      assert forall k :: 0 < k < |Insert(x, s, key)| ==> Insert(x, s, key)[k] == t[k - 1];
    }
  }

  lemma NonIncreasingTail<T>(s: seq<T>, key: T -> real)
    requires s != [] && NonIncreasing(s, key)
    ensures NonIncreasing(s[1..], key)
    ensures forall k :: 0 <= k < |s[1..]| ==> key(s[1..][k]) <= key(s[0])
  {
    forall j, k | 0 <= j < k < |s[1..]| ensures key(s[1..][j]) >= key(s[1..][k]) {
      assert s[1..][j] == s[j + 1] && s[1..][k] == s[k + 1];
    }
  }

  lemma NonIncreasingCons<T>(a: T, t: seq<T>, key: T -> real)
    requires NonIncreasing(t, key)
    requires forall k :: 0 <= k < |t| ==> key(t[k]) <= key(a)
    ensures NonIncreasing([a] + t, key)
  {
    var r := [a] + t;
    forall j, k | 0 <= j < k < |r| ensures key(r[j]) >= key(r[k]) {
      assert r[k] == t[k - 1];
      if j > 0 {
        assert r[j] == t[j - 1];
      }
    }
  }

  /** Inserting into a non-increasing sequence keeps it non-increasing. */
  lemma {:induction false} InsertSorted<T>(x: T, s: seq<T>, key: T -> real)
    requires NonIncreasing(s, key)
    ensures NonIncreasing(Insert(x, s, key), key)
    decreases |s|
  {
    if s != [] && key(s[0]) > key(x) {
      var rest := s[1..];
      NonIncreasingTail(s, key);
      InsertSorted(x, rest, key);
      InsertElements(x, rest, key);
      var t := Insert(x, rest, key);
      forall k | 0 <= k < |t| ensures key(t[k]) <= key(s[0]) {
        if t[k] != x {
          var i :| 0 <= i < |rest| && rest[i] == t[k];
        }
      }
      NonIncreasingCons(s[0], t, key);
    } else if s != [] {
      NonIncreasingTail(s, key);
      assert forall k :: 0 <= k < |s| ==> key(s[k]) <= key(x) by {
        forall k | 0 <= k < |s| ensures key(s[k]) <= key(x) {
          if k > 0 {
            assert s[1..][k - 1] == s[k];
          }
        }
      }
      NonIncreasingCons(x, s, key);
    }
  }

  /** Inserting adds exactly `x`. */
  lemma {:induction false} InsertPermutes<T>(x: T, s: seq<T>, key: T -> real)
    ensures multiset(Insert(x, s, key)) == multiset(s) + multiset{x}
    decreases |s|
  {
    if s != [] && key(s[0]) > key(x) {
      InsertPermutes(x, s[1..], key);
      assert s == [s[0]] + s[1..];
    }
  }

  /** A stable sort into non-increasing key order (JavaScript's `sort` with `(a, b) => key(b) - key(a)`). */
  function SortDesc<T>(s: seq<T>, key: T -> real): (r: seq<T>)
    ensures |r| == |s|
  {
    if s == [] then [] else Insert(s[0], SortDesc(s[1..], key), key)
  }

  /** The sort's output is non-increasing and a permutation of its input. */
  lemma {:induction false} SortDescSound<T>(s: seq<T>, key: T -> real)
    ensures NonIncreasing(SortDesc(s, key), key)
    ensures multiset(SortDesc(s, key)) == multiset(s)
    decreases |s|
  {
    if s != [] {
      SortDescSound(s[1..], key);
      InsertSorted(s[0], SortDesc(s[1..], key), key);
      InsertPermutes(s[0], SortDesc(s[1..], key), key);
      assert s == [s[0]] + s[1..];
    }
  }

  /**
   * The first n of a descending sort (Prisma's `orderBy: desc` with `take: n`):
   * ordered, min(|s|, n) long, drawn from the input, and the
   * whole input when it has at most n elements.
   */
  lemma TopN<T>(s: seq<T>, key: T -> real, n: nat)
    ensures NonIncreasing(TakeFirst(SortDesc(s, key), n), key)
    ensures |TakeFirst(SortDesc(s, key), n)| == if |s| <= n then |s| else n
    ensures forall x :: x in TakeFirst(SortDesc(s, key), n) ==> x in s
    ensures |s| <= n ==> forall x :: x in s ==> x in TakeFirst(SortDesc(s, key), n)
  {
    var sorted := SortDesc(s, key);
    var r := TakeFirst(sorted, n);
    SortDescSound(s, key);
    forall x | x in r ensures x in s {
      assert x in multiset(sorted);
    }
    if |s| <= n {
      forall x | x in s ensures x in r {
        assert x in multiset(s);
      }
    }
  }

  /**
   * An element the first n leave out: the input had more than n elements, n
   * were taken, and each one taken has a key at least as large.
   */
  lemma TopNExcluded<T>(s: seq<T>, key: T -> real, n: nat, x: T)
    requires x in s && x !in TakeFirst(SortDesc(s, key), n)
    ensures |s| > n && |TakeFirst(SortDesc(s, key), n)| == n
    ensures forall y :: y in TakeFirst(SortDesc(s, key), n) ==> key(x) <= key(y)
  {
    var sorted := SortDesc(s, key);
    var r := TakeFirst(sorted, n);
    SortDescSound(s, key);
    assert x in multiset(sorted);
    var i :| 0 <= i < |sorted| && sorted[i] == x;
    assert i >= |r|;
    forall y | y in r ensures key(x) <= key(y) {
      var j :| 0 <= j < |r| && r[j] == y;
      assert sorted[j] == y;
    }
  }
}
