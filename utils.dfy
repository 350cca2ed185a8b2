/** lib/utils.ts: slug generation, progress percentage and phone formatting. */
module Utils {
  import opened Common

  // ---------------------------------------------------------------------------
  // generateSlug: lower-case, turn every run of characters outside [a-z0-9]
  // into one '-', then drop a leading and a trailing '-'.
  // ---------------------------------------------------------------------------

  predicate IsSlugAlnum(c: char)
  {
    'a' <= c <= 'z' || IsDigit(c)
  }

  predicate IsSlugChar(c: char)
  {
    IsSlugAlnum(c) || c == '-'
  }

  /** A string generateSlug can return: slug characters only, no "--", no dash at either end. */
  predicate IsSlug(s: string)
  {
    && (forall i :: 0 <= i < |s| ==> IsSlugChar(s[i]))
    && (forall i :: 0 <= i < |s| - 1 ==> !(s[i] == '-' && s[i + 1] == '-'))
    && (|s| > 0 ==> s[0] != '-' && s[|s| - 1] != '-')
  }

  /** Drops the leading run of characters outside [a-z0-9]. */
  function SkipRun(s: string): (r: string)
    ensures |r| <= |s| && r == s[|s| - |r|..]
    ensures r == [] || IsSlugAlnum(r[0])
  {
    if s == [] || IsSlugAlnum(s[0]) then s else SkipRun(s[1..])
  }

  /** `.replace(/[^a-z0-9]+/g, '-')`. */
  function CollapseRuns(s: string): (r: string)
    ensures forall i :: 0 <= i < |r| ==> IsSlugChar(r[i])
    ensures forall i :: 0 <= i < |r| - 1 ==> !(r[i] == '-' && r[i + 1] == '-')
    ensures r != [] && r[0] == '-' ==> s != [] && !IsSlugAlnum(s[0])
    decreases |s|
  {
    if s == [] then []
    else if IsSlugAlnum(s[0]) then [s[0]] + CollapseRuns(s[1..])
    else "-" + CollapseRuns(SkipRun(s[1..]))
  }

  /** `.replace(/(^-|-$)/g, '')`. */
  function TrimDashes(s: string): string
  {
    var a := if |s| > 0 && s[0] == '-' then s[1..] else s;
    if |a| > 0 && a[|a| - 1] == '-' then a[..|a| - 1] else a
  }

  function GenerateSlug(title: string): string
  {
    TrimDashes(CollapseRuns(LowerAll(title)))
  }

  /** A window of dash-separated slug characters that starts and ends on a non-dash is a slug. */
  lemma SlugWindow(c: string, lo: nat, hi: nat)
    requires lo <= hi <= |c|
    requires forall i :: 0 <= i < |c| ==> IsSlugChar(c[i])
    requires forall i :: 0 <= i < |c| - 1 ==> !(c[i] == '-' && c[i + 1] == '-')
    requires lo < hi ==> c[lo] != '-' && c[hi - 1] != '-'
    ensures IsSlug(c[lo..hi])
  {
    var w := c[lo..hi];
    assert forall i :: 0 <= i < |w| ==> w[i] == c[lo + i];
    forall i | 0 <= i < |w| - 1
      ensures !(w[i] == '-' && w[i + 1] == '-')
    {
      assert w[i] == c[lo + i] && w[i + 1] == c[lo + i + 1];
    }
  }

  /** Trimming one dash at either end of dash-separated slug characters leaves a slug. */
  lemma TrimDashesIsSlug(c: string)
    requires forall i :: 0 <= i < |c| ==> IsSlugChar(c[i])
    requires forall i :: 0 <= i < |c| - 1 ==> !(c[i] == '-' && c[i + 1] == '-')
    ensures IsSlug(TrimDashes(c))
  {
    var lo: nat := if |c| > 0 && c[0] == '-' then 1 else 0;
    var a := c[lo..];
    var hi: nat;
    if |a| > 0 && a[|a| - 1] == '-' {
      hi := |c| - 1;
      assert a[..|a| - 1] == c[lo..hi];
    } else {
      hi := |c|;
    }
    assert TrimDashes(c) == c[lo..hi];
    if lo < hi {
      assert lo == 1 ==> c[0] == '-';
      assert hi < |c| ==> c[|c| - 1] == '-';
      assert hi == |c| ==> a[|a| - 1] == c[hi - 1];
    }
    SlugWindow(c, lo, hi);
  }

  /** Every output of generateSlug is slug-shaped. */
  lemma GenerateSlugIsSlug(title: string)
    ensures IsSlug(GenerateSlug(title))
  {
    TrimDashesIsSlug(CollapseRuns(LowerAll(title)));
  }

  lemma {:induction false} CollapseRunsOfSlugChars(s: string)
    requires forall i :: 0 <= i < |s| ==> IsSlugChar(s[i])
    requires forall i :: 0 <= i < |s| - 1 ==> !(s[i] == '-' && s[i + 1] == '-')
    ensures CollapseRuns(s) == s
    decreases |s|
  {
    if s != [] {
      CollapseRunsOfSlugChars(s[1..]);
      if !IsSlugAlnum(s[0]) {
        assert SkipRun(s[1..]) == s[1..];
      }
    }
  }

  /** generateSlug(generateSlug(t)) == generateSlug(t). */
  lemma GenerateSlugIdempotent(title: string)
    ensures GenerateSlug(GenerateSlug(title)) == GenerateSlug(title)
  {
    var s := GenerateSlug(title);
    GenerateSlugIsSlug(title);
    assert LowerAll(s) == s;
    CollapseRunsOfSlugChars(s);
  }

  // ---------------------------------------------------------------------------
  // calculateProgress
  // ---------------------------------------------------------------------------

  /** JavaScript's Math.round: the nearest integer, halves rounded up. */
  function Round(x: real): (r: int)
    ensures x - 0.5 < r as real <= x + 0.5
  {
    (x + 0.5).Floor
  }

  /** Percentage of the goal reached, rounded, capped at 100; 0 for a zero goal. */
  function CalculateProgress(raised: real, goal: real): (r: int)
    ensures goal == 0.0 ==> r == 0
    ensures r <= 100
    ensures raised >= goal > 0.0 ==> r == 100
    ensures raised >= 0.0 && goal > 0.0 ==> 0 <= r
    ensures goal != 0.0 ==> r == if Round(raised / goal * 100.0) < 100 then Round(raised / goal * 100.0) else 100
  {
    if goal == 0.0 then 0
    else
      var pct := Round(raised / goal * 100.0);
      assert goal > 0.0 && raised >= goal ==> raised / goal >= 1.0;
      assert goal > 0.0 && raised >= 0.0 ==> raised / goal >= 0.0;
      if pct < 100 then pct else 100
  }

  // ---------------------------------------------------------------------------
  // formatMalaysianPhone: `replace(/(\+60)(\d{2})(\d{3})(\d{4})/, '$1 $2-$3 $4')`
  // ---------------------------------------------------------------------------

  /** The pattern `\+60\d{9}` occurs at index i. */
  predicate PhoneAt(s: string, i: nat)
  {
    i + 12 <= |s| && s[i..i + 3] == "+60" && AllDigits(s[i + 3..i + 12])
  }

  /** The leftmost occurrence of the pattern at or after `from`. */
  function FindPhone(s: string, from: nat): (r: Option<nat>)
    ensures r.Some? ==> from <= r.value && PhoneAt(s, r.value)
    ensures r.Some? ==> forall j: nat :: from <= j < r.value ==> !PhoneAt(s, j)
    ensures r.None? ==> forall j: nat :: from <= j ==> !PhoneAt(s, j)
    decreases |s| - from
  {
    if from + 12 > |s| then None
    else if PhoneAt(s, from) then Some(from)
    else FindPhone(s, from + 1)
  }

  /** The text that replaces a match at index i: "$1 $2-$3 $4". */
  function Rewritten(phone: string, i: nat): string
    requires PhoneAt(phone, i)
  {
    phone[..i] + "+60 " + phone[i + 3..i + 5] + "-" + phone[i + 5..i + 8] + " " + phone[i + 8..i + 12] + phone[i + 12..]
  }

  function FormatMalaysianPhone(phone: string): (r: string)
    ensures (forall j: nat :: !PhoneAt(phone, j)) ==> r == phone
  {
    match FindPhone(phone, 0)
    case None => phone
    case Some(i) => Rewritten(phone, i)
  }

  /** The leftmost match, and only it, is rewritten; the rest of the string is kept. */
  lemma FormatMalaysianPhoneRewritesLeftmost(phone: string, i: nat)
    requires PhoneAt(phone, i)
    requires forall j: nat :: j < i ==> !PhoneAt(phone, j)
    ensures FormatMalaysianPhone(phone) == Rewritten(phone, i)
    ensures FormatMalaysianPhone(phone)[..i] == phone[..i]
    ensures FormatMalaysianPhone(phone)[i + 15..] == phone[i + 12..]
  {
    var r := FindPhone(phone, 0);
    assert r.Some?;
    assert r.value == i;
  }

  lemma FormatMalaysianPhoneExample()
    ensures FormatMalaysianPhone("+60123456789") == "+60 12-345 6789"
  {
    var s := "+60123456789";
    assert s[0..3] == "+60";
    assert s[3..12] == "123456789";
    assert PhoneAt(s, 0);
    FormatMalaysianPhoneRewritesLeftmost(s, 0);
  }
}
