/** The few java.lang.String operations the scripts and the response test rely on. */
module Text {

  /** `sub` occurs in `s` starting at index `i`. */
  predicate OccursAt(s: string, sub: string, i: int) {
    0 <= i && i + |sub| <= |s| && s[i..i + |sub|] == sub
  }

  /**
   * String.indexOf(sub, from) for a start within the string: the first
   * index at or after `from` where `sub` occurs in `s`, or -1 when there is none.
   */
  function IndexOfFrom(s: string, sub: string, from: nat): (r: int)
    ensures r == -1 || (from <= r && OccursAt(s, sub, r))
    ensures r == -1 ==> forall j :: from <= j ==> !OccursAt(s, sub, j)
    ensures r != -1 ==> forall j :: from <= j < r ==> !OccursAt(s, sub, j)
    decreases |s| - from
  {
    if from + |sub| > |s| then -1
    else if s[from..from + |sub|] == sub then from
    else IndexOfFrom(s, sub, from + 1)
  }

  /** String.contains, which Java defines as indexOf(sub) >= 0. */
  predicate Contains(s: string, sub: string)
    ensures Contains(s, sub) ==> |sub| <= |s|
  {
    IndexOfFrom(s, sub, 0) >= 0
  }

  /** `Contains` holds exactly when `sub` occurs somewhere in `s`. */
  lemma ContainsIff(s: string, sub: string)
    ensures Contains(s, sub) <==> exists i :: OccursAt(s, sub, i)
  {
    var r := IndexOfFrom(s, sub, 0);
    if r >= 0 {
      assert OccursAt(s, sub, r);
      assert exists i :: OccursAt(s, sub, i);
    } else {
      assert forall i :: !OccursAt(s, sub, i);
    }
  }

  /** Any occurrence makes `Contains` true. */
  lemma OccursImpliesContains(s: string, sub: string, i: int)
    requires OccursAt(s, sub, i)
    ensures Contains(s, sub)
  {
    ContainsIff(s, sub);
  }

  /** A text in which the first character of `sub` never appears does not contain `sub`. */
  lemma FirstCharAbsent(s: string, sub: string)
    requires |sub| > 0
    requires forall i :: 0 <= i < |s| ==> s[i] != sub[0]
    ensures !Contains(s, sub)
  {
    forall i | 0 <= i && i + |sub| <= |s|
      ensures !OccursAt(s, sub, i)
    {
      assert s[i..i + |sub|][0] == s[i];
    }
    ContainsIff(s, sub);
  }

  /** An occurrence inside a part of a concatenation is an occurrence in the whole. */
  lemma OccursInMiddle(a: string, b: string, c: string, sub: string, k: int)
    requires OccursAt(b, sub, k)
    ensures OccursAt(a + b + c, sub, |a| + k)
  {
    assert (a + b + c)[|a| + k..|a| + k + |sub|] == b[k..k + |sub|];
  }

  /**
   * Where the first three parts of a five-part concatenation sit: each right
   * after the parts before it.
   */
  lemma FivePartFront(a: string, b: string, c: string, d: string, e: string)
    ensures OccursAt(a + b + c + d + e, a, 0)
    ensures OccursAt(a + b + c + d + e, b, |a|)
    ensures OccursAt(a + b + c + d + e, c, |a| + |b|)
  {
    var s := a + b + c + d + e;
    assert s[..|a|] == a;
    assert s[|a|..|a| + |b|] == b;
    assert s[|a| + |b|..|a| + |b| + |c|] == c;
  }

  /** Where the last two parts of a five-part concatenation sit: the last one ends the whole. */
  lemma FivePartBack(a: string, b: string, c: string, d: string, e: string)
    ensures OccursAt(a + b + c + d + e, d, |a| + |b| + |c|)
    ensures OccursAt(a + b + c + d + e, e, |a + b + c + d + e| - |e|)
  {
    var s := a + b + c + d + e;
    assert s[|a| + |b| + |c|..|a| + |b| + |c| + |d|] == d;
    assert s[|s| - |e|..] == e;
  }

  /** The number of '\n' characters `s` ends with. */
  function TrailingNewlines(s: string): (n: nat)
    ensures n <= |s|
  {
    if |s| > 0 && s[|s| - 1] == '\n' then 1 + TrailingNewlines(s[..|s| - 1]) else 0
  }

  /** A text made of line breaks only ends with all of them. */
  lemma {:induction false} TrailingNewlinesOfNewlines(s: string)
    requires forall i :: 0 <= i < |s| ==> s[i] == '\n'
    ensures TrailingNewlines(s) == |s|
  {
    if |s| > 0 {
      TrailingNewlinesOfNewlines(s[..|s| - 1]);
    }
  }

  /**
   * Trailing newlines of a concatenation: those of `b`, and when `b` is made
   * of newlines only, also those of `a`.
   */
  lemma {:induction false} TrailingNewlinesConcat(a: string, b: string)
    ensures TrailingNewlines(a + b) ==
            if TrailingNewlines(b) == |b| then |b| + TrailingNewlines(a) else TrailingNewlines(b)
    decreases |b|
  {
    if |b| == 0 {
      assert a + b == a;
    } else {
      var ab := a + b;
      assert ab[|ab| - 1] == b[|b| - 1];
      assert ab[..|ab| - 1] == a + b[..|b| - 1];
      if b[|b| - 1] == '\n' {
        TrailingNewlinesConcat(a, b[..|b| - 1]);
      }
    }
  }
}
