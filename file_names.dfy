/**
 * File-name helpers used by the output-name derivation: strcmp,
 * findFileExtension and fileNameFromStem. The definitions of the latter two
 * are not part of this model; they are modelled here as plain string
 * functions: the extension of a name is its suffix from the last '.', the
 * stem is what precedes it, and a derived name is the stem followed by a new
 * extension. The functions carry no contracts of their own; what they
 * compute is stated by the lemmas that follow them.
 */
module FileNames {
  import opened Wrappers

  /** strcmp(a, b) == 0: the two names agree character by character. */
  function StrEq(a: string, b: string): (r: bool)
    ensures r ==> |a| == |b|
    ensures |a| > 0 && |b| > 0 && a[0] != b[0] ==> !r
  {
    if |a| == 0 || |b| == 0 then |a| == |b|
    else a[0] == b[0] && StrEq(a[1..], b[1..])
  }

  /** No character of `s` is a dot. */
  predicate NoDot(s: string) {
    forall i :: 0 <= i < |s| ==> s[i] != '.'
  }

  /** An extension as findFileExtension returns it: a dot followed by dot-free text. */
  predicate IsExtension(e: string) {
    |e| > 0 && e[0] == '.' && NoDot(e[1..])
  }

  /** The position of the last dot among the first `n` characters of `s`, scanning back from `n`. */
  function LastDotBefore(s: string, n: nat): (r: Option<nat>)
    requires n <= |s|
    ensures r.Some? ==> r.value < n && s[r.value] == '.'
  {
    if n == 0 then None
    else if s[n - 1] == '.' then Some(n - 1)
    else LastDotBefore(s, n - 1)
  }

  /** The position of the last dot of `s`. */
  function LastDot(s: string): Option<nat> {
    LastDotBefore(s, |s|)
  }

  /** findFileExtension: the extension of `s`, or None (a null pointer) when it has none. */
  function FindFileExtension(s: string): (r: Option<string>)
    ensures r.Some? ==> 0 < |r.value| <= |s| && r.value[0] == '.'
  {
    match LastDot(s)
    case Some(i) => Some(s[i..])
    case None => None
  }

  /** The name without its extension. */
  function Stem(s: string): string {
    match LastDot(s)
    case Some(i) => s[..i]
    case None => s
  }

  /** fileNameFromStem: the stem of `s` followed by `suffix`. */
  function FileNameFromStem(s: string, suffix: string): (r: string)
    ensures |r| == |Stem(s)| + |suffix| && r[|r| - |suffix|..] == suffix
  {
    Stem(s) + suffix
  }

  /** The character-by-character comparison is string equality. */
  lemma {:induction false} StrEqIsEquality(a: string, b: string)
    ensures StrEq(a, b) <==> a == b
  {
    if |a| > 0 && |b| > 0 {
      StrEqIsEquality(a[1..], b[1..]);
      if a[0] == b[0] && a[1..] == b[1..] {
        assert a == [a[0]] + a[1..] && b == [b[0]] + b[1..];
      }
    }
  }

  /** The backward scan finds the last dot before `n`, and finds none only when there is none. */
  lemma {:induction false} LastDotBeforeIsLast(s: string, n: nat)
    requires n <= |s|
    ensures LastDotBefore(s, n).Some? ==>
              var i := LastDotBefore(s, n).value;
              i < n && s[i] == '.' && forall j :: i < j < n ==> s[j] != '.'
    ensures LastDotBefore(s, n).None? ==> forall j :: 0 <= j < n ==> s[j] != '.'
    decreases n
  {
    if n > 0 && s[n - 1] != '.' {
      LastDotBeforeIsLast(s, n - 1);
    }
  }

  /** The extension is a suffix of the name, a dot followed by dot-free text; there is none only without dots. */
  lemma ExtensionIsDotSuffix(s: string)
    ensures FindFileExtension(s).Some? ==>
              var e := FindFileExtension(s).value;
              IsExtension(e) && |e| <= |s| && s[|s| - |e|..] == e
    ensures FindFileExtension(s).None? <==> NoDot(s)
  {
    LastDotBeforeIsLast(s, |s|);
    if LastDot(s).Some? {
      var i := LastDot(s).value;
      assert forall j :: 0 <= j < |s[i..][1..]| ==> s[i..][1..][j] == s[i + 1 + j];
    }
  }

  /** A name is its stem followed by its extension, if it has one. */
  lemma StemAndExtension(s: string)
    ensures |Stem(s)| <= |s| && s[..|Stem(s)|] == Stem(s)
    ensures FindFileExtension(s).Some? ==> Stem(s) + FindFileExtension(s).value == s
    ensures FindFileExtension(s).None? ==> Stem(s) == s
  {
  }

  /** Scanning back from inside an extension that follows `a` stops at the extension's own dot. */
  lemma {:induction false} LastDotInExtension(a: string, e: string, k: nat)
    requires IsExtension(e) && 1 <= k <= |e|
    ensures LastDotBefore(a + e, |a| + k) == Some(|a|)
    decreases k
  {
    if k > 1 {
      assert (a + e)[|a| + k - 1] == e[1..][k - 2];
      LastDotInExtension(a, e, k - 1);
    }
  }

  /** A derived name has the new extension and keeps the stem it was derived from. */
  lemma DerivedNameRoundTrip(s: string, e: string)
    requires IsExtension(e)
    ensures FindFileExtension(FileNameFromStem(s, e)) == Some(e)
    ensures Stem(FileNameFromStem(s, e)) == Stem(s)
  {
    LastDotInExtension(Stem(s), e, |e|);
  }
}
