// Path normalisation applied by the recursive database insert to each file
// path it finds: every backslash separator is rewritten as a forward slash.

module Paths {

  /** The result of replacing every `\` in `s` with `/`, as a regular-expression
      replace of the one-character pattern `\` by `/` does. */
  function ReplaceBackslashes(s: string): (r: string)
  {
    if s == [] then []
    else [if s[0] == '\\' then '/' else s[0]] + ReplaceBackslashes(s[1..])
  }

  /** Position by position: a `\` becomes `/`, every other character stays. */
  lemma {:induction false} ReplaceBackslashesAt(s: string)
    ensures |ReplaceBackslashes(s)| == |s|
    ensures forall i :: 0 <= i < |s| ==>
      ReplaceBackslashes(s)[i] == (if s[i] == '\\' then '/' else s[i])
  {
    if s != [] {
      ReplaceBackslashesAt(s[1..]);
      var r := ReplaceBackslashes(s);
      forall i | 0 <= i < |s|
        ensures r[i] == (if s[i] == '\\' then '/' else s[i])
      {
        if i > 0 {
          assert r[i] == ReplaceBackslashes(s[1..])[i - 1];
        }
      }
    }
  }

  /** The output is as long as the input. */
  lemma {:induction false} ReplaceBackslashesLength(s: string)
    ensures |ReplaceBackslashes(s)| == |s|
  {
    ReplaceBackslashesAt(s);
  }

  /** No backslash survives. */
  lemma {:induction false} ReplaceBackslashesNoBackslash(s: string)
    ensures '\\' !in ReplaceBackslashes(s)
  {
    ReplaceBackslashesAt(s);
    var r := ReplaceBackslashes(s);
    forall i | 0 <= i < |r| ensures r[i] != '\\' {
      assert r[i] == (if s[i] == '\\' then '/' else s[i]);
    }
  }

  /** A string without backslashes is left exactly as it is. */
  lemma {:induction false} ReplaceBackslashesFixesClean(s: string)
    requires '\\' !in s
    ensures ReplaceBackslashes(s) == s
  {
    ReplaceBackslashesAt(s);
  }

  /** Normalising twice is the same as normalising once. */
  lemma {:induction false} ReplaceBackslashesIdempotent(s: string)
    ensures ReplaceBackslashes(ReplaceBackslashes(s)) == ReplaceBackslashes(s)
  {
    ReplaceBackslashesNoBackslash(s);
    ReplaceBackslashesFixesClean(ReplaceBackslashes(s));
  }

  /** Normalisation commutes with concatenation, so a path can be normalised
      component by component. */
  lemma {:induction false} ReplaceBackslashesAppend(a: string, b: string)
    ensures ReplaceBackslashes(a + b) == ReplaceBackslashes(a) + ReplaceBackslashes(b)
  {
    if a != [] {
      assert (a + b)[0] == a[0];
      assert (a + b)[1..] == a[1..] + b;
      ReplaceBackslashesAppend(a[1..], b);
      var c := if a[0] == '\\' then '/' else a[0];
      calc {
        ReplaceBackslashes(a + b);
        [c] + ReplaceBackslashes(a[1..] + b);
        [c] + (ReplaceBackslashes(a[1..]) + ReplaceBackslashes(b));
        ([c] + ReplaceBackslashes(a[1..])) + ReplaceBackslashes(b);
      }
    } else {
      assert a + b == b;
    }
  }

  /** A backslash-separated path comes out with forward slashes, and the empty
      string maps to the empty string. */
  lemma ReplaceBackslashesExamples()
    ensures ReplaceBackslashes("") == ""
    ensures ReplaceBackslashes("a\\b") == "a/b"
  {
  }
}
