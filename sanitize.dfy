/** The search handler's clean-up of the raw `Hostname` value: three
    `strings.ReplaceAll` calls that delete spaces, semicolons and equals
    signs. The three characters are ASCII, so deleting them from the UTF-8
    bytes of a Go string and deleting them from its characters agree. */
module Sanitizer {

  /** The characters the sanitiser deletes. */
  predicate IsStripped(c: char) {
    c == ' ' || c == ';' || c == '='
  }

  /** `strings.ReplaceAll(s, string(c), "")`: every occurrence of `c` deleted. */
  function RemoveAll(s: string, c: char): (r: string)
    ensures |r| <= |s|
    ensures forall x :: x in r <==> x in s && x != c
  {
    if s == [] then [] else (if s[0] == c then [] else [s[0]]) + RemoveAll(s[1..], c)
  }

  /** The sanitiser, in the order the handler applies the three deletions. */
  function Sanitize(raw: string): (r: string)
    ensures |r| <= |raw|
    ensures forall x :: x in r <==> x in raw && !IsStripped(x)
  {
    RemoveAll(RemoveAll(RemoveAll(raw, ' '), ';'), '=')
  }

  /** Reference definition: the input filtered by "not stripped", one
      character at a time. */
  function Kept(s: string): (r: string)
    ensures forall x :: x in r ==> x in s && !IsStripped(x)
  {
    if s == [] then [] else (if IsStripped(s[0]) then [] else [s[0]]) + Kept(s[1..])
  }

  /** `r` occurs in `s` with its characters in the same order, not
      necessarily adjacent (greedy matching from the left). */
  predicate IsSubsequence(r: string, s: string)
    decreases |s|
  {
    if r == [] then true
    else if s == [] then false
    else if r[0] == s[0] then IsSubsequence(r[1..], s[1..])
    else IsSubsequence(r, s[1..])
  }

  /** How many characters of `s` the sanitiser deletes. */
  function StrippedCount(s: string): nat {
    if s == [] then 0 else (if IsStripped(s[0]) then 1 else 0) + StrippedCount(s[1..])
  }

  lemma {:induction false} RemoveAllConcat(a: string, b: string, c: char)
    ensures RemoveAll(a + b, c) == RemoveAll(a, c) + RemoveAll(b, c)
  {
    if a == [] {
      assert a + b == b;
    } else {
      assert (a + b)[0] == a[0];
      assert (a + b)[1..] == a[1..] + b;
      RemoveAllConcat(a[1..], b, c);
    }
  }

  lemma SanitizeConcat(a: string, b: string)
    ensures Sanitize(a + b) == Sanitize(a) + Sanitize(b)
  {
    RemoveAllConcat(a, b, ' ');
    RemoveAllConcat(RemoveAll(a, ' '), RemoveAll(b, ' '), ';');
    RemoveAllConcat(RemoveAll(RemoveAll(a, ' '), ';'), RemoveAll(RemoveAll(b, ' '), ';'), '=');
  }

  /** The three chained deletions are exactly the one-pass filter: the output
      keeps every character that is not a space, `;` or `=`, in input order. */
  lemma {:induction false} SanitizeIsKept(s: string)
    ensures Sanitize(s) == Kept(s)
  {
    if s != [] {
      assert s == [s[0]] + s[1..];
      SanitizeConcat([s[0]], s[1..]);
      SanitizeIsKept(s[1..]);
    }
  }

  /** The sanitised value is a subsequence of the raw value. */
  lemma {:induction false} SanitizeIsSubsequence(s: string)
    ensures IsSubsequence(Sanitize(s), s)
  {
    SanitizeIsKept(s);
    KeptIsSubsequence(s);
  }

  lemma {:induction false} KeptIsSubsequence(s: string)
    ensures IsSubsequence(Kept(s), s)
  {
    if s != [] {
      KeptIsSubsequence(s[1..]);
      if IsStripped(s[0]) {
        var r := Kept(s[1..]);
        assert r == Kept(s);
        if r != [] {
          assert r[0] in r;
          assert r[0] != s[0];
        }
      } else {
        assert Kept(s) == [s[0]] + Kept(s[1..]);
        assert Kept(s)[1..] == Kept(s[1..]);
      }
    }
  }

  /** Per character, the sanitised value holds as many copies as the raw one
      of every character that is kept, and none of the stripped ones. */
  lemma {:induction false} SanitizeCounts(s: string, x: char)
    ensures multiset(Sanitize(s))[x] == if IsStripped(x) then 0 else multiset(s)[x]
  {
    SanitizeIsKept(s);
    KeptCounts(s, x);
  }

  lemma {:induction false} KeptCounts(s: string, x: char)
    ensures multiset(Kept(s))[x] == if IsStripped(x) then 0 else multiset(s)[x]
  {
    if s != [] {
      KeptCounts(s[1..], x);
      assert s == [s[0]] + s[1..];
      assert multiset(s) == multiset([s[0]]) + multiset(s[1..]);
      var head := if IsStripped(s[0]) then [] else [s[0]];
      assert Kept(s) == head + Kept(s[1..]);
      assert multiset(Kept(s)) == multiset(head) + multiset(Kept(s[1..]));
    }
  }

  /** The sanitiser shortens its input by exactly the number of stripped
      characters in it. */
  lemma {:induction false} SanitizeLength(s: string)
    ensures |Sanitize(s)| == |s| - StrippedCount(s)
  {
    SanitizeIsKept(s);
    KeptLength(s);
  }

  lemma {:induction false} KeptLength(s: string)
    ensures |Kept(s)| == |s| - StrippedCount(s)
  {
    if s != [] {
      KeptLength(s[1..]);
    }
  }

  lemma {:induction false} KeptUnchanged(s: string)
    requires forall i :: 0 <= i < |s| ==> !IsStripped(s[i])
    ensures Kept(s) == s
  {
    if s != [] {
      KeptUnchanged(s[1..]);
    }
  }

  /** A value is left unchanged by the sanitiser exactly when it holds none
      of the stripped characters. */
  lemma SanitizeFixpoint(s: string)
    ensures Sanitize(s) == s <==> forall i :: 0 <= i < |s| ==> !IsStripped(s[i])
  {
    SanitizeIsKept(s);
    if forall i :: 0 <= i < |s| ==> !IsStripped(s[i]) {
      KeptUnchanged(s);
    } else {
      var i :| 0 <= i < |s| && IsStripped(s[i]);
      assert s[i] in s;
      assert s[i] !in Sanitize(s);
    }
  }

  /** Sanitising twice gives the same value as sanitising once. */
  lemma SanitizeIdempotent(s: string)
    ensures Sanitize(Sanitize(s)) == Sanitize(s)
  {
    var t := Sanitize(s);
    forall i | 0 <= i < |t| ensures !IsStripped(t[i]) {
      assert t[i] in t;
    }
    SanitizeFixpoint(t);
  }

  /** The worked example: `f o;o=` becomes the lookup key `foo`. */
  lemma SanitizeExample()
    ensures Sanitize("f o;o=") == "foo"
  {
  }
}
