/** The string operations of Rust's standard library that several models use, on ASCII text. */
module Text {

  predicate IsSpace(c: char) {
    c == ' ' || 9 <= c as int <= 13
  }

  predicate Contains(s: string, needle: string) {
    needle <= s || (s != [] && Contains(s[1..], needle))
  }

  /** Containing a text means that it is one of the parts. */
  lemma {:induction false} ContainsIs(s: string, needle: string)
    ensures Contains(s, needle) <==> exists j, k :: 0 <= j <= k <= |s| && s[j..k] == needle
  {
    if needle <= s {
      assert s[0..|needle|] == needle;
    } else if s != [] {
      ContainsIs(s[1..], needle);
      if Contains(s[1..], needle) {
        var j, k :| 0 <= j <= k <= |s[1..]| && s[1..][j..k] == needle;
        assert s[1..][j..k] == s[j + 1..k + 1];
      }
      if j, k :| 0 <= j <= k <= |s| && s[j..k] == needle {
        if j > 0 {
          assert s[1..][j - 1..k - 1] == s[j..k];
        }
      }
    } else {
      assert forall j, k :: 0 <= j <= k <= |s| ==> s[j..k] == [];
    }
  }

  function LowerAscii(c: char): char {
    if 'A' <= c <= 'Z' then (c as int + 32) as char else c
  }

  function Lower(s: string): (r: string)
    ensures |r| == |s|
  {
    seq(|s|, i requires 0 <= i < |s| => LowerAscii(s[i]))
  }

  /** The first position of `c`, or the length. */
  function IndexOf(s: string, c: char): (i: nat)
    ensures i <= |s| && c !in s[..i]
    ensures i < |s| ==> s[i] == c
  {
    if s == [] || s[0] == c then 0 else
      var i := IndexOf(s[1..], c);
      assert s[..1 + i] == [s[0]] + s[1..][..i];
      1 + i
  }

  lemma {:induction false} IndexOfAfter(a: string, c: char, b: string)
    requires c !in a
    ensures IndexOf(a + [c] + b, c) == |a|
    ensures IndexOf(a, c) == |a|
  {
    if a != [] {
      assert (a + [c] + b)[1..] == a[1..] + [c] + b;
      IndexOfAfter(a[1..], c, b);
    }
  }

  /** The pieces between separators; always at least one. */
  function Split(s: string, c: char): (parts: seq<string>)
    ensures parts != []
    decreases |s|
  {
    var i := IndexOf(s, c);
    if i == |s| then [s] else [s[..i]] + Split(s[i + 1..], c)
  }

  function TrimStart(s: string): string {
    if s != [] && IsSpace(s[0]) then TrimStart(s[1..]) else s
  }

  function TrimEnd(s: string): string {
    if s != [] && IsSpace(s[|s| - 1]) then TrimEnd(s[..|s| - 1]) else s
  }

  function Trim(s: string): string {
    TrimEnd(TrimStart(s))
  }
}
