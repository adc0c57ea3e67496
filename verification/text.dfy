/**
 * Character classes and substring facts shared by the server-side model:
 * JavaScript whitespace, substring occurrence, and the "no `<st` tag opener"
 * predicate used to show that a generated fragment holds no `<style` element.
 */
module Text {

  /** The characters JavaScript's `String.prototype.trim` removes and `\s`
      matches: WhiteSpace and LineTerminator of ECMA-262 (section 12.2 and 12.3). */
  predicate IsSpace(c: char) {
    || c == '\t' || c == '\n' || c == '\U{000B}' || c == '\U{000C}' || c == '\r'
    || c == ' ' || c == '\U{00A0}' || c == '\U{1680}'
    || ('\U{2000}' <= c <= '\U{200A}')
    || c == '\U{2028}' || c == '\U{2029}' || c == '\U{202F}' || c == '\U{205F}'
    || c == '\U{3000}' || c == '\U{FEFF}'
  }

  predicate AllSpace(s: string) {
    forall i :: 0 <= i < |s| ==> IsSpace(s[i])
  }

  predicate NoSpace(s: string) {
    forall i :: 0 <= i < |s| ==> !IsSpace(s[i])
  }

  predicate IsPrefix(p: string, s: string) {
    |p| <= |s| && s[..|p|] == p
  }

  /** `p` occurs somewhere in `s` as a contiguous substring. */
  ghost predicate Occurs(p: string, s: string) {
    exists i :: 0 <= i <= |s| && IsPrefix(p, s[i..])
  }

  lemma OccursEnd(a: string, p: string)
    ensures Occurs(p, a + p)
  {
    assert (a + p)[|a|..] == p;
    assert IsPrefix(p, (a + p)[|a|..]);
  }

  /** An occurrence survives appending text on either side. */
  lemma OccursExtend(p: string, s: string, t: string)
    requires Occurs(p, s)
    ensures Occurs(p, s + t) && Occurs(p, t + s)
  {
    var i :| 0 <= i <= |s| && IsPrefix(p, s[i..]);
    assert (s + t)[i..][..|p|] == s[i..][..|p|];
    assert IsPrefix(p, (s + t)[i..]);
    assert (t + s)[|t| + i..] == s[i..];
    assert IsPrefix(p, (t + s)[|t| + i..]);
  }

  /** Every character of an occurring text is a character of the text it
      occurs in. */
  lemma OccursChars(p: string, s: string, c: char)
    requires Occurs(p, s) && c in p
    ensures c in s
  {
    var i :| 0 <= i <= |s| && IsPrefix(p, s[i..]);
    var k :| 0 <= k < |p| && p[k] == c;
    assert s[i..][..|p|][k] == s[i + k];
  }

  lemma PrefixExtend(p: string, s: string, t: string)
    requires IsPrefix(p, s)
    ensures IsPrefix(p, s + t)
  {
    assert (s + t)[..|p|] == s[..|p|];
  }

  lemma PrefixTrans(p: string, q: string, s: string)
    requires IsPrefix(p, q) && IsPrefix(q, s)
    ensures IsPrefix(p, s)
  {
    assert s[..|p|] == s[..|q|][..|p|];
  }

  lemma PrefixPrepend(w: string, p: string, s: string)
    requires IsPrefix(p, s)
    ensures IsPrefix(w + p, w + s)
  {
    assert (w + s)[..|w + p|] == w + s[..|p|];
  }

  lemma PrefixJoin(a: string, b: string)
    ensures IsPrefix(a, a + b) && (a + b)[|a|..] == b
  {
    assert (a + b)[..|a|] == a;
  }

  /** A prefix `a + w + b` of `s`, with `w` free of `c` and `b` starting with
      `c`: reading `s` after `a` up to the first `c` gives back `w`. */
  lemma ReadBack(a: string, w: string, b: string, s: string, c: char)
    requires IsPrefix(a + w + b, s) && c !in w && b != [] && b[0] == c
    ensures |a| <= |s| && TakeUntil(s[|a|..], c) == w
  {
    var rest := s[|a| + |w| + |b|..];
    assert s == a + w + b + rest by {
      assert s == s[..|a + w + b|] + rest;
    }
    assert s[|a|..] == w + (b + rest);
    TakeUntilJoin(w, b + rest, c);
  }

  /** No `<` in `s` is followed by `st`: no `<style` (nor any other `<st…`) tag
      opens in `s`, while `<script` and `<span` may. */
  predicate NoStyleTag(s: string) {
    forall i :: 0 <= i < |s| - 2 && s[i] == '<' ==> !(s[i + 1] == 's' && s[i + 2] == 't')
  }

  /** The join of `a` and `b` cannot create a `<st` spanning the two. */
  predicate Seam(a: string, b: string) {
    a == [] || b == [] || a[|a| - 1] !in "<s" || b[0] !in "st"
  }

  lemma NoStyleTagJoin(a: string, b: string)
    requires NoStyleTag(a) && NoStyleTag(b) && Seam(a, b)
    ensures NoStyleTag(a + b)
  {
    var s := a + b;
    forall i | 0 <= i < |s| - 2 && s[i] == '<'
      ensures !(s[i + 1] == 's' && s[i + 2] == 't')
    {
      if i + 2 < |a| {
        assert s[i] == a[i] && s[i + 1] == a[i + 1] && s[i + 2] == a[i + 2];
      } else if i >= |a| {
        assert s[i] == b[i - |a|] && s[i + 1] == b[i + 1 - |a|] && s[i + 2] == b[i + 2 - |a|];
      } else if i + 1 == |a| {
        assert s[i] == a[|a| - 1] && s[i + 1] == b[0];
      } else {
        assert s[i + 1] == a[|a| - 1] && s[i + 2] == b[0];
      }
    }
  }

  lemma NoStyleTagSeam(a: string, b: string, c: string)
    requires NoStyleTag(a + b) && NoStyleTag(c) && Seam(b, c) && b != []
    ensures NoStyleTag(a + b + c)
  {
    assert (a + b)[|a + b| - 1] == b[|b| - 1];
    NoStyleTagJoin(a + b, c);
  }

  /** A string free of `<` cannot open any tag. */
  lemma NoAngleNoStyleTag(s: string)
    requires '<' !in s
    ensures NoStyleTag(s)
  {
  }

  /** `NoStyleTag` rules out the literal `<style` anywhere. */
  lemma NoStyleTagNoStyle(s: string)
    requires NoStyleTag(s)
    ensures !Occurs("<style", s)
  {
    forall i | 0 <= i <= |s|
      ensures !IsPrefix("<style", s[i..])
    {
      if i + 6 <= |s| {
        assert s[i..][..6][0] == s[i] && s[i..][..6][1] == s[i + 1] && s[i..][..6][2] == s[i + 2];
      }
    }
  }

  /** The longest prefix of `s` that holds no `c`: the text up to the next `c`. */
  function TakeUntil(s: string, c: char): (r: string)
    ensures IsPrefix(r, s) && c !in r
    ensures r == s || s[|r|] == c
  {
    if s == [] || s[0] == c then [] else [s[0]] + TakeUntil(s[1..], c)
  }

  lemma {:induction false} TakeUntilJoin(a: string, b: string, c: char)
    requires c !in a && b != [] && b[0] == c
    ensures TakeUntil(a + b, c) == a
  {
    if a != [] {
      assert (a + b)[0] == a[0] && (a + b)[1..] == a[1..] + b;
      TakeUntilJoin(a[1..], b, c);
    }
  }
}
