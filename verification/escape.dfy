/**
 * The diagram markup escaper of src/index.ts: five global single-character
 * replacements applied in a fixed order, `&` first.
 *
 * `EscapeHtml` is written the way the source writes it, as a pipeline of
 * `ReplaceAll` steps; `Escaped` is an independent per-character reference.
 * `EscapeHtmlIsPerChar` shows they agree, and `Unescape` (a left-to-right
 * decoder of the five character references, as an HTML parser reads text)
 * inverts them.
 */
module Escape {

  /** The character reference that replaces `c`, or `c` itself. */
  function EscapeChar(c: char): (r: string)
    ensures |r| >= 1
    ensures IsSpecial(c) <==> r != [c]
    ensures r[0] == '&' <==> IsSpecial(c)
    ensures forall k :: 1 <= k < |r| ==> r[k] !in "&<>\"'"
  {
    match c
    case '&' => "&amp;"
    case '<' => "&lt;"
    case '>' => "&gt;"
    case '"' => "&quot;"
    case '\'' => "&#39;"
    case _ => [c]
  }

  predicate IsSpecial(c: char) {
    c == '&' || c == '<' || c == '>' || c == '"' || c == '\''
  }

  /** One of the five references `EscapeHtml` emits begins `s`. */
  predicate StartsEntity(s: string) {
    || (|s| >= 5 && s[..5] == "&amp;")
    || (|s| >= 4 && s[..4] == "&lt;")
    || (|s| >= 4 && s[..4] == "&gt;")
    || (|s| >= 6 && s[..6] == "&quot;")
    || (|s| >= 5 && s[..5] == "&#39;")
  }

  /** What an escaped string looks like: no `<`, `>`, `"` or `'`, and every
      `&` begins one of the five references. */
  predicate WellEscaped(s: string) {
    && '<' !in s && '>' !in s && '"' !in s && '\'' !in s
    && forall i :: 0 <= i < |s| && s[i] == '&' ==> StartsEntity(s[i..])
  }

  /** `text.replace(/c/g, rep)`: every occurrence of `c` becomes `rep`. */
  function ReplaceAll(s: string, c: char, rep: string): (r: string)
    ensures c !in s ==> r == s
    ensures c !in rep ==> c !in r
    ensures |r| >= |s| || |rep| == 0
  {
    if s == [] then []
    else (if s[0] == c then rep else [s[0]]) + ReplaceAll(s[1..], c, rep)
  }

  lemma {:induction false} ReplaceAllJoin(a: string, b: string, c: char, rep: string)
    ensures ReplaceAll(a + b, c, rep) == ReplaceAll(a, c, rep) + ReplaceAll(b, c, rep)
  {
    if a != [] {
      assert (a + b)[0] == a[0] && (a + b)[1..] == a[1..] + b;
      ReplaceAllJoin(a[1..], b, c, rep);
    } else {
      assert a + b == b;
    }
  }

  lemma ReplaceAllSingle(x: char, c: char, rep: string)
    ensures ReplaceAll([x], c, rep) == if x == c then rep else [x]
  {
    assert [x][1..] == [];
  }

  /** The source's `escapeHtml`, step for step. */
  function EscapeHtml(text: string): (r: string)
    ensures r == Escaped(text)
    ensures WellEscaped(r)
    ensures |r| >= |text|
    ensures (forall i :: 0 <= i < |text| ==> !IsSpecial(text[i])) ==> r == text
  {
    EscapeHtmlIsPerChar(text);
    Pipeline(text)
  }

  function Pipeline(text: string): string {
    var amp := ReplaceAll(text, '&', "&amp;");
    var lt := ReplaceAll(amp, '<', "&lt;");
    var gt := ReplaceAll(lt, '>', "&gt;");
    var quot := ReplaceAll(gt, '"', "&quot;");
    ReplaceAll(quot, '\'', "&#39;")
  }

  /** The reference escaper: each character replaced by its own reference. */
  function Escaped(s: string): (r: string)
    ensures WellEscaped(r)
    ensures |r| >= |s|
    ensures (forall i :: 0 <= i < |s| ==> !IsSpecial(s[i])) ==> r == s
  {
    if s == [] then []
    else
      var head := EscapeChar(s[0]);
      var tail := Escaped(s[1..]);
      EscapedJoinWell(s[0], tail);
      head + tail
  }

  lemma EscapedJoinWell(c: char, tail: string)
    requires WellEscaped(tail)
    ensures WellEscaped(EscapeChar(c) + tail)
  {
    var head := EscapeChar(c);
    var s := head + tail;
    forall i | 0 <= i < |s| && s[i] == '&'
      ensures StartsEntity(s[i..])
    {
      if i < |head| {
        assert i == 0;
        EscapeCharStartsEntity(c, tail);
      } else {
        DropJoin(head, tail, i - |head|);
      }
    }
  }

  lemma EscapeCharStartsEntity(c: char, tail: string)
    requires EscapeChar(c)[0] == '&'
    ensures StartsEntity(EscapeChar(c) + tail)
  {
    var e := EscapeChar(c);
    assert (e + tail)[..|e|] == e;
  }

  lemma DropJoin(a: string, b: string, k: nat)
    requires k <= |b|
    ensures (a + b)[|a| + k..] == b[k..]
  {
  }

  lemma PipelineJoin(a: string, b: string)
    ensures Pipeline(a + b) == Pipeline(a) + Pipeline(b)
  {
    var amp := ReplaceAll(a + b, '&', "&amp;");
    ReplaceAllJoin(a, b, '&', "&amp;");
    var a1, b1 := ReplaceAll(a, '&', "&amp;"), ReplaceAll(b, '&', "&amp;");
    ReplaceAllJoin(a1, b1, '<', "&lt;");
    var a2, b2 := ReplaceAll(a1, '<', "&lt;"), ReplaceAll(b1, '<', "&lt;");
    ReplaceAllJoin(a2, b2, '>', "&gt;");
    var a3, b3 := ReplaceAll(a2, '>', "&gt;"), ReplaceAll(b2, '>', "&gt;");
    ReplaceAllJoin(a3, b3, '"', "&quot;");
    var a4, b4 := ReplaceAll(a3, '"', "&quot;"), ReplaceAll(b3, '"', "&quot;");
    ReplaceAllJoin(a4, b4, '\'', "&#39;");
  }

  /** On one character the pipeline yields that character's reference: each
      reference a step introduces holds none of the characters later steps
      replace, which is why `&` has to go first. */
  lemma PipelineSingle(x: char)
    ensures Pipeline([x]) == EscapeChar(x)
  {
    var a1 := ReplaceAll([x], '&', "&amp;");
    ReplaceAllSingle(x, '&', "&amp;");
    if x == '&' {
      PipelineKeeps(a1, 2);
    } else {
      var a2 := ReplaceAll(a1, '<', "&lt;");
      ReplaceAllSingle(x, '<', "&lt;");
      if x == '<' {
        PipelineKeeps(a2, 3);
      } else {
        var a3 := ReplaceAll(a2, '>', "&gt;");
        ReplaceAllSingle(x, '>', "&gt;");
        if x == '>' {
          PipelineKeeps(a3, 4);
        } else {
          ReplaceAllSingle(x, '"', "&quot;");
          ReplaceAllSingle(x, '\'', "&#39;");
        }
      }
    }
  }

  /** The pipeline's later steps leave alone a text free of the characters
      they replace. */
  lemma PipelineKeeps(e: string, from: nat)
    requires 2 <= from <= 4
    requires from <= 2 ==> '<' !in e
    requires from <= 3 ==> '>' !in e
    requires '"' !in e && '\'' !in e
    ensures from == 2 ==> ReplaceAll(ReplaceAll(ReplaceAll(ReplaceAll(e, '<', "&lt;"), '>', "&gt;"), '"', "&quot;"), '\'', "&#39;") == e
    ensures from == 3 ==> ReplaceAll(ReplaceAll(ReplaceAll(e, '>', "&gt;"), '"', "&quot;"), '\'', "&#39;") == e
    ensures from == 4 ==> ReplaceAll(ReplaceAll(e, '"', "&quot;"), '\'', "&#39;") == e
  {
  }

  /** The source's pipeline and the per-character reference agree on every input. */
  lemma {:induction false} EscapeHtmlIsPerChar(s: string)
    ensures Pipeline(s) == Escaped(s)
  {
    if s != [] {
      assert s == [s[0]] + s[1..];
      PipelineJoin([s[0]], s[1..]);
      PipelineSingle(s[0]);
      EscapeHtmlIsPerChar(s[1..]);
    }
  }

  /** Decodes the five references `EscapeHtml` emits, left to right; any other
      character, including an `&` that begins none of them, is kept. */
  function Unescape(s: string): string
    decreases |s|
  {
    if s == [] then []
    else if |s| >= 5 && s[..5] == "&amp;" then "&" + Unescape(s[5..])
    else if |s| >= 4 && s[..4] == "&lt;" then "<" + Unescape(s[4..])
    else if |s| >= 4 && s[..4] == "&gt;" then ">" + Unescape(s[4..])
    else if |s| >= 6 && s[..6] == "&quot;" then "\"" + Unescape(s[6..])
    else if |s| >= 5 && s[..5] == "&#39;" then "'" + Unescape(s[5..])
    else [s[0]] + Unescape(s[1..])
  }

  lemma UnescapeHead(c: char, rest: string)
    ensures Unescape(EscapeChar(c) + rest) == [c] + Unescape(rest)
  {
    var e := EscapeChar(c);
    var s := e + rest;
    assert s[..|e|] == e && s[|e|..] == rest;
    match c
    case '&' =>
    case '<' => assert |s| >= 5 ==> s[..5][1] == 'l';
    case '>' => assert |s| >= 5 ==> s[..5][1] == 'g';
    case '"' => assert s[..5][1] == 'q' && s[..4][1] == 'q';
    case '\'' => assert (|s| >= 6 ==> s[..6][1] == '#') && s[..4][1] == '#';
    case _ => UnescapePlain(c, rest);
  }

  lemma UnescapePlain(c: char, rest: string)
    requires !IsSpecial(c)
    ensures Unescape([c] + rest) == [c] + Unescape(rest)
  {
    var s := [c] + rest;
    assert s[1..] == rest;
    assert |s| >= 4 ==> s[..4][0] == c;
    assert |s| >= 5 ==> s[..5][0] == c;
    assert |s| >= 6 ==> s[..6][0] == c;
  }

  /** Unescaping undoes escaping: the source text is recovered exactly. */
  lemma {:induction false} UnescapeEscaped(s: string)
    ensures Unescape(Escaped(s)) == s
  {
    if s != [] {
      UnescapeHead(s[0], Escaped(s[1..]));
      UnescapeEscaped(s[1..]);
    }
  }

  lemma UnescapeEscapeHtml(s: string)
    ensures Unescape(EscapeHtml(s)) == s
  {
    UnescapeEscaped(s);
  }

  /** Why `&` must be replaced first: on the one input `<`, the same steps with
      `&` moved last escape `<` twice over, and the decoder no longer gets the
      text back. This documents one concrete case; it is not stated for all
      inputs. */
  lemma AmpersandLastDoubleEscapes()
    ensures ReplaceAll(ReplaceAll("<", '<', "&lt;"), '&', "&amp;") == "&amp;lt;"
    ensures Unescape("&amp;lt;") == "&lt;" != "<"
  {
    ReplaceAllSingle('<', '<', "&lt;");
    AmpersandOfLt();
    UnescapeAmpLt();
  }

  lemma AmpersandOfLt()
    ensures ReplaceAll("&lt;", '&', "&amp;") == "&amp;lt;"
  {
    assert "&lt;" == "&" + "lt;";
    ReplaceAllJoin("&", "lt;", '&', "&amp;");
    ReplaceAllSingle('&', '&', "&amp;");
    assert "&amp;" + "lt;" == "&amp;lt;";
  }

  lemma UnescapeAmpLt()
    ensures Unescape("&amp;lt;") == "&lt;"
  {
    assert "&amp;lt;" == EscapeChar('&') + "lt;";
    UnescapeHead('&', "lt;");
    assert "lt;" == EscapeChar('l') + "t;";
    UnescapeHead('l', "t;");
    assert "t;" == EscapeChar('t') + ";";
    UnescapeHead('t', ";");
    assert ";" == EscapeChar(';') + "";
    UnescapeHead(';', "");
  }
}
