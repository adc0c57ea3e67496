/**
 * The fence rule of src/index.ts: the plugin wraps the host renderer's
 * `fence` rule; fences whose language is `mermaid` become a widget, every
 * other fence goes to the rule that was installed before (or, failing
 * that, to the renderer's generic `renderToken`).
 *
 * What the source gets from its surroundings is a parameter here: the
 * previously installed rule and `renderToken` (`Renderer`), the files read at
 * module load and the SVG icons (`Assets`), and the random part of the
 * identifier (`idSuffix`).
 */
module Fence {
  import opened Wrappers
  import opened Text
  import Escape
  import Template

  /** The parts of a fence token the rule reads; `info` may be missing. */
  datatype Token = Token(info: Option<string>, content: string)

  /** The plugin's options, each of which may be left out. `themeVariables`
      is the JSON text of the theme-variable mapping. */
  datatype Options = Options(
    theme: Option<string>,
    jsUrl: Option<string>,
    cssUrl: Option<string>,
    viewerJsUrl: Option<string>,
    themeVariables: Option<string>)

  /** The stylesheet and viewer script read from disk at module load, and the icons. */
  datatype Assets = Assets(viewerScript: string, scopedStyles: string, icon: Template.Action -> string)

  /** A fence rule as the host renderer calls it, for the token at `idx`. */
  type Rule = (seq<Token>, int) -> string

  /** The rule installed before the plugin, if any, and `self.renderToken`. */
  datatype Renderer = Renderer(origFence: Option<Rule>, renderToken: Rule)

  const Keyword: string := "mermaid"
  const DefaultTheme: string := "default"
  const DefaultJsUrl: string := "https://cdn.jsdelivr.net/npm/" + "mermaid@11/dist/mermaid.min.js"
  const IdPrefix: string := "mermaid-"

  /** JavaScript truthiness of an optional string: absent and "" are false. */
  predicate Truthy(o: Option<string>) {
    o.Some? && o.value != ""
  }

  /** `o || fallback`. */
  function OrElse(o: Option<string>, fallback: string): string {
    if Truthy(o) then o.value else fallback
  }

  function ThemeOf(opts: Options): string {
    OrElse(opts.theme, DefaultTheme)
  }

  function JsUrlOf(opts: Options): string {
    OrElse(opts.jsUrl, DefaultJsUrl)
  }

  /** `s.trimStart()`. */
  function TrimStart(s: string): (r: string)
    ensures |r| <= |s| && r == s[|s| - |r|..]
    ensures AllSpace(s[..|s| - |r|])
    ensures r == [] || !IsSpace(r[0])
  {
    if s != [] && IsSpace(s[0]) then TrimStart(s[1..]) else s
  }

  /** `s.trimEnd()`. */
  function TrimEnd(s: string): (r: string)
    ensures IsPrefix(r, s)
    ensures AllSpace(s[|r|..])
    ensures r == [] || !IsSpace(r[|r| - 1])
  {
    if s != [] && IsSpace(s[|s| - 1]) then TrimEnd(s[..|s| - 1]) else s
  }

  /** `s.trim()`: `s` without its leading and trailing whitespace. */
  function Trim(s: string): (r: string)
    ensures r == [] || (!IsSpace(r[0]) && !IsSpace(r[|r| - 1]))
    ensures exists lead :: 0 <= lead <= |s| - |r| && AllSpace(s[..lead])
              && s[lead..][..|r|] == r && AllSpace(s[lead..][|r|..])
  {
    var t := TrimStart(s);
    var r := TrimEnd(t);
    var lead := |s| - |t|;
    assert s[lead..] == t;
    r
  }

  /** `s.split(/\s+/)[0]` for an `s` with no leading whitespace: the longest
      whitespace-free prefix. */
  function FirstWord(s: string): (w: string)
    ensures IsPrefix(w, s) && NoSpace(w)
    ensures w == s || IsSpace(s[|w|])
  {
    if s == [] || IsSpace(s[0]) then [] else [s[0]] + FirstWord(s[1..])
  }

  /** The fence's language: the first word of the trimmed info string, with a
      missing info string read as "". */
  function Lang(info: Option<string>): string {
    FirstWord(Trim(info.GetOr("")))
  }

  /** An info string that marks a diagram: trimmed, it is the word `mermaid`,
      alone or followed by whitespace and whatever else. */
  predicate IsDiagramInfo(info: Option<string>) {
    var t := Trim(info.GetOr(""));
    t == Keyword || (IsPrefix(Keyword, t) && |t| > 7 && IsSpace(t[7]))
  }

  lemma KeywordNoSpace()
    ensures NoSpace(Keyword)
  {
  }

  /** The language is `mermaid` exactly when the trimmed info string is the
      word `mermaid`, alone or followed by whitespace. */
  lemma LangIsKeywordIff(info: Option<string>)
    ensures Lang(info) == Keyword <==> IsDiagramInfo(info)
  {
    var t := Trim(info.GetOr(""));
    KeywordNoSpace();
    if IsPrefix(Keyword, t) {
      assert t[..7] == Keyword;
      if |t| == 7 {
        assert t == Keyword;
        FirstWordAll(t);
      } else if IsSpace(t[7]) {
        FirstWordBefore(t, 7);
      } else {
        FirstWordPast(t, 7);
      }
    }
  }

  /** The first word ends at the first whitespace. */
  lemma {:induction false} FirstWordBefore(s: string, k: nat)
    requires k < |s| && IsSpace(s[k]) && NoSpace(s[..k])
    ensures FirstWord(s) == s[..k]
  {
    if k > 0 {
      assert !IsSpace(s[..k][0]);
      assert s[1..][..k - 1] == s[..k][1..];
      FirstWordBefore(s[1..], k - 1);
      assert s[..k] == [s[0]] + s[1..][..k - 1];
    }
  }

  lemma {:induction false} FirstWordAll(s: string)
    requires NoSpace(s)
    ensures FirstWord(s) == s
  {
    if s != [] {
      FirstWordAll(s[1..]);
    }
  }

  /** A word of more than `k` characters is not the `k`-character prefix. */
  lemma {:induction false} FirstWordPast(s: string, k: nat)
    requires k < |s| && !IsSpace(s[k]) && NoSpace(s[..k])
    ensures |FirstWord(s)| > k
  {
    if k > 0 {
      assert s[0] == s[..k][0];
      assert s[1..][..k - 1] == s[..k][1..];
      FirstWordPast(s[1..], k - 1);
    }
  }

  /** `<link rel="stylesheet" href=URL>` when `css_url` is set, otherwise the
      packaged stylesheet inline. */
  function StyleFragment(opts: Options, assets: Assets): string {
    if Truthy(opts.cssUrl) then Link(opts.cssUrl.value)
    else InlineStyle(assets.scopedStyles)
  }

  function Link(url: string): string {
    "<link rel=\"stylesheet\" href=\"" + url + "\">"
  }

  function InlineStyle(css: string): string {
    "<style>" + css + "</style>"
  }

  /** `window.initMermaidDiagram('ID', 'JS_URL', 'THEME'[, VARS])`. */
  function InitCall(id: string, jsUrl: string, theme: string, vars: Option<string>): string {
    "window.initMermaidDiagram('" + id + "', '" + jsUrl + "', '" + theme + "'"
    + (if vars.Some? then ", " + vars.value else "") + ")"
  }

  /** The viewer definition, guarded so a page defines it at most once. */
  function GuardedViewer(viewerScript: string): string {
    "if (!window.initMermaidDiagram)" + " {\n          " + viewerScript + "\n        }"
  }

  function ScriptSrc(url: string): string {
    "<script src=\"" + url + "\"></script>"
  }

  /** The script part: the external viewer and a three-argument call when
      `viewer_js_url` is set; otherwise the viewer inline and a four-argument
      call passing the theme variables (`{}` when absent). */
  function ScriptFragment(opts: Options, assets: Assets, id: string): string {
    if Truthy(opts.viewerJsUrl) then
      ScriptSrc(opts.viewerJsUrl.value)
      + "<script>" + InitCall(id, JsUrlOf(opts), ThemeOf(opts), None) + "</script>"
    else
      "<script>\n        " + GuardedViewer(assets.viewerScript) + "\n        "
      + InitCall(id, JsUrlOf(opts), ThemeOf(opts), Some(opts.themeVariables.GetOr("{}")))
      + ";\n      </script>"
  }

  /** The fixed text of the container template, in order; each piece is
      written as chunks of a few dozen characters. */
  const ContainerOpen: string := "\n<div id=\""
  const ContainerClass: string := "\" class=\"mermaid-container\">\n  "
  const WrapperOpen: string := "\n  <div class=\"mermaid-wrapper\">\n\t"
  const ViewOpen: string := "\n\n    <div class=" + "\"mermaid-view-container\">\n      "
  const ContentOpen: string := "\n\n      <pre class=" + "\"mermaid-content\">\n         "
  const CodeOpen: string := "<code class=\"mermaid-code\"" + " style=\"display: none;\">"
  const CodeClose: string := "</code>" + "\n      </pre>\n    </div>\n  </div>\n  "
  const ContainerClose: string := "\n</div>"

  /** Everything the widget puts before the escaped source. */
  function Head(id: string, css: string, toolbar: string, grid: string): string {
    ContainerOpen + id + ContainerClass + css + WrapperOpen + toolbar + ViewOpen + grid + ContentOpen + CodeOpen
  }

  /** Everything the widget puts after the escaped source. */
  function Tail(script: string): string {
    CodeClose + script + ContainerClose
  }

  /** The container template, with the parts the source substitutes into it. */
  function Container(id: string, css: string, toolbar: string, grid: string, code: string, script: string): string {
    Head(id, css, toolbar, grid) + code + Tail(script)
  }

  /** The widget for one diagram: container, style, toolbar, grid panel,
      hidden escaped source and script. */
  function Widget(opts: Options, assets: Assets, id: string, content: string): string {
    Container(id, StyleFragment(opts, assets), Template.ToolbarHtml(assets.icon),
              Template.GridHtml(assets.icon), Escape.EscapeHtml(content),
              ScriptFragment(opts, assets, id))
  }

  /** What the rule produces for a fence it does not handle. */
  function Delegate(renderer: Renderer, tokens: seq<Token>, idx: int): string {
    if renderer.origFence.Some? then renderer.origFence.value(tokens, idx)
    else renderer.renderToken(tokens, idx)
  }

  /** The plugin's fence rule for the token at `idx`. */
  function RenderFence(tokens: seq<Token>, idx: int, opts: Options, assets: Assets,
                       renderer: Renderer, idSuffix: string): (r: string)
    ensures !(0 <= idx < |tokens|) ==> r == ""
    ensures 0 <= idx < |tokens| && !IsDiagramInfo(tokens[idx].info) && renderer.origFence.Some? ==>
              r == renderer.origFence.value(tokens, idx)
    ensures 0 <= idx < |tokens| && !IsDiagramInfo(tokens[idx].info) && renderer.origFence.None? ==>
              r == renderer.renderToken(tokens, idx)
    ensures 0 <= idx < |tokens| && IsDiagramInfo(tokens[idx].info) ==>
              r == Widget(opts, assets, IdPrefix + idSuffix, tokens[idx].content)
  {
    if !(0 <= idx < |tokens|) then ""
    else
      var token := tokens[idx];
      LangIsKeywordIff(token.info);
      if Lang(token.info) != Keyword then Delegate(renderer, tokens, idx)
      else Widget(opts, assets, IdPrefix + idSuffix, token.content)
  }
}
