/**
 * What the fence rule of src/index.ts promises its callers: which fences it
 * takes, that it leaves every other fence to the rule before it, and what
 * the widget it emits contains for each combination of options.
 */
module FenceProperties {
  import opened Wrappers
  import opened Text
  import Escape
  import Template
  import opened Fence

  /** A missing info string is no diagram. */
  lemma MissingInfoIsNotDiagram()
    ensures Lang(None) == ""
  {
    assert Trim("") == "";
  }

  /** The keyword match is case-sensitive: `Mermaid` is some other language. */
  lemma KeywordIsCaseSensitive(rest: string)
    ensures Lang(Some("Mermaid" + rest)) != Keyword
  {
    var s := "Mermaid" + rest;
    assert s[0] == 'M' && !IsSpace(s[0]);
    assert TrimStart(s) == s;
    var t := Trim(s);
    assert IsPrefix(t, s);
    assert t != [] && t[0] == 'M';
    var w := FirstWord(t);
    assert w == [] || w[0] == 'M';
  }

  /** A token that is not there renders as nothing. */
  lemma MissingTokenRendersEmpty(tokens: seq<Token>, idx: int, opts: Options, assets: Assets,
                                 renderer: Renderer, idSuffix: string)
    requires !(0 <= idx < |tokens|)
    ensures RenderFence(tokens, idx, opts, assets, renderer, idSuffix) == ""
  {
  }

  /** Any fence that is not a diagram gets exactly what the previous rule (or,
      with none installed, `renderToken`) would have produced; options,
      assets and identifier have no say. */
  lemma OtherFencesDelegate(tokens: seq<Token>, idx: int, opts: Options, assets: Assets,
                            renderer: Renderer, idSuffix: string)
    requires 0 <= idx < |tokens|
    requires var t := Trim(tokens[idx].info.GetOr(""));
      !(t == Keyword || (IsPrefix(Keyword, t) && |t| > 7 && IsSpace(t[7])))
    ensures var r := RenderFence(tokens, idx, opts, assets, renderer, idSuffix);
      && (renderer.origFence.Some? ==> r == renderer.origFence.value(tokens, idx))
      && (renderer.origFence.None? ==> r == renderer.renderToken(tokens, idx))
  {
  }

  /** A fence tagged `mermaid` (optionally followed by other words) becomes
      the widget, whatever the rule before it would have done. */
  lemma DiagramFenceBecomesWidget(tokens: seq<Token>, idx: int, opts: Options, assets: Assets,
                                  renderer: Renderer, idSuffix: string)
    requires 0 <= idx < |tokens|
    requires var t := Trim(tokens[idx].info.GetOr(""));
      t == Keyword || (IsPrefix(Keyword, t) && |t| > 7 && IsSpace(t[7]))
    ensures RenderFence(tokens, idx, opts, assets, renderer, idSuffix)
            == Widget(opts, assets, IdPrefix + idSuffix, tokens[idx].content)
  {
  }


  /** The container opens with `<div id="ID"`, so the identifier can be read
      back from it. */
  lemma ContainerId(id: string, css: string, toolbar: string, grid: string, code: string, script: string)
    requires '"' !in id
    ensures var r := Container(id, css, toolbar, grid, code, script);
      IsPrefix(ContainerOpen, r) && TakeUntil(r[|ContainerOpen|..], '"') == id
  {
    var r := Container(id, css, toolbar, grid, code, script);
    var x := ContainerOpen + id + ContainerClass;
    PrefixJoin(x, css);
    var h := x + css;
    PrefixExtend(x, h, WrapperOpen);
    h := h + WrapperOpen;
    PrefixExtend(x, h, toolbar);
    h := h + toolbar;
    PrefixExtend(x, h, ViewOpen);
    h := h + ViewOpen;
    PrefixExtend(x, h, grid);
    h := h + grid;
    PrefixExtend(x, h, ContentOpen);
    h := h + ContentOpen;
    PrefixExtend(x, h, CodeOpen);
    h := h + CodeOpen;
    assert h == Head(id, css, toolbar, grid);
    PrefixExtend(x, h, code);
    PrefixExtend(x, h + code, Tail(script));
    assert ContainerClass[0] == '"';
    ReadBack(ContainerOpen, id, ContainerClass, r, '"');
    PrefixJoin(ContainerOpen, id);
    PrefixExtend(ContainerOpen, ContainerOpen + id, ContainerClass);
    PrefixTrans(ContainerOpen, x, r);
  }

  /** The widget's container carries the identifier `mermaid-…`, and the
      identifier can be read back from its `id` attribute. */
  lemma WidgetId(opts: Options, assets: Assets, idSuffix: string, content: string)
    requires '"' !in idSuffix
    ensures var r := Widget(opts, assets, IdPrefix + idSuffix, content);
      && IsPrefix(ContainerOpen, r)
      && TakeUntil(r[|ContainerOpen|..], '"') == IdPrefix + idSuffix
      && IsPrefix("mermaid-", TakeUntil(r[|ContainerOpen|..], '"'))
  {
    var id := IdPrefix + idSuffix;
    assert '"' !in id;
    ContainerId(id, StyleFragment(opts, assets), Template.ToolbarHtml(assets.icon),
                Template.GridHtml(assets.icon), Escape.EscapeHtml(content), ScriptFragment(opts, assets, id));
  }

  /** Everything before the escaped source in a widget. */
  function WidgetHead(opts: Options, assets: Assets, id: string): string {
    Head(id, StyleFragment(opts, assets), Template.ToolbarHtml(assets.icon), Template.GridHtml(assets.icon))
  }

  lemma ContainerSplits(id: string, css: string, toolbar: string, grid: string, code: string, script: string)
    ensures var r := Container(id, css, toolbar, grid, code, script);
      var head := Head(id, css, toolbar, grid);
      IsPrefix(head, r) && r[|head|..] == code + Tail(script)
      && |CodeOpen| <= |head| && head[|head| - |CodeOpen|..] == CodeOpen
  {
    var head := Head(id, css, toolbar, grid);
    var r := Container(id, css, toolbar, grid, code, script);
    SplitFirst(head, code, Tail(script));
    var before := ContainerOpen + id + ContainerClass + css + WrapperOpen + toolbar + ViewOpen + grid + ContentOpen;
    PrefixJoin(before, CodeOpen);
  }

  /** Dropping the first part of a three-part join leaves the other two. */
  lemma SplitFirst(a: string, b: string, c: string)
    ensures IsPrefix(a, a + b + c) && (a + b + c)[|a|..] == b + c
  {
    assert (a + b + c)[..|a|] == a;
  }

  /** The hidden code element holds the fence content escaped: the text from
      its opening tag up to the next tag is followed by `</code>` and
      unescapes to the content exactly. */
  lemma WidgetSource(opts: Options, assets: Assets, id: string, content: string)
    ensures var r := Widget(opts, assets, id, content);
      var head := WidgetHead(opts, assets, id);
      && IsPrefix(head, r)
      && |CodeOpen| <= |head| && head[|head| - |CodeOpen|..] == CodeOpen
      && var text := TakeUntil(r[|head|..], '<');
         Escape.Unescape(text) == content && IsPrefix(text + "</code>", r[|head|..])
  {
    var code := Escape.EscapeHtml(content);
    var script := ScriptFragment(opts, assets, id);
    ContainerSplits(id, StyleFragment(opts, assets), Template.ToolbarHtml(assets.icon),
                    Template.GridHtml(assets.icon), code, script);
    TailOpensWithCodeClose(script);
    CodeReadBack(code, Tail(script));
    Escape.UnescapeEscapeHtml(content);
  }

  /** Text with no `<`, followed by the closing `</code>`, is read back
      exactly by scanning to the next `<`. */
  lemma CodeReadBack(code: string, tail: string)
    requires '<' !in code && IsPrefix("</code>", tail)
    ensures TakeUntil(code + tail, '<') == code && IsPrefix(code + "</code>", code + tail)
  {
    assert tail[0] == tail[..7][0] == '<';
    TakeUntilJoin(code, tail, '<');
    PrefixPrepend(code, "</code>", tail);
  }

  lemma TailOpensWithCodeClose(script: string)
    ensures IsPrefix("</code>", Tail(script))
  {
    PrefixJoin("</code>", "\n      </pre>\n    </div>\n  </div>\n  ");
    PrefixExtend("</code>", CodeClose, script);
    PrefixExtend("</code>", CodeClose + script, ContainerClose);
  }

  lemma ContainerHasStyle(id: string, css: string, toolbar: string, grid: string, code: string, script: string)
    ensures Occurs(css, Container(id, css, toolbar, grid, code, script))
  {
    var h := ContainerOpen + id + ContainerClass;
    OccursEnd(h, css);
    h := h + css;
    OccursExtend(css, h, WrapperOpen);
    h := h + WrapperOpen;
    OccursExtend(css, h, toolbar);
    h := h + toolbar;
    OccursExtend(css, h, ViewOpen);
    h := h + ViewOpen;
    OccursExtend(css, h, grid);
    h := h + grid;
    OccursExtend(css, h, ContentOpen);
    h := h + ContentOpen;
    OccursExtend(css, h, CodeOpen);
    h := h + CodeOpen;
    OccursExtend(css, h, code);
    OccursExtend(css, h + code, Tail(script));
  }

  lemma ContainerHasScript(id: string, css: string, toolbar: string, grid: string, code: string, script: string, p: string)
    requires Occurs(p, script)
    ensures Occurs(p, Container(id, css, toolbar, grid, code, script))
  {
    OccursExtend(p, script, CodeClose);
    OccursExtend(p, CodeClose + script, ContainerClose);
    OccursExtend(p, Tail(script), Head(id, css, toolbar, grid) + code);
  }

  lemma WidgetHasStyle(opts: Options, assets: Assets, id: string, content: string)
    ensures Occurs(StyleFragment(opts, assets), Widget(opts, assets, id, content))
  {
    ContainerHasStyle(id, StyleFragment(opts, assets), Template.ToolbarHtml(assets.icon),
                      Template.GridHtml(assets.icon), Escape.EscapeHtml(content), ScriptFragment(opts, assets, id));
  }

  /** With `css_url` set the widget links that stylesheet; without it, the
      packaged stylesheet is inlined. */
  lemma WidgetStyle(opts: Options, assets: Assets, id: string, content: string)
    ensures Truthy(opts.cssUrl) ==> Occurs(Link(opts.cssUrl.value), Widget(opts, assets, id, content))
    ensures !Truthy(opts.cssUrl) ==> Occurs(InlineStyle(assets.scopedStyles), Widget(opts, assets, id, content))
  {
    WidgetLinksStylesheet(opts, assets, id, content);
    WidgetInlinesStylesheet(opts, assets, id, content);
  }

  lemma WidgetLinksStylesheet(opts: Options, assets: Assets, id: string, content: string)
    ensures Truthy(opts.cssUrl) ==> Occurs(Link(opts.cssUrl.value), Widget(opts, assets, id, content))
  {
    WidgetHasStyle(opts, assets, id, content);
  }

  lemma WidgetInlinesStylesheet(opts: Options, assets: Assets, id: string, content: string)
    ensures !Truthy(opts.cssUrl) ==> Occurs(InlineStyle(assets.scopedStyles), Widget(opts, assets, id, content))
  {
    WidgetHasStyle(opts, assets, id, content);
  }

  lemma OccursSelf(p: string)
    ensures Occurs(p, p)
  {
    assert IsPrefix(p, p[0..]);
  }

  /** The external script part loads the viewer from `url` and calls it with
      three arguments; the inline one defines it under a guard and passes the
      theme variables as a fourth argument. */
  lemma ScriptParts(opts: Options, assets: Assets, id: string)
    ensures var script := ScriptFragment(opts, assets, id);
      && (Truthy(opts.viewerJsUrl) ==>
            && Occurs(ScriptSrc(opts.viewerJsUrl.value), script)
            && Occurs(InitCall(id, JsUrlOf(opts), ThemeOf(opts), None), script))
      && (!Truthy(opts.viewerJsUrl) ==>
            && Occurs(GuardedViewer(assets.viewerScript), script)
            && Occurs(InitCall(id, JsUrlOf(opts), ThemeOf(opts), Some(opts.themeVariables.GetOr("{}"))), script))
  {
    var js, theme := JsUrlOf(opts), ThemeOf(opts);
    if Truthy(opts.viewerJsUrl) {
      var src := ScriptSrc(opts.viewerJsUrl.value);
      var call := InitCall(id, js, theme, None);
      OccursSelf(src);
      OccursExtend(src, src, "<script>");
      OccursExtend(src, src + "<script>", call);
      OccursExtend(src, src + "<script>" + call, "</script>");
      OccursEnd(src + "<script>", call);
      OccursExtend(call, src + "<script>" + call, "</script>");
    } else {
      var guard := GuardedViewer(assets.viewerScript);
      var call := InitCall(id, js, theme, Some(opts.themeVariables.GetOr("{}")));
      var open, gap, close := "<script>\n        ", "\n        ", ";\n      </script>";
      OccursEnd(open, guard);
      OccursExtend(guard, open + guard, gap);
      OccursExtend(guard, open + guard + gap, call);
      OccursExtend(guard, open + guard + gap + call, close);
      OccursEnd(open + guard + gap, call);
      OccursExtend(call, open + guard + gap + call, close);
    }
  }

  /** With `viewer_js_url` set the widget loads the viewer from there and
      calls it with three arguments; otherwise it defines the viewer inline,
      guarded against a second definition, and calls it with the theme
      variables as a fourth argument. */
  lemma WidgetScript(opts: Options, assets: Assets, id: string, content: string)
    ensures Truthy(opts.viewerJsUrl) ==>
              && Occurs(ScriptSrc(opts.viewerJsUrl.value), Widget(opts, assets, id, content))
              && Occurs(InitCall(id, JsUrlOf(opts), ThemeOf(opts), None), Widget(opts, assets, id, content))
    ensures !Truthy(opts.viewerJsUrl) ==>
              && Occurs(GuardedViewer(assets.viewerScript), Widget(opts, assets, id, content))
              && Occurs(InitCall(id, JsUrlOf(opts), ThemeOf(opts), Some(opts.themeVariables.GetOr("{}"))),
                        Widget(opts, assets, id, content))
  {
    var css, toolbar, grid := StyleFragment(opts, assets), Template.ToolbarHtml(assets.icon), Template.GridHtml(assets.icon);
    var code, script := Escape.EscapeHtml(content), ScriptFragment(opts, assets, id);
    ScriptParts(opts, assets, id);
    var js, theme := JsUrlOf(opts), ThemeOf(opts);
    if Truthy(opts.viewerJsUrl) {
      ContainerHasScript(id, css, toolbar, grid, code, script, ScriptSrc(opts.viewerJsUrl.value));
      ContainerHasScript(id, css, toolbar, grid, code, script, InitCall(id, js, theme, None));
    } else {
      ContainerHasScript(id, css, toolbar, grid, code, script, GuardedViewer(assets.viewerScript));
      ContainerHasScript(id, css, toolbar, grid, code, script,
                         InitCall(id, js, theme, Some(opts.themeVariables.GetOr("{}"))));
    }
  }

  /** With `viewer_js_url` set the script part inlines no viewer: it holds no
      `{`, so neither the guarded definition nor a four-argument call whose
      theme variables are a JSON object (as `JSON.stringify` of a mapping
      always is) can occur in it, as long as the URLs, theme and identifier
      substituted into it have no `{` of their own. */
  lemma ExternalViewerNotInlined(opts: Options, assets: Assets, id: string)
    requires Truthy(opts.viewerJsUrl) && '{' !in opts.viewerJsUrl.value
    requires Truthy(opts.jsUrl) ==> '{' !in opts.jsUrl.value
    requires Truthy(opts.theme) ==> '{' !in opts.theme.value
    requires '{' !in id
    ensures '{' !in ScriptFragment(opts, assets, id)
    ensures !Occurs(GuardedViewer(assets.viewerScript), ScriptFragment(opts, assets, id))
    ensures '{' in opts.themeVariables.GetOr("{}") ==>
              !Occurs(InitCall(id, JsUrlOf(opts), ThemeOf(opts), Some(opts.themeVariables.GetOr("{}"))),
                      ScriptFragment(opts, assets, id))
  {
    var script := ScriptFragment(opts, assets, id);
    ExternalScriptNoBrace(opts, assets, id);
    GuardHasBrace(assets.viewerScript);
    if Occurs(GuardedViewer(assets.viewerScript), script) {
      OccursChars(GuardedViewer(assets.viewerScript), script, '{');
    }
    var call := InitCall(id, JsUrlOf(opts), ThemeOf(opts), Some(opts.themeVariables.GetOr("{}")));
    if '{' in opts.themeVariables.GetOr("{}") && Occurs(call, script) {
      CallKeepsVars(id, JsUrlOf(opts), ThemeOf(opts), opts.themeVariables.GetOr("{}"), '{');
      OccursChars(call, script, '{');
    }
  }

  lemma ExternalScriptNoBrace(opts: Options, assets: Assets, id: string)
    requires Truthy(opts.viewerJsUrl) && '{' !in opts.viewerJsUrl.value
    requires Truthy(opts.jsUrl) ==> '{' !in opts.jsUrl.value
    requires Truthy(opts.theme) ==> '{' !in opts.theme.value
    requires '{' !in id
    ensures '{' !in ScriptFragment(opts, assets, id)
  {
    DefaultsNoBrace();
    CallNoBrace(id, JsUrlOf(opts), ThemeOf(opts));
    var src, call := ScriptSrc(opts.viewerJsUrl.value), InitCall(id, JsUrlOf(opts), ThemeOf(opts), None);
    assert '{' !in src;
    assert ScriptFragment(opts, assets, id) == src + "<script>" + call + "</script>";
  }

  lemma DefaultsNoBrace()
    ensures '{' !in DefaultJsUrl && '{' !in DefaultTheme
  {
    var a, b := "https://cdn.jsdelivr.net/npm/", "mermaid@11/dist/mermaid.min.js";
    assert '{' !in a && '{' !in b;
    assert DefaultJsUrl == a + b;
  }

  lemma CallNoBrace(id: string, jsUrl: string, theme: string)
    requires '{' !in id && '{' !in jsUrl && '{' !in theme
    ensures '{' !in InitCall(id, jsUrl, theme, None)
  {
  }

  lemma GuardHasBrace(viewerScript: string)
    ensures '{' in GuardedViewer(viewerScript)
  {
    assert GuardedViewer(viewerScript)[32] == '{';
  }

  /** A four-argument call holds every character of its theme variables. */
  lemma CallKeepsVars(id: string, jsUrl: string, theme: string, vars: string, c: char)
    requires c in vars
    ensures c in InitCall(id, jsUrl, theme, Some(vars))
  {
  }

  /** With no options at all: the default theme, the default mermaid build,
      the inline stylesheet, the inline guarded viewer, and `{}` as the theme
      variables. */
  lemma DefaultWidget(assets: Assets, id: string, content: string)
    ensures Occurs(InlineStyle(assets.scopedStyles), Widget(Options(None, None, None, None, None), assets, id, content))
    ensures Occurs(GuardedViewer(assets.viewerScript), Widget(Options(None, None, None, None, None), assets, id, content))
    ensures Occurs(InitCall(id, DefaultJsUrl, DefaultTheme, Some("{}")),
                   Widget(Options(None, None, None, None, None), assets, id, content))
  {
    var opts := Options(None, None, None, None, None);
    assert !Truthy(opts.cssUrl) && !Truthy(opts.viewerJsUrl);
    assert JsUrlOf(opts) == DefaultJsUrl && ThemeOf(opts) == DefaultTheme;
    assert opts.themeVariables.GetOr("{}") == "{}";
    WidgetStyle(opts, assets, id, content);
    WidgetScript(opts, assets, id, content);
  }

  /** What the widget substitutes from its inputs holds no `<st`. */
  predicate InputsStyleFree(opts: Options, assets: Assets, id: string) {
    && (Truthy(opts.cssUrl) ==> NoStyleTag(opts.cssUrl.value))
    && (Truthy(opts.viewerJsUrl) ==> NoStyleTag(opts.viewerJsUrl.value))
    && (!Truthy(opts.viewerJsUrl) ==> NoStyleTag(assets.viewerScript) && NoStyleTag(opts.themeVariables.GetOr("{}")))
    && (Truthy(opts.jsUrl) ==> NoStyleTag(opts.jsUrl.value))
    && (Truthy(opts.theme) ==> NoStyleTag(opts.theme.value))
    && NoStyleTag(id)
    && forall a :: NoStyleTag(assets.icon(a))
  }

  /** With `css_url` set the widget has no `<style` element at all, as long as
      the texts substituted into it have none of their own. */
  lemma CssUrlMeansNoInlineStyle(opts: Options, assets: Assets, id: string, content: string)
    requires Truthy(opts.cssUrl)
    requires InputsStyleFree(opts, assets, id)
    ensures !Occurs("<style", Widget(opts, assets, id, content))
  {
    var css := StyleFragment(opts, assets);
    LinkNoStyleTag(opts.cssUrl.value);
    Template.ToolbarNoStyleTag(assets.icon);
    Template.GridNoStyleTag(assets.icon);
    ScriptNoStyleTag(opts, assets, id);
    ContainerNoStyleTag(id, css, Template.ToolbarHtml(assets.icon), Template.GridHtml(assets.icon),
                        Escape.EscapeHtml(content), ScriptFragment(opts, assets, id));
    NoStyleTagNoStyle(Widget(opts, assets, id, content));
  }

  /** The container opens no `<st` tag of its own, and the escaped source,
      having no `<`, cannot open one either. */
  lemma ContainerNoStyleTag(id: string, css: string, toolbar: string, grid: string, code: string, script: string)
    requires NoStyleTag(id) && NoStyleTag(css) && NoStyleTag(toolbar) && NoStyleTag(grid)
    requires '<' !in code && NoStyleTag(script)
    ensures NoStyleTag(Container(id, css, toolbar, grid, code, script))
  {
    HeadNoStyleTag(id, css, toolbar, grid);
    var head := Head(id, css, toolbar, grid);
    NoAngleNoStyleTag(code);
    TailNoStyleTag(script);
    CodeOpenEnd(id, css, toolbar, grid);
    NoStyleTagJoin(head, code);
    TailOpensWithCodeClose(script);
    assert Tail(script)[0] == Tail(script)[..7][0] == '<';
    NoStyleTagJoin(head + code, Tail(script));
  }

  lemma CodeOpenEnd(id: string, css: string, toolbar: string, grid: string)
    ensures Head(id, css, toolbar, grid) != [] && Head(id, css, toolbar, grid)[|Head(id, css, toolbar, grid)| - 1] == '>'
  {
    var s := " style=\"display: none;\">";
    assert s[|s| - 1] == '>';
    var before := ContainerOpen + id + ContainerClass + css + WrapperOpen + toolbar + ViewOpen + grid + ContentOpen;
    assert (before + CodeOpen)[|before + CodeOpen| - 1] == CodeOpen[|CodeOpen| - 1];
  }

  lemma LinkNoStyleTag(url: string)
    requires NoStyleTag(url)
    ensures NoStyleTag(Link(url))
  {
    NoStyleTagJoin("<link rel=\"stylesheet\" href=\"", url);
    NoStyleTagJoin("<link rel=\"stylesheet\" href=\"" + url, "\">");
  }

  /** The fixed text of the container opens no `<st` tag. */
  lemma ContainerTextStyleFree()
    ensures NoStyleTag(ContainerOpen) && NoStyleTag(ContainerClass) && NoStyleTag(WrapperOpen)
    ensures NoStyleTag(ViewOpen) && NoStyleTag(ContentOpen) && NoStyleTag(CodeOpen)
    ensures NoStyleTag(CodeClose) && NoStyleTag(ContainerClose)
  {
    OpeningTextStyleFree();
    NestedTextStyleFree();
    ClosingTextStyleFree();
  }

  lemma OpeningTextStyleFree()
    ensures NoStyleTag(ContainerOpen) && NoStyleTag(ContainerClass) && NoStyleTag(WrapperOpen)
  {
  }

  lemma NestedTextStyleFree()
    ensures NoStyleTag(ViewOpen) && NoStyleTag(ContentOpen) && NoStyleTag(CodeOpen)
  {
    ViewTextStyleFree();
    CodeTextStyleFree();
  }

  lemma ViewTextStyleFree()
    ensures NoStyleTag(ViewOpen) && NoStyleTag(ContentOpen)
  {
    NoStyleTagJoin("\n\n    <div class=", "\"mermaid-view-container\">\n      ");
    NoStyleTagJoin("\n\n      <pre class=", "\"mermaid-content\">\n         ");
  }

  lemma CodeTextStyleFree()
    ensures NoStyleTag(CodeOpen)
  {
    NoStyleTagJoin("<code class=\"mermaid-code\"", " style=\"display: none;\">");
  }

  lemma ClosingTextStyleFree()
    ensures NoStyleTag(CodeClose) && NoStyleTag(ContainerClose)
  {
    NoStyleTagJoin("</code>", "\n      </pre>\n    </div>\n  </div>\n  ");
  }

  lemma HeadNoStyleTag(id: string, css: string, toolbar: string, grid: string)
    requires NoStyleTag(id) && NoStyleTag(css) && NoStyleTag(toolbar) && NoStyleTag(grid)
    ensures NoStyleTag(Head(id, css, toolbar, grid))
  {
    ContainerTextStyleFree();
    var h := ContainerOpen;
    NoStyleTagJoin(h, id);
    h := h + id;
    NoStyleTagJoin(h, ContainerClass);
    h := h + ContainerClass;
    NoStyleTagJoin(h, css);
    h := h + css;
    NoStyleTagJoin(h, WrapperOpen);
    h := h + WrapperOpen;
    NoStyleTagJoin(h, toolbar);
    h := h + toolbar;
    NoStyleTagJoin(h, ViewOpen);
    h := h + ViewOpen;
    NoStyleTagJoin(h, grid);
    h := h + grid;
    NoStyleTagJoin(h, ContentOpen);
    h := h + ContentOpen;
    NoStyleTagJoin(h, CodeOpen);
  }

  lemma TailNoStyleTag(script: string)
    requires NoStyleTag(script)
    ensures NoStyleTag(Tail(script))
  {
    ContainerTextStyleFree();
    NoStyleTagJoin(CodeClose, script);
    NoStyleTagJoin(CodeClose + script, ContainerClose);
  }

  lemma InitCallNoStyleTag(id: string, jsUrl: string, theme: string, vars: Option<string>)
    requires NoStyleTag(id) && NoStyleTag(jsUrl) && NoStyleTag(theme)
    requires vars.Some? ==> NoStyleTag(vars.value)
    ensures NoStyleTag(InitCall(id, jsUrl, theme, vars))
  {
    var p0 := "window.initMermaidDiagram('";
    NoStyleTagJoin(p0, id);
    NoStyleTagJoin(p0 + id, "', '");
    NoStyleTagJoin(p0 + id + "', '", jsUrl);
    NoStyleTagJoin(p0 + id + "', '" + jsUrl, "', '");
    NoStyleTagJoin(p0 + id + "', '" + jsUrl + "', '", theme);
    NoStyleTagJoin(p0 + id + "', '" + jsUrl + "', '" + theme, "'");
    var v := if vars.Some? then ", " + vars.value else "";
    if vars.Some? {
      NoStyleTagJoin(", ", vars.value);
    }
    NoStyleTagJoin(p0 + id + "', '" + jsUrl + "', '" + theme + "'", v);
    NoStyleTagJoin(p0 + id + "', '" + jsUrl + "', '" + theme + "'" + v, ")");
  }

  /** The defaults for the theme and the mermaid build open no `<st` tag. */
  lemma DefaultsStyleFree(opts: Options)
    requires Truthy(opts.jsUrl) ==> NoStyleTag(opts.jsUrl.value)
    requires Truthy(opts.theme) ==> NoStyleTag(opts.theme.value)
    ensures NoStyleTag(JsUrlOf(opts)) && NoStyleTag(ThemeOf(opts))
  {
    NoStyleTagJoin("https://cdn.jsdelivr.net/npm/", "mermaid@11/dist/mermaid.min.js");
  }

  lemma GuardNoStyleTag(viewerScript: string)
    requires NoStyleTag(viewerScript)
    ensures NoStyleTag(GuardedViewer(viewerScript))
  {
    var g0 := "if (!window.initMermaidDiagram)";
    var g1 := " {\n          ";
    NoStyleTagJoin(g0, g1);
    NoStyleTagJoin(g0 + g1, viewerScript);
    NoStyleTagJoin(g0 + g1 + viewerScript, "\n        }");
  }

  lemma ScriptNoStyleTag(opts: Options, assets: Assets, id: string)
    requires InputsStyleFree(opts, assets, id)
    ensures NoStyleTag(ScriptFragment(opts, assets, id))
  {
    DefaultsStyleFree(opts);
    var js, theme := JsUrlOf(opts), ThemeOf(opts);
    if Truthy(opts.viewerJsUrl) {
      InitCallNoStyleTag(id, js, theme, None);
      ExternalScriptNoStyleTag(opts.viewerJsUrl.value, InitCall(id, js, theme, None));
    } else {
      var vars := Some(opts.themeVariables.GetOr("{}"));
      InitCallNoStyleTag(id, js, theme, vars);
      GuardNoStyleTag(assets.viewerScript);
      InlineScriptNoStyleTag(GuardedViewer(assets.viewerScript), InitCall(id, js, theme, vars));
    }
  }

  lemma ExternalScriptNoStyleTag(url: string, call: string)
    requires NoStyleTag(url) && NoStyleTag(call)
    ensures NoStyleTag(ScriptSrc(url) + "<script>" + call + "</script>")
  {
    NoStyleTagJoin("<script src=\"", url);
    NoStyleTagJoin("<script src=\"" + url, "\"></script>");
    var src := ScriptSrc(url);
    NoStyleTagJoin(src, "<script>");
    NoStyleTagJoin(src + "<script>", call);
    NoStyleTagJoin(src + "<script>" + call, "</script>");
  }

  lemma InlineScriptNoStyleTag(guard: string, call: string)
    requires NoStyleTag(guard) && NoStyleTag(call)
    ensures NoStyleTag("<script>\n        " + guard + "\n        " + call + ";\n      </script>")
  {
    NoStyleTagJoin("<script>\n        ", guard);
    NoStyleTagJoin("<script>\n        " + guard, "\n        ");
    NoStyleTagJoin("<script>\n        " + guard + "\n        ", call);
    NoStyleTagJoin("<script>\n        " + guard + "\n        " + call, ";\n      </script>");
  }
}
