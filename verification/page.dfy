/**
 * The page-level side of the viewer: how `initMermaidDiagram` gets the
 * mermaid library (assets/viewer.js, the `loadMermaid` promise), and how the
 * inline script the fence rule emits defines the viewer only once per page
 * (src/index.ts, the `if (!window.initMermaidDiagram)` guard).
 *
 * The promise, the script's `load`/`error` events and the library's own
 * behaviour are left out; what remains is the three-way choice the loader
 * makes and its effect on the page's script elements.
 */
module Page {

  /** What the loader looks at: whether `window.mermaid` is set, and the
      `src` of every script element already in the document. */
  datatype Document = Document(mermaidReady: bool, scriptSrcs: seq<string>)

  /** The loader's three branches. */
  datatype Choice = ResolveNow | AttachToExisting | InsertScript

  function Decide(d: Document, jsUrl: string): Choice {
    if d.mermaidReady then ResolveNow
    else if jsUrl in d.scriptSrcs then AttachToExisting
    else InsertScript
  }

  /** One call of `loadMermaid`: the branch taken and the document after it;
      only a new script element changes the document. */
  function Load(d: Document, jsUrl: string): (r: (Choice, Document))
    ensures r.0 == Decide(d, jsUrl)
    ensures r.0 == InsertScript <==> !d.mermaidReady && jsUrl !in d.scriptSrcs
  {
    var c := Decide(d, jsUrl);
    if c == InsertScript then (c, d.(scriptSrcs := d.scriptSrcs + [jsUrl])) else (c, d)
  }

  /** What happens on the page between loads: a widget's viewer calls the
      loader, or a mermaid script finishes loading and sets `window.mermaid`. */
  datatype PageEvent = WidgetInit(jsUrl: string) | MermaidLoaded

  function PageStep(d: Document, e: PageEvent): Document {
    match e
    case WidgetInit(url) => Load(d, url).1
    case MermaidLoaded => d.(mermaidReady := true)
  }

  function PageRun(d: Document, events: seq<PageEvent>): Document
    decreases |events|
  {
    if events == [] then d else PageRun(PageStep(d, events[0]), events[1..])
  }

  /** How many script elements for `url` the loader inserts over `events`. */
  function Inserted(d: Document, events: seq<PageEvent>, url: string): nat
    decreases |events|
  {
    if events == [] then 0
    else
      var e := events[0];
      var here := if e.WidgetInit? && e.jsUrl == url && Load(d, url).0 == InsertScript then 1 else 0;
      here + Inserted(PageStep(d, e), events[1..], url)
  }

  /** The number of script elements whose `src` is `url`. */
  function Count(srcs: seq<string>, url: string): nat {
    multiset(srcs)[url]
  }

  /** The window as far as the viewer definition goes: whether
      `window.initMermaidDiagram` is set, and how many times a definition of
      it has been evaluated. */
  datatype Window = Window(defined: bool, evaluations: nat)

  /** The inline script part: the viewer source runs only when no viewer is
      defined yet. */
  function RunInlineScript(w: Window): Window {
    if !w.defined then Window(true, w.evaluations + 1) else w
  }

  /** The external viewer file assigns `window.initMermaidDiagram` with no
      guard, so every copy loaded evaluates it again. */
  function RunViewerFile(w: Window): Window {
    Window(true, w.evaluations + 1)
  }

  function RunInlineScripts(w: Window, n: nat): Window {
    if n == 0 then w else RunInlineScript(RunInlineScripts(w, n - 1))
  }
}
