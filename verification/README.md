# markdown-exit-mermaid, modelled in Dafny

markdown-exit-mermaid is a plugin for the markdown-exit renderer. It turns
fenced blocks tagged `mermaid` into interactive diagram widgets. This project
models the plugin's core as pure Dafny functions and proves properties about
them. The core has three parts.

- **The fence rule** (`src/index.ts`).
  - It replaces the renderer's `fence` rule.
  - The fence's language is the first word of the trimmed info string.
  - A fence whose language is not exactly `mermaid` goes to the rule installed
    before the plugin, or to `renderToken` when there is none.
  - A `mermaid` fence becomes a container `<div id="mermaid-…">`, which holds:
    - a stylesheet `<link>` (when `css_url` is set) or the packaged stylesheet
      inline;
    - the toolbar and grid-panel templates;
    - the fence content, escaped by `escapeHtml`, in a hidden `<code>`
      element;
    - a script part. With `viewer_js_url` set, it loads the viewer from that
      URL and calls it with three arguments. Without it, the viewer is defined
      inline behind an `if (!window.initMermaidDiagram)` guard and called with
      the theme variables as a fourth argument.
- **The templates** (`src/html_template.ts`).
  - Each template is a list of controls, each named by a CSS class.
  - They are rendered to the exact text of the source; the SVG icons are a
    parameter.
  - The class names are the only link to the viewer's click dispatch
    (`wiring.dfy`).
- **The viewer** (`assets/viewer.js`).
  - `initMermaidDiagram` checks that the widget's elements are present.
  - It then runs a pan/zoom state machine driven by grid-panel clicks, toolbar
    clicks and a mouse drag.
  - The mermaid loader makes a three-way choice: use a loaded library, attach
    to an existing script element for the URL, or insert one.

Modules, leaves first:

- `Wrappers`: `Option`.
- `Text`: JavaScript whitespace, prefixes, substring occurrence, and the "no
  `<st`" predicate.
- `Escape`: `escapeHtml` as written, a per-character reference for it, and a
  decoder.
- `Template`: the control vocabulary and the two templates.
- `Fence` and `FenceProperties`: the fence rule and what it promises.
- `Viewer` and `ViewerProperties`: the viewer's state machine and its
  invariants.
- `Page` and `PageProperties`: the loader's choice and the definition guard,
  over a whole page.
- `Wiring`: the class-name contract between the templates and the viewer.

The widget as the code builds it:

- The style fragment sits inside the container `<div>`, after its opening tag.
- The grid panel holds seven buttons and two empty cells.
- The copy button swaps its `title` to "Copied!".
- The test files check an `html_only` option and a `mermaid-diagram-container`
  class that the code does not have; the model follows the code.

## Model

| member | source | states |
|---|---|---|
| Escape.EscapeHtml | src/index.ts:93-100 | The five replacements, `&` first, give the same text as replacing each character by its own reference. The result has no `<`, `>`, `"` or `'`, and every `&` in it starts `&amp;`, `&lt;`, `&gt;`, `&quot;` or `&#39;`. It is never shorter than the input. It returns the input unchanged when none of the five characters occur. |
| Escape.Escaped | src/index.ts:94-99 | The per-character reference escaper is well escaped, never shorter than its input, and the identity on text without special characters. |
| Escape.EscapeHtmlIsPerChar | src/index.ts:94-99 | For every input, the source's replacement pipeline equals the per-character reference. |
| Escape.PipelineSingle | src/index.ts:95-99 | On one character the pipeline yields exactly that character's reference. A reference inserted by an early step is never rewritten by a later one. |
| Escape.ReplaceAll | src/index.ts:95 | `replace(/c/g, rep)` leaves text without `c` unchanged. It leaves no `c` when `rep` has none, and it never shortens the text when `rep` is non-empty. |
| Escape.ReplaceAllJoin | src/index.ts:95 | A global replacement distributes over concatenation. |
| Escape.UnescapeEscapeHtml | src/index.ts:93-100 | Decoding the five references in the output of `escapeHtml` gives back the original text exactly. |
| Escape.UnescapeEscaped | src/index.ts:94-99 | Decoding inverts the per-character escaper on every input. |
| Escape.AmpersandLastDoubleEscapes | src/index.ts:95 | With `&` replaced last, `<` becomes `&amp;lt;`, which decodes to `&lt;` and not `<`. This shows why `&` goes first. |
| Fence.RenderFence | src/index.ts:36-87 | With no token at `idx` the result is "". When the token's trimmed info string is not the word `mermaid` (alone or followed by whitespace), the result is the previous rule's output, or `renderToken`'s when there is no previous rule. When it is, the result is the widget with identifier `mermaid-` + suffix. |
| Fence.Trim | src/index.ts:40 | `trim()` removes a whitespace prefix and a whitespace suffix and leaves text that neither starts nor ends with whitespace. |
| Fence.FirstWord | src/index.ts:41 | `split(/\s+/)[0]` on trimmed text is the longest whitespace-free prefix. |
| Fence.LangIsKeywordIff | src/index.ts:40-44 | The language is `mermaid` exactly when the trimmed info string is `mermaid`, alone or followed by whitespace. |
| FenceProperties.MissingInfoIsNotDiagram | src/index.ts:40 | A missing info string gives the language "", so it is not a diagram. |
| FenceProperties.KeywordIsCaseSensitive | src/index.ts:44 | An info string starting with `Mermaid` is not a diagram: the match is case-sensitive. |
| FenceProperties.MissingTokenRendersEmpty | src/index.ts:37-38 | A missing token renders as "". |
| FenceProperties.OtherFencesDelegate | src/index.ts:44-49 | Whenever the trimmed info string is not `mermaid` (alone or followed by whitespace), the output is exactly the previous rule's, or `renderToken`'s. Options, assets and identifier play no part. |
| FenceProperties.DiagramFenceBecomesWidget | src/index.ts:44-86 | A `mermaid` fence renders as the widget, whatever the previous rule would do. |
| FenceProperties.WidgetId | src/index.ts:51 | The widget opens `<div id="`, and reading up to the next `"` gives the identifier back. The identifier starts with `mermaid-`. |
| FenceProperties.ContainerId | src/index.ts:69-70 | Any container whose identifier has no `"` can have the identifier read back from its `id` attribute. |
| FenceProperties.WidgetSource | src/index.ts:42 | The text after the hidden code element's opening tag, up to the next `<`, is followed by `</code>` and decodes to the fence content exactly. |
| FenceProperties.WidgetStyle | src/index.ts:53-55 | With `css_url` truthy the widget contains the `<link rel="stylesheet">` for it. Otherwise it contains the packaged stylesheet inside `<style>…</style>`. |
| FenceProperties.CssUrlMeansNoInlineStyle | src/index.ts:53-55 | With `css_url` truthy the widget contains no `<style` at all, provided the substituted texts contain none. |
| FenceProperties.ScriptParts | src/index.ts:57-67 | With `viewer_js_url` truthy the script part holds `<script src=URL>` and the three-argument call. Otherwise it holds the guarded viewer definition and the four-argument call, whose last argument defaults to `{}`. |
| FenceProperties.WidgetScript | src/index.ts:57-67 | The same two cases hold for the whole widget. |
| FenceProperties.ExternalViewerNotInlined | src/index.ts:58-59 | With `viewer_js_url` truthy the script part holds no `{`. So it contains neither the guarded inline viewer nor a four-argument call whose theme variables are a JSON object. This holds when the URLs, theme and identifier have no `{`. |
| FenceProperties.DefaultWidget | src/index.ts:29-32 | With no options the widget calls the viewer with theme `default`, the jsdelivr `mermaid@11` URL and `{}`, and inlines both the stylesheet and the guarded viewer. |
| FenceProperties.ContainerNoStyleTag | src/index.ts:69-84 | The container text adds no `<st` tag of its own. Since the escaped content has no `<`, it cannot add one either. |
| Template.ClassNameRoundTrip | src/html_template.ts:13-30 | Each control's class name parses back to that control. |
| Template.ClassNameInjective | src/html_template.ts:13-30 | Two controls share a class name only when they are the same control. |
| Template.ToolbarShape | src/html_template.ts:12-14 | The toolbar holds one button, the copy button, with class `copy-code` and title "Copy Code". |
| Template.GridShape | src/html_template.ts:16-32 | The grid panel is three rows of three cells. The empty cells are the first and seventh. Its seven buttons are up, zoom-in, left, reset, right, down and zoom-out in reading order, which is every control except copy. |
| Template.ClassAttributeList | src/html_template.ts:13-30 | A button's `class` attribute lists exactly `btn` and the control's class name. |
| Template.GridNoStyleTag | src/html_template.ts:16-32 | The grid panel contains no `<st` tag, given icons that contain none. |
| Template.ToolbarNoStyleTag | src/html_template.ts:12-14 | The toolbar contains no `<st` tag, given icons that contain none. |
| Viewer.Init | assets/viewer.js:2-11 | A viewer starts exactly when the container, view container, content and code elements are all present. It starts from scale 1 with no translation, and click handlers are wired for the toolbar and grid panel that exist. |
| Viewer.Apply | assets/viewer.js:95-111 | Zooming leaves the translation alone. Panning up or down leaves the scale and x alone; panning left or right leaves the scale and y alone. No command touches the drag state. A zoom-in never exceeds 5 and grows the scale unless capped; a zoom-out never goes below 0.2 and shrinks it unless floored. |
| Viewer.Press | assets/viewer.js:121-128 | A mousedown starts a drag from the mouse position and snapshots the translation, leaving the view itself as it is. |
| ViewerProperties.DispatchIsFirstMatch | assets/viewer.js:95-111 | The click dispatch takes the first branch, in the order zoom-in, zoom-out, reset, up, down, left, right, whose class the button carries. |
| ViewerProperties.FirstMatchIsFirst | assets/viewer.js:95-111 | The branch chosen is one the button carries, and no branch tried before it matches. |
| ViewerProperties.DispatchRecognises | assets/viewer.js:95-111 | A click dispatches to a command exactly when the button carries one of the seven classes it checks. |
| ViewerProperties.UnrecognisedClickIsNoOp | assets/viewer.js:92-111 | A click outside any button, or on a button with none of the seven classes, changes nothing. |
| ViewerProperties.ResetRestoresInitialView | assets/viewer.js:99-102 | Reset sets scale 1 and translation 0 from any state, leaves a drag alone, and is idempotent. |
| ViewerProperties.PanStepsCancel | assets/viewer.js:103-110 | Up then down, down then up, left then right and right then left each restore the view exactly. |
| ViewerProperties.PanStepSizes | assets/viewer.js:103-110 | Up and left add 40 to their axis; down and right subtract 40. |
| ViewerProperties.ZoomStepsCancel | assets/viewer.js:95-98 | Within bounds, zoom-in then zoom-out restores the view when the zoom-in was not capped. Zoom-out then zoom-in restores it when the zoom-out was not floored. |
| ViewerProperties.ZoomAtCapDoesNotCancel | assets/viewer.js:95-98 | At scale 5, zoom-in then zoom-out lands at 5/1.2, below where it started. |
| ViewerProperties.StepKeepsBounds | assets/viewer.js:91-145 | Every event keeps the scale within [0.2, 5]. |
| ViewerProperties.ScaleStaysInBounds | assets/viewer.js:14 | From initialisation, over any sequence of clicks and mouse events, the scale stays within [0.2, 5]. |
| ViewerProperties.ZoomInPowers | assets/viewer.js:96 | `k` zoom-ins from scale 1 give `min(1.2^k, 5)`. |
| ViewerProperties.ZoomOutPowers | assets/viewer.js:98 | `k` zoom-outs from scale 1 give `max((1/1.2)^k, 0.2)`. |
| ViewerProperties.NineZoomInsReachTheCap | assets/viewer.js:96 | Eight zoom-ins from the initial view stay below 5; nine reach it. |
| ViewerProperties.NineZoomOutsReachTheFloor | assets/viewer.js:98 | Eight zoom-outs from the initial view stay above 0.2; nine reach it. |
| ViewerProperties.UnwiredAndToolbarClicks | assets/viewer.js:73-90 | Grid clicks do nothing when the grid panel was missing at init. Toolbar clicks never change the view. |
| ViewerProperties.CopyNeedsToolbar | assets/viewer.js:73-78 | A toolbar click on a `copy-code` button copies exactly when the toolbar was wired. No other kind of event copies. |
| ViewerProperties.MoveAndReleaseOutsideDrag | assets/viewer.js:130-145 | Outside a drag, mousemove and mouseup change nothing. Mouseup ends a drag, and mousemove never changes the scale. |
| ViewerProperties.DragFollowsLastMove | assets/viewer.js:121-138 | After a mousedown at `(x0, y0)`, any non-empty series of moves leaves the translation at its value at the press plus the last mouse position minus `(x0, y0)`. The scale is unchanged and the drag is still on. |
| ViewerProperties.DragMoves | assets/viewer.js:130-138 | During a drag, a series of moves sets the translation from the last move alone and keeps the drag's start point and snapshot. |
| ViewerProperties.ClickWithoutMoving | assets/viewer.js:121-145 | A press and release with no move leaves scale and translation where they were and ends the drag. |
| Page.Load | assets/viewer.js:23-40 | One call of the loader takes the three-way choice. It inserts a script exactly when the library is not loaded and no script for the URL exists. |
| PageProperties.LoadLeavesScriptPresent | assets/viewer.js:25-38 | A load only appends to the page's scripts. Afterwards the library is loaded or a script for the URL is present. |
| PageProperties.LoadCount | assets/viewer.js:27-38 | A load adds one script for its own URL when it inserts and nothing otherwise, and it inserts only when no script for the URL exists. |
| PageProperties.AtMostOneInsertPerUrl | assets/viewer.js:25-38 | Over any sequence of widget starts and library loads, at most one script per URL is inserted, and none for a URL the page already had. |
| PageProperties.ScriptsStayUnique | assets/viewer.js:27-38 | A page with at most one script per URL keeps that property over any sequence of events. |
| PageProperties.ReadyMeansNoMoreScripts | assets/viewer.js:25 | Once the library is loaded, every load resolves at once and leaves the page unchanged. |
| PageProperties.InlineViewerDefinedOnce | src/index.ts:61-64 | On a page with no viewer, `n` guarded inline scripts evaluate the viewer definition once when `n > 0` and never otherwise. |
| PageProperties.ViewerFileIsUnguarded | assets/viewer.js:1 | The viewer file assigns `initMermaidDiagram` with no guard, so loading it twice evaluates it twice. After it has run, the inline guard skips. |
| Wiring.ButtonDispatch | assets/viewer.js:95-111 | A click on any control's button, read through its class attribute, takes the branch the control's label promises. The copy button takes none. |
| Wiring.GridButtonsAreHandled | src/html_template.ts:19-30 | Every grid-panel button is handled by the viewer's dispatch, in the branch it is meant for. |
| Wiring.EveryBranchHasAButton | assets/viewer.js:95-111 | Every branch of the viewer's grid dispatch has a grid-panel button that reaches it. |
| Wiring.ToolbarButtonCopies | src/html_template.ts:13 | The toolbar's button carries `copy-code`, so a click on it copies in a wired toolbar and the grid dispatch would ignore it. |

## Left out

- Reading `assets/viewer.js` and `assets/style.css` from disk at module load (src/index.ts:10-17): their contents are the parameters `Assets.viewerScript` and `Assets.scopedStyles`.
- `Math.random().toString(36).slice(2)` (src/index.ts:51): the random part of the identifier is a parameter. Identifiers being distinct across a document depends on the random source and is not modelled.
- `origFence` and `self.renderToken` are function parameters (`Renderer`). The `_opts`, `_env` and `self` arguments they receive are not modelled.
- `JSON.stringify(options.theme_variables || {})` (src/index.ts:65): the theme variables are passed as their JSON text. The default `{}` is modelled.
- `theme` and `js_url` are read once at registration (src/index.ts:29-32); `css_url`, `viewer_js_url` and `theme_variables` are read on every call (src/index.ts:53, 58, 65). The model reads all five from one `Options` value, so changes to the options object after registration are not modelled.
- `token.content` is taken to be a string. The `|| ""` after `escapeHtml` (src/index.ts:42) never applies to a string result, since an empty string is replaced by the empty string.
- The SVG icons of src/html_template.ts:1-10 are the parameter `icon`; only their freedom from `<st` is used.
- The Promise around the loader, the script's `load` and `error` listeners, `mermaid.initialize`, `mermaid.render` and the error HTML (assets/viewer.js:23-70) are calls into the browser and the library. Only the loader's three-way choice and its effect on the page's script elements are modelled.
- The CSS selector `script[src="${jsUrl}"]` is modelled as a comparison of URLs. A URL that breaks the selector's syntax is not modelled.
- The clipboard write and the timed swap of the title to "Copied!" and back (assets/viewer.js:79-84) are browser I/O and timing. `Viewer.Copies` models only which clicks copy.
- `applyTransform`, the cursor styles and `preventDefault` (assets/viewer.js:18-20, 112, 127, 132, 137, 143) are presentation only.
- `e.target.closest("button")` is modelled as the class list of the button a click lands on, or none.
- Viewer numbers are `real`, so `1.2` is exactly six fifths. IEEE-754 rounding is not modelled.
- `startX`, `startY`, `initialTranslateX` and `initialTranslateY` are `undefined` until the first mousedown. They are 0 in the model, which reads them only while dragging, after a mousedown has set them.
- Escape.Unescape: decodes only the five references `escapeHtml` emits, left to right. It is not a full HTML character-reference decoder.
- FenceProperties.CssUrlMeansNoInlineStyle: "no `<style`" is proved only when the substituted texts (URLs, theme, identifier, icons and, for the inline script, the viewer source and theme variables) contain no `<st` themselves, because the source inserts them unescaped.
- FenceProperties.ScriptParts: states that the chosen pieces occur in the script part. That the external-viewer case inlines no viewer is stated by `FenceProperties.ExternalViewerNotInlined`, under the condition that the substituted texts have no `{`.
- FenceProperties.WidgetScript: states that the chosen pieces occur in the widget. The absence of the inline viewer is stated for the script part only. The rest of the widget (the inline stylesheet, the icons, the escaped content) is arbitrary text that may contain the same characters.
- FenceProperties.WidgetStyle: states that the chosen fragment occurs in the widget. The absence of `<style` with `css_url` set is stated separately, under the conditions above.
- `vite.config.ts` and the test files are build configuration and test code, not behaviour of the plugin.
