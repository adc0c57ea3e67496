/**
 * What the loader and the definition guard promise: however many widgets on
 * a page start their viewer, at most one script element per mermaid URL is
 * inserted, and the inline viewer source is evaluated at most once.
 */
module PageProperties {
  import opened Page

  /** Loading never takes away a script, and afterwards the library is ready
      or a script for the URL is present. */
  lemma LoadLeavesScriptPresent(d: Document, url: string)
    ensures var after := Load(d, url).1;
      && d.scriptSrcs == after.scriptSrcs[..|d.scriptSrcs|]
      && (after.mermaidReady || url in after.scriptSrcs)
  {
    var after := Load(d, url).1;
    if Load(d, url).0 == InsertScript {
      assert after.scriptSrcs[|d.scriptSrcs|] == url;
    }
  }

  /** A load inserts a script for `url` only while there is none. */
  lemma LoadCount(d: Document, url: string, other: string)
    ensures Count(Load(d, url).1.scriptSrcs, other)
            == Count(d.scriptSrcs, other) + (if other == url && Load(d, url).0 == InsertScript then 1 else 0)
    ensures Load(d, url).0 == InsertScript ==> Count(d.scriptSrcs, url) == 0
  {
  }

  /** Over any sequence of page events, the loader inserts at most one script
      per URL, and none for a URL that already had one. */
  lemma {:induction false} AtMostOneInsertPerUrl(d: Document, events: seq<PageEvent>, url: string)
    ensures Inserted(d, events, url) <= 1
    ensures url in d.scriptSrcs ==> Inserted(d, events, url) == 0
    decreases |events|
  {
    if events != [] {
      var e := events[0];
      var next := PageStep(d, e);
      AtMostOneInsertPerUrl(next, events[1..], url);
      StepKeepsScripts(d, e, url);
      if e.WidgetInit? && e.jsUrl == url && Load(d, url).0 == InsertScript {
        assert next.scriptSrcs == d.scriptSrcs + [url];
        assert url in next.scriptSrcs by {
          assert next.scriptSrcs[|d.scriptSrcs|] == url;
        }
      }
    }
  }

  lemma StepKeepsScripts(d: Document, e: PageEvent, url: string)
    ensures url in d.scriptSrcs ==> url in PageStep(d, e).scriptSrcs
  {
    if url in d.scriptSrcs {
      var i :| 0 <= i < |d.scriptSrcs| && d.scriptSrcs[i] == url;
      assert PageStep(d, e).scriptSrcs[i] == url;
    }
  }

  /** Starting from a page with at most one script per URL, any sequence of
      page events keeps it that way. */
  lemma {:induction false} ScriptsStayUnique(d: Document, events: seq<PageEvent>, url: string)
    requires Count(d.scriptSrcs, url) <= 1
    ensures Count(PageRun(d, events).scriptSrcs, url) <= 1
    decreases |events|
  {
    if events != [] {
      var e := events[0];
      if e.WidgetInit? {
        LoadCount(d, e.jsUrl, url);
        if e.jsUrl == url && Load(d, url).0 == InsertScript {
          assert Count(d.scriptSrcs, url) == 0;
        }
      }
      ScriptsStayUnique(PageStep(d, e), events[1..], url);
    }
  }

  /** Once the library is ready every later load resolves at once and leaves
      the document as it is. */
  lemma ReadyMeansNoMoreScripts(d: Document, url: string)
    requires d.mermaidReady
    ensures Load(d, url) == (ResolveNow, d)
  {
  }

  /** Of any number of widgets' inline scripts on a page with no viewer yet,
      the first defines the viewer and the rest leave it alone. */
  lemma {:induction false} InlineViewerDefinedOnce(n: nat)
    ensures RunInlineScripts(Window(false, 0), n) == if n == 0 then Window(false, 0) else Window(true, 1)
  {
    if n > 0 {
      InlineViewerDefinedOnce(n - 1);
    }
  }

  /** The guard does not protect against the external viewer file: a page
      that loads it twice evaluates the definition twice. */
  lemma ViewerFileIsUnguarded(w: Window)
    ensures RunViewerFile(RunViewerFile(w)).evaluations == w.evaluations + 2
    ensures RunInlineScript(RunViewerFile(w)) == RunViewerFile(w)
  {
  }
}
