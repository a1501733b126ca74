/** The render pipeline: parse the request path, pin the ref (GitHub only),
    fetch the document and, when it exists, its `.css` and `.conf` overlays,
    and assemble what the page template receives. The network is an oracle
    that answers every URL and every commit lookup; each request the
    pipeline makes is appended to a log. */
module Pipeline {
  import opened Text
  import opened Paths
  import opened Urls
  import opened Overlays

  datatype Option<T> = None | Some(value: T)

  /** The outside world: the response each URL gets, and the full commit sha
      GitHub's commits API reports for (owner, repo, ref). */
  datatype Upstream = Upstream(
    respond: string -> Response,
    commitSha: (string, string, string) -> string)

  /** Collaborators from other modules of the application: title extraction
      from the document text, and rewriting of relative image links against
      a base URL. */
  datatype Helpers = Helpers(
    extractTitle: string -> string,
    fixImages: (string, string) -> string)

  /** One outbound request. */
  datatype Event = Lookup(owner: string, repo: string, ref: string) | Get(url: string)

  /** The values handed to the page template. */
  datatype Bundle = Bundle(
    title: string,
    markdown: string,
    style: string,
    ownCss: string,
    ownJavascript: string,
    ownConf: string,
    engine: string)

  /** How a request ends: the path could not be unpacked (an uncaught
      ValueError), the document is missing (the not-found page), or the
      page is rendered from a bundle. */
  datatype Outcome = MalformedPath | PageNotFound | Rendered(bundle: Bundle)

  /** An outcome together with the requests made to reach it, in order. */
  datatype Run = Run(outcome: Outcome, trace: seq<Event>)

  /** Style used when the request has no `style` query parameter. */
  const DefaultStyle := "default"

  /** The URLs fetched in a trace, in order. */
  function Fetched(trace: seq<Event>): seq<string>
  {
    if trace == [] then []
    else (if trace[0].Get? then [trace[0].url] else []) + Fetched(trace[1..])
  }

  /** The content root a reference resolves to: pinned to the commit sha on
      GitHub, keyed by the ref itself anywhere else. */
  function ContentPrefix(r: Reference, up: Upstream): (prefix: string)
    ensures r.service == GitHub ==>
      RawGitCdn + r.owner + "/" + r.repo + "/" + up.commitSha(r.owner, r.repo, r.ref) + "/" <= prefix
    ensures r.service != GitHub ==>
      prefix == GenericPrefix(r.service, r.owner, r.repo, r.ref)
  {
    if r.service == GitHub then
      GitHubPrefix(r.owner, r.repo, up.commitSha(r.owner, r.repo, r.ref), r.filePath)
    else
      GenericPrefix(r.service, r.owner, r.repo, r.ref)
  }

  /** The lookup a reference needs before anything is fetched. */
  function Lookups(r: Reference): seq<Event>
  {
    if r.service == GitHub then [Lookup(r.owner, r.repo, r.ref)] else []
  }

  /** What one render request does, as a value: the outcome and the trace.
      A path with fewer than four segments fails before any request. */
  function Render(path: string, engine: string, engineVersion: string,
                  style: Option<string>, up: Upstream, helpers: Helpers): (run: Run)
    ensures run.outcome.MalformedPath? <==> |Split(path, '/')| < 4
    ensures run.outcome.MalformedPath? ==> run.trace == []
  {
    match ParsePath(path)
    case TooFewSegments => Run(MalformedPath, [])
    case Parsed(r) => RenderReference(r, engine, engineVersion, style, up, helpers)
  }

  /** The request for a parsed reference: the lookup (GitHub only), then the
      document; a missing document ends the request, otherwise the `.css` and
      `.conf` overlays are fetched and the bundle assembled. */
  function RenderReference(r: Reference, engine: string, engineVersion: string,
                           style: Option<string>, up: Upstream, helpers: Helpers): (run: Run)
    ensures var prefix := ContentPrefix(r, up);
            var docUrl := DocumentUrl(prefix, r.lastFile);
            var cssUrl := OverlayUrl(prefix, r.lastFile, ".css");
            var confUrl := OverlayUrl(prefix, r.lastFile, ".conf");
      && !run.outcome.MalformedPath?
      && (run.outcome.PageNotFound? <==> up.respond(docUrl).status == NotFound)
      && (run.outcome.PageNotFound? ==> run.trace == Lookups(r) + [Get(docUrl)])
      && (run.outcome.Rendered? ==>
            run.trace == Lookups(r) + [Get(docUrl), Get(cssUrl), Get(confUrl)])
    ensures run.outcome.Rendered? ==>
      var prefix := ContentPrefix(r, up);
      var doc := up.respond(DocumentUrl(prefix, r.lastFile));
      var css := up.respond(OverlayUrl(prefix, r.lastFile, ".css"));
      var conf := up.respond(OverlayUrl(prefix, r.lastFile, ".conf"));
      var b := run.outcome.bundle;
      && b.title == helpers.extractTitle(doc.body)
      && b.markdown == helpers.fixImages(doc.body, prefix)
      && b.style == (if style.Some? then style.value else DefaultStyle)
      && (css.status == NotFound ==> b.ownCss == "")
      && (css.status != NotFound ==> b.ownCss == css.body)
      && b.ownJavascript == ""
      && (conf.status == NotFound ==> b.ownConf == "")
      && (conf.status != NotFound ==> b.ownConf == CommaNewlines(conf.body))
      && b.engine == engine + "-" + engineVersion
  {
    var prefix := ContentPrefix(r, up);
    var docUrl := DocumentUrl(prefix, r.lastFile);
    var doc := up.respond(docUrl);
    if doc.status == NotFound then
      Run(PageNotFound, Lookups(r) + [Get(docUrl)])
    else
      var cssUrl := OverlayUrl(prefix, r.lastFile, ".css");
      var confUrl := OverlayUrl(prefix, r.lastFile, ".conf");
      var bundle := Bundle(
        helpers.extractTitle(doc.body),
        helpers.fixImages(doc.body, prefix),
        if style.Some? then style.value else DefaultStyle,
        OptionalOverlay(up.respond(cssUrl)),
        "",
        ConfOverlay(up.respond(confUrl)),
        engine + "-" + engineVersion);
      Run(Rendered(bundle), Lookups(r) + [Get(docUrl), Get(cssUrl), Get(confUrl)])
  }

  /** The URLs fetched by consecutive stretches of a trace add up. */
  lemma {:induction false} FetchedAppend(a: seq<Event>, b: seq<Event>)
    ensures Fetched(a + b) == Fetched(a) + Fetched(b)
    decreases |a|
  {
    if a != [] {
      FetchedAppend(a[1..], b);
      assert (a + b)[1..] == a[1..] + b;
    } else {
      assert a + b == b;
    }
  }

  /** A missing document is the last thing fetched: no overlay URL follows
      it. A present document is followed by exactly the `.css` and `.conf`
      overlays. The script overlay is never requested on its own: its URL is
      fetched only when it is the document's URL itself. The commit lookup
      is no fetch. */
  lemma {:induction false} FetchedUrls(path: string, engine: string, engineVersion: string,
                    style: Option<string>, up: Upstream, helpers: Helpers)
    requires ParsePath(path).Parsed?
    ensures var run := Render(path, engine, engineVersion, style, up, helpers);
            var r := ParsePath(path).reference;
            var prefix := ContentPrefix(r, up);
            var docUrl := DocumentUrl(prefix, r.lastFile);
      && (run.outcome.PageNotFound? ==> Fetched(run.trace) == [docUrl])
      && (run.outcome.Rendered? ==>
            Fetched(run.trace) == [docUrl, OverlayUrl(prefix, r.lastFile, ".css"),
                                   OverlayUrl(prefix, r.lastFile, ".conf")])
      && (OverlayUrl(prefix, r.lastFile, ".js") in Fetched(run.trace) ==>
            OverlayUrl(prefix, r.lastFile, ".js") == docUrl)
  {
    var r := ParsePath(path).reference;
    var run := RenderReference(r, engine, engineVersion, style, up, helpers);
    assert Render(path, engine, engineVersion, style, up, helpers) == run;
    var prefix := ContentPrefix(r, up);
    var docUrl := DocumentUrl(prefix, r.lastFile);
    if run.outcome.PageNotFound? {
      FetchedAfterLookups(r, [Get(docUrl)]);
      FetchedGets(docUrl, "", "");
    } else if run.outcome.Rendered? {
      var cssUrl := OverlayUrl(prefix, r.lastFile, ".css");
      var confUrl := OverlayUrl(prefix, r.lastFile, ".conf");
      FetchedAfterLookups(r, [Get(docUrl), Get(cssUrl), Get(confUrl)]);
      FetchedGets(docUrl, cssUrl, confUrl);
      OverlayExtensionsDiffer(prefix, r.lastFile);
    }
  }

  /** Proof step for FetchedUrls: the commit lookup adds no URL. */
  lemma {:induction false} FetchedAfterLookups(r: Reference, tail: seq<Event>)
    ensures Fetched(Lookups(r) + tail) == Fetched(tail)
  {
    assert Fetched(Lookups(r)) == [];
    FetchedAppend(Lookups(r), tail);
  }

  /** Proof step for FetchedUrls: traces made of fetches only. */
  lemma {:induction false} FetchedGets(a: string, b: string, c: string)
    ensures Fetched([Get(a)]) == [a]
    ensures Fetched([Get(a), Get(b), Get(c)]) == [a, b, c]
  {
    assert Fetched([]) == [];
    assert [Get(a)][1..] == [];
    assert Fetched([Get(a)]) == [a] + [];
    assert [Get(c)][1..] == [];
    assert Fetched([Get(c)]) == [c] + [];
    assert [Get(b), Get(c)][1..] == [Get(c)];
    assert Fetched([Get(b), Get(c)]) == [b] + [c];
    assert [Get(a), Get(b), Get(c)][1..] == [Get(b), Get(c)];
    assert Fetched([Get(a), Get(b), Get(c)]) == [a] + [b, c];
  }

  /** Only a GitHub reference is looked up, once and first, with exactly its
      owner, repository and ref. */
  lemma {:induction false} LookupOnlyOnGitHub(path: string, engine: string, engineVersion: string,
                           style: Option<string>, up: Upstream, helpers: Helpers)
    requires ParsePath(path).Parsed?
    ensures var run := Render(path, engine, engineVersion, style, up, helpers);
            var r := ParsePath(path).reference;
      && (r.service == GitHub ==> run.trace[0] == Lookup(r.owner, r.repo, r.ref))
      && (forall i :: 0 <= i < |run.trace| && run.trace[i].Lookup? ==>
            i == 0 && r.service == GitHub)
  {
    var r := ParsePath(path).reference;
    assert Render(path, engine, engineVersion, style, up, helpers)
        == RenderReference(r, engine, engineVersion, style, up, helpers);
    ReferenceLookups(r, engine, engineVersion, style, up, helpers);
  }

  /** Proof step for LookupOnlyOnGitHub, for an already parsed reference. */
  lemma {:induction false} ReferenceLookups(r: Reference, engine: string, engineVersion: string,
                                            style: Option<string>, up: Upstream, helpers: Helpers)
    ensures var t := RenderReference(r, engine, engineVersion, style, up, helpers).trace;
      && (r.service == GitHub ==> t[0] == Lookup(r.owner, r.repo, r.ref))
      && (forall i :: 0 <= i < |t| && t[i].Lookup? ==> i == 0 && r.service == GitHub)
  {
    var run := RenderReference(r, engine, engineVersion, style, up, helpers);
    var prefix := ContentPrefix(r, up);
    var docUrl := DocumentUrl(prefix, r.lastFile);
    if run.outcome.PageNotFound? {
      LookupsThenFetches(r, [Get(docUrl)]);
    } else {
      LookupsThenFetches(r, [Get(docUrl), Get(OverlayUrl(prefix, r.lastFile, ".css")),
                             Get(OverlayUrl(prefix, r.lastFile, ".conf"))]);
    }
  }

  /** Proof step for LookupOnlyOnGitHub: a lookup prefix followed by fetches
      only holds its lookup at the front. */
  lemma {:induction false} LookupsThenFetches(r: Reference, tail: seq<Event>)
    requires forall k :: 0 <= k < |tail| ==> tail[k].Get?
    ensures var t := Lookups(r) + tail;
      && (r.service == GitHub ==> t[0] == Lookup(r.owner, r.repo, r.ref))
      && (forall i :: 0 <= i < |t| && t[i].Lookup? ==> i == 0 && r.service == GitHub)
  {
    var t := Lookups(r) + tail;
    assert forall k :: |Lookups(r)| <= k < |t| ==> t[k] == tail[k - |Lookups(r)|];
  }

  /** Away from GitHub the commit lookup is never consulted: any two lookup
      oracles give the same outcome and trace. */
  lemma {:induction false} GenericIgnoresCommitLookup(path: string, engine: string, engineVersion: string,
                                   style: Option<string>, respond: string -> Response,
                                   sha1: (string, string, string) -> string,
                                   sha2: (string, string, string) -> string, helpers: Helpers)
    requires ParsePath(path).Parsed? && ParsePath(path).reference.service != GitHub
    ensures Render(path, engine, engineVersion, style, Upstream(respond, sha1), helpers)
         == Render(path, engine, engineVersion, style, Upstream(respond, sha2), helpers)
  {
  }

  /** On GitHub the document URL spells owner, repository and resolved sha,
      then the directory segments of the path, with `//` before the file
      name, or `///` when there is a directory. */
  lemma {:induction false} GitHubDocumentUrl(path: string, up: Upstream)
    requires ParsePath(path).Parsed? && ParsePath(path).reference.service == GitHub
    ensures var segs := Split(path, '/');
            var r := ParsePath(path).reference;
            var base := RawGitCdn + segs[1] + "/" + segs[2] + "/" + up.commitSha(segs[1], segs[2], segs[3]);
            var docUrl := DocumentUrl(ContentPrefix(r, up), r.lastFile);
      && (|segs| == 4 ==> docUrl == base + "//")
      && (|segs| == 5 ==> docUrl == base + "//" + segs[4])
      && (|segs| >= 6 ==> docUrl == base + "/" + Join(segs[4..|segs| - 1], "/") + "///" + Last(segs))
  {
    var segs := Split(path, '/');
    var r := ParsePath(path).reference;
    var sha := up.commitSha(r.owner, r.repo, r.ref);
    ParsedFile(path);
    if |segs| >= 6 {
      assert r.filePath == Join(segs[4..], "/");
      NestedDocumentUrl(r.owner, r.repo, sha, segs);
    } else {
      SplitNoSeparator(r.filePath, '/');
      GitHubPrefixWithoutDirectory(r.owner, r.repo, sha, r.filePath);
    }
  }

  /** Proof step for GitHubDocumentUrl: the case of a file in a directory. */
  lemma {:induction false} NestedDocumentUrl(owner: string, repo: string, sha: string, segs: seq<string>)
    requires |segs| >= 6
    requires forall i :: 0 <= i < |segs| ==> '/' !in segs[i]
    ensures DocumentUrl(GitHubPrefix(owner, repo, sha, Join(segs[4..], "/")), Last(segs))
         == RawGitCdn + owner + "/" + repo + "/" + sha + "/" + Join(segs[4..|segs| - 1], "/") + "///" + Last(segs)
  {
    var fileSegs := segs[4..];
    assert forall i :: 0 <= i < |fileSegs| ==> '/' !in fileSegs[i] by {
      forall i | 0 <= i < |fileSegs| ensures '/' !in fileSegs[i] {
        assert fileSegs[i] == segs[4 + i];
      }
    }
    assert DropLast(fileSegs) == segs[4..|segs| - 1];
    assert Last(fileSegs) == Last(segs);
    GitHubPrefixWithDirectory(owner, repo, sha, fileSegs);
  }

  /** Away from GitHub the document URL is the service's raw route for the
      ref, a further `/`, and the file name: the directory segments of the
      path play no part. */
  lemma {:induction false} GenericDocumentUrl(path: string, up: Upstream)
    requires ParsePath(path).Parsed? && ParsePath(path).reference.service != GitHub
    ensures var segs := Split(path, '/');
            var r := ParsePath(path).reference;
      DocumentUrl(ContentPrefix(r, up), r.lastFile)
        == "https://" + segs[0] + "/" + segs[1] + "/" + segs[2] + "/raw/" + segs[3] + "//"
           + (if |segs| > 4 then Last(segs) else "")
  {
    ParsedFile(path);
  }

  /** The generic prefix depends only on the four leading segments: two
      paths that share them share it, whatever their files. */
  lemma {:induction false} GenericPrefixIgnoresFile(path1: string, path2: string, up: Upstream)
    requires ParsePath(path1).Parsed? && ParsePath(path2).Parsed?
    requires Split(path1, '/')[..4] == Split(path2, '/')[..4]
    requires ParsePath(path1).reference.service != GitHub
    ensures ContentPrefix(ParsePath(path1).reference, up) == ContentPrefix(ParsePath(path2).reference, up)
  {
    var s1, s2 := Split(path1, '/'), Split(path2, '/');
    assert s1[0] == s1[..4][0] && s1[1] == s1[..4][1] && s1[2] == s1[..4][2] && s1[3] == s1[..4][3];
    assert s2[0] == s2[..4][0] && s2[1] == s2[..4][1] && s2[2] == s2[..4][2] && s2[3] == s2[..4][3];
  }

  /** The first two routes put `github.com/` in front of their path: the path
      needs three segments, and they are the owner, repository and ref of a
      GitHub reference. */
  lemma {:induction false} GitHubRoutePath(path: string)
    ensures var segs := Split(path, '/');
            var parsed := ParsePath(GitHub + "/" + path);
      && (parsed.TooFewSegments? <==> |segs| < 3)
      && (parsed.Parsed? ==>
            && parsed.reference.service == GitHub
            && parsed.reference.owner == segs[0]
            && parsed.reference.repo == segs[1]
            && parsed.reference.ref == segs[2])
  {
    assert '/' !in GitHub;
    SplitAtFirst(GitHub, path, '/');
    assert GitHub + "/" + path == GitHub + ['/'] + path;
  }

  /** The network as the request handler sees it: every call answers from
      the upstream oracle and is appended to the log. */
  class Network {
    const upstream: Upstream
    var log: seq<Event>

    constructor (upstream: Upstream)
      ensures this.upstream == upstream && log == []
    {
      this.upstream := upstream;
      log := [];
    }

    /** `requests.get(url)`. */
    method Get(url: string) returns (response: Response)
      modifies this
      ensures response == upstream.respond(url)
      ensures log == old(log) + [Event.Get(url)]
    {
      response := upstream.respond(url);
      log := log + [Event.Get(url)];
    }

    /** The commits-API lookup that turns a ref into a full sha. */
    method CommitSha(owner: string, repo: string, ref: string) returns (sha: string)
      modifies this
      ensures sha == upstream.commitSha(owner, repo, ref)
      ensures log == old(log) + [Lookup(owner, repo, ref)]
    {
      sha := upstream.commitSha(owner, repo, ref);
      log := log + [Lookup(owner, repo, ref)];
    }
  }

  /** Pins a GitHub ref to its commit sha (one lookup) and builds the
      content prefix; other services need no lookup. */
  method ResolvePrefix(net: Network, r: Reference) returns (prefix: string)
    modifies net
    ensures prefix == ContentPrefix(r, net.upstream)
    ensures net.log == old(net.log) + Lookups(r)
  {
    if r.service == GitHub {
      // the CDN caches a URL forever, and a sha never moves
      var sha := net.CommitSha(r.owner, r.repo, r.ref);
      prefix := GitHubPrefix(r.owner, r.repo, sha, r.filePath);
    } else {
      prefix := GenericPrefix(r.service, r.owner, r.repo, r.ref);
    }
  }

  /** Fetches the `.css` and `.conf` overlays next to the document; the
      `.js` overlay is deliberately never fetched and stays empty. */
  method FetchOverlays(net: Network, prefix: string, lastFile: string)
    returns (ownCss: string, ownJavascript: string, ownConf: string)
    modifies net
    ensures ownCss == OptionalOverlay(net.upstream.respond(OverlayUrl(prefix, lastFile, ".css")))
    ensures ownJavascript == ""
    ensures ownConf == ConfOverlay(net.upstream.respond(OverlayUrl(prefix, lastFile, ".conf")))
    ensures net.log == old(net.log)
      + [Get(OverlayUrl(prefix, lastFile, ".css")), Get(OverlayUrl(prefix, lastFile, ".conf"))]
  {
    var (fileWithoutSuffix, _) := SplitExt(lastFile);

    var url := prefix + "/" + fileWithoutSuffix + ".css";
    var response := net.Get(url);
    if response.status == NotFound {
      ownCss := "";
    } else {
      ownCss := response.body;
    }

    ownJavascript := "";

    url := prefix + "/" + fileWithoutSuffix + ".conf";
    response := net.Get(url);
    if response.status == NotFound {
      ownConf := "";
    } else {
      JoinedLinesAreCommaNewlines(response.body);
      ownConf := Join(Split(response.body, '\n'), ",\n");
    }
  }

  /** The request handler: unpack the path, then serve the reference. */
  method RenderGithubMarkdown(net: Network, path: string, engine: string, engineVersion: string,
                              style: Option<string>, helpers: Helpers) returns (outcome: Outcome)
    modifies net
    ensures var run := Render(path, engine, engineVersion, style, net.upstream, helpers);
      outcome == run.outcome && net.log == old(net.log) + run.trace
  {
    var parsed := ParsePath(path);
    if parsed.TooFewSegments? {
      return MalformedPath;
    }
    outcome := ServeReference(net, parsed.reference, engine, engineVersion, style, helpers);
  }

  /** Serves a parsed reference step by step: the outcome and the requests it
      makes are those of RenderReference. */
  method ServeReference(net: Network, r: Reference, engine: string, engineVersion: string,
                        style: Option<string>, helpers: Helpers) returns (outcome: Outcome)
    modifies net
    ensures var run := RenderReference(r, engine, engineVersion, style, net.upstream, helpers);
      outcome == run.outcome && net.log == old(net.log) + run.trace
  {
    var prefix := ResolvePrefix(net, r);

    var url := DocumentUrl(prefix, r.lastFile);
    var response := net.Get(url);
    if response.status == NotFound {
      return PageNotFound;
    }
    var markdown := response.body;
    var title := helpers.extractTitle(markdown);
    var chosenStyle := if style.Some? then style.value else DefaultStyle;

    var ownCss, ownJavascript, ownConf := FetchOverlays(net, prefix, r.lastFile);
    ghost var trace := Lookups(r) + [Get(url), Get(OverlayUrl(prefix, r.lastFile, ".css")),
                                     Get(OverlayUrl(prefix, r.lastFile, ".conf"))];
    assert net.log == old(net.log) + trace;

    outcome := Rendered(Bundle(title, helpers.fixImages(markdown, prefix), chosenStyle,
                               ownCss, ownJavascript, ownConf, engine + "-" + engineVersion));
    assert RenderReference(r, engine, engineVersion, style, net.upstream, helpers) == Run(outcome, trace);
  }

  /** Route `/v1/github/<path>/remark/`: a GitHub path rendered with remark 0.13.0. */
  method RenderV1(net: Network, path: string, style: Option<string>, helpers: Helpers)
    returns (outcome: Outcome)
    modifies net
    ensures var run := Render(GitHub + "/" + path, "remark", "0.13.0", style, net.upstream, helpers);
      outcome == run.outcome && net.log == old(net.log) + run.trace
  {
    outcome := RenderGithubMarkdown(net, GitHub + "/" + path, "remark", "0.13.0", style, helpers);
  }

  /** Route `/v2/remark/github/<path>/`: the same as the first route. */
  method RenderV2(net: Network, path: string, style: Option<string>, helpers: Helpers)
    returns (outcome: Outcome)
    modifies net
    ensures var run := Render(GitHub + "/" + path, "remark", "0.13.0", style, net.upstream, helpers);
      outcome == run.outcome && net.log == old(net.log) + run.trace
  {
    outcome := RenderGithubMarkdown(net, GitHub + "/" + path, "remark", "0.13.0", style, helpers);
  }

  /** Route `/v3/<engine>/<engine_version>/<path>/`: path and engine as given. */
  method RenderV3(net: Network, path: string, engine: string, engineVersion: string,
                  style: Option<string>, helpers: Helpers) returns (outcome: Outcome)
    modifies net
    ensures var run := Render(path, engine, engineVersion, style, net.upstream, helpers);
      outcome == run.outcome && net.log == old(net.log) + run.trace
  {
    outcome := RenderGithubMarkdown(net, path, engine, engineVersion, style, helpers);
  }
}
