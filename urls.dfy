/** Where a document and its sibling files are fetched from: a URL prefix
    per hosting service, and the URLs of the document and of its overlays
    (the same name with another extension) under that prefix. */
module Urls {
  import opened Text
  import opened Paths

  /** The one service whose refs are pinned to a commit sha. */
  const GitHub := "github.com"

  /** The CDN mirror that serves GitHub files by commit sha. */
  const RawGitCdn := "https://cdn.rawgit.com/"

  /** Prefix for a GitHub file: the CDN mirror, owner, repository, the
      resolved commit sha and, when the file path has a directory part, that
      directory followed by `/`; the whole ends in `/`. */
  function GitHubPrefix(owner: string, repo: string, sha: string, filePath: string): (prefix: string)
    ensures RawGitCdn + owner + "/" + repo + "/" + sha + "/" <= prefix
    ensures prefix[|prefix| - 1] == '/'
  {
    var root := owner + "/" + repo + "/" + sha;
    var root := if '/' in filePath then root + "/" + Join(DropLast(Split(filePath, '/')), "/") + "/" else root;
    RawGitCdn + root + "/"
  }

  /** Prefix for any other service: its generic raw-file route keyed by the
      ref itself; the file's directory is not part of it. */
  function GenericPrefix(service: string, owner: string, repo: string, ref: string): (prefix: string)
    ensures "https://" + service + "/" <= prefix
    ensures prefix[|prefix| - 1] == '/'
  {
    "https://" + service + "/" + owner + "/" + repo + "/raw/" + ref + "/"
  }

  /** The document's URL: prefix, a further `/`, then the file name. */
  function DocumentUrl(prefix: string, lastFile: string): string
  {
    prefix + "/" + lastFile
  }

  /** An overlay's URL: the document's URL with the file's extension (as
      `os.path.splitext` finds it) replaced by `ext`. */
  function OverlayUrl(prefix: string, lastFile: string, ext: string): (url: string)
    ensures prefix + "/" <= url
    ensures |url| >= |ext| && url[|url| - |ext|..] == ext
    ensures DocumentUrl(prefix, lastFile) == url[..|url| - |ext|] + SplitExt(lastFile).1
  {
    prefix + "/" + SplitExt(lastFile).0 + ext
  }

  /** The script overlay's URL is neither the stylesheet's nor the
      configuration's: the three end in different extensions. */
  lemma {:induction false} OverlayExtensionsDiffer(prefix: string, lastFile: string)
    ensures OverlayUrl(prefix, lastFile, ".js") != OverlayUrl(prefix, lastFile, ".css")
    ensures OverlayUrl(prefix, lastFile, ".js") != OverlayUrl(prefix, lastFile, ".conf")
  {
    var js := OverlayUrl(prefix, lastFile, ".js");
    var css := OverlayUrl(prefix, lastFile, ".css");
    var conf := OverlayUrl(prefix, lastFile, ".conf");
    assert js[|js| - 3] == '.' by { assert js[|js| - 3..][0] == '.'; }
    assert css[|css| - 3] == 'c' by { assert css[|css| - 4..][1] == 'c'; }
    assert conf[|conf| - 3] == 'o' by { assert conf[|conf| - 5..][2] == 'o'; }
  }

  /** With a directory, the GitHub prefix spells the file path's leading
      segments after the sha and closes with `//`, so the document's URL
      has `///` before the file name. */
  lemma {:induction false} GitHubPrefixWithDirectory(owner: string, repo: string, sha: string, fileSegs: seq<string>)
    requires |fileSegs| >= 2
    requires forall i :: 0 <= i < |fileSegs| ==> '/' !in fileSegs[i]
    ensures var base := RawGitCdn + owner + "/" + repo + "/" + sha + "/" + Join(DropLast(fileSegs), "/");
            var prefix := GitHubPrefix(owner, repo, sha, Join(fileSegs, "/"));
      && prefix == base + "//"
      && DocumentUrl(prefix, Last(fileSegs)) == base + "///" + Last(fileSegs)
  {
    var filePath := Join(fileSegs, "/");
    var base := RawGitCdn + owner + "/" + repo + "/" + sha + "/" + Join(DropLast(fileSegs), "/");
    SplitOfJoin(fileSegs, '/');
    SplitsWhenSeparatorOccurs(filePath, '/');
    GitHubPrefixNested(owner, repo, sha, filePath);
    assert GitHubPrefix(owner, repo, sha, filePath) == base + "//";
    assert (base + "//") + "/" == base + "///";
  }

  /** The GitHub prefix of a file path that contains `/`, in terms of the
      path's own segments. */
  lemma {:induction false} GitHubPrefixNested(owner: string, repo: string, sha: string, filePath: string)
    requires '/' in filePath
    ensures GitHubPrefix(owner, repo, sha, filePath)
         == RawGitCdn + owner + "/" + repo + "/" + sha + "/" + Join(DropLast(Split(filePath, '/')), "/") + "//"
  {
  }

  /** Without a directory, the GitHub prefix ends right after the sha, so the
      document's URL has `//` before the file name. A file path without `/`
      is the file name itself. */
  lemma {:induction false} GitHubPrefixWithoutDirectory(owner: string, repo: string, sha: string, filePath: string)
    requires '/' !in filePath
    ensures var base := RawGitCdn + owner + "/" + repo + "/" + sha;
            var prefix := GitHubPrefix(owner, repo, sha, filePath);
      && prefix == base + "/"
      && DocumentUrl(prefix, filePath) == base + "//" + filePath
  {
  }
}
