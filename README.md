# cicero render pipeline, modelled in Dafny

cicero serves slide decks written in Markdown straight from a source-control
host. A request names a file as `service/owner/repo/ref/path/to/file.md`.
`render_github_markdown` (cicero/git.py) does three things:

- It resolves that reference to a URL prefix. On GitHub, the ref is first
  pinned to a full commit sha through the commits API, and the prefix points
  at the `cdn.rawgit.com` mirror, which caches by sha forever. Any other
  service uses its `/raw/<ref>/` route.
- It fetches the document. A 404 ends the request with the not-found page.
- Otherwise it fetches two optional overlays beside the document: a
  stylesheet (`.css`) and a renderer configuration (`.conf`). They have the
  same name with the extension replaced. It then hands the page template a
  bundle: title, link-rewritten Markdown, style, stylesheet, an always-empty
  script, configuration, and engine. The script overlay (`.js`) is
  never requested on its own.

Three routes call it:

- `/v1/github/<path>/remark/` and `/v2/remark/github/<path>/` put
  `github.com/` in front of the path and use remark 0.13.0.
- `/v3/<engine>/<engine_version>/<path>/` passes everything through.

The project has five modules:

- `Text`: Python's `str.split` for one character, `str.join` and `str.rfind`
  on strings. Also lemmas tying split and join together.
- `Paths`: the parse of the request path into a `Reference`, and
  `os.path.splitext` with its POSIX rules. Under those rules the extension
  starts at the last dot of the last component, and a name made only of
  leading dots before that dot has no extension.
- `Urls`: the two prefix shapes and the document and overlay URLs, including
  the doubled `/` the code produces. The document URL is `prefix + '/' + name`
  and every prefix already ends in `/`. So a GitHub file at the top of the
  repository is fetched from `.../<sha>//name`, and one in a directory from
  `.../<sha>/<dir>///name`.
- `Overlays`: a response as status and body. A 404 means the overlay is
  absent and any other status means it is present. A configuration's lines
  are joined with `",\n"`, which is the body with a comma put before every
  newline.
- `Pipeline`: the outside world is an `Upstream` value. It holds the
  response every URL gets and the sha the commits API reports for every
  (owner, repo, ref).
  - `Render` / `RenderReference` state, as a value, what a request does: its
    outcome and the ordered trace of lookups and fetches.
  - `Network` is a class holding the upstream and a request log.
  - `RenderGithubMarkdown` and the route methods walk the source's steps one
    call at a time over a `Network`. They are proved to yield the outcome of
    `Render` and to append exactly its trace to the log.

A path with fewer than four segments makes the tuple unpacking at
cicero/git.py:50 raise `ValueError`. The model gives that the outcome
`MalformedPath`, with no request made.

Two behaviours of the code are kept as they are:

- The script fetch at cicero/git.py:92-97 is commented out, so only the
  `.css` and `.conf` overlays are fetched and `own_javascript` is always
  empty.
- Only status 404 is tested (lines 69, 85, 104); any other status, 500
  included, counts as present and its body is used.

## Model

| member | source | states |
|---|---|---|
| Text.Split | cicero/git.py:44 | `s.split(sep)` has one more piece than `s` has separators, no piece holds the separator, and joining the pieces with the separator gives `s` back |
| Text.Join | cicero/git.py:44 | `sep.join(parts)`; its value is fixed by the round trips it completes: Text.Split joins back to its input, and Text.SplitOfJoin splits a join of separator-free parts back into those parts |
| Text.SplitOfJoin | cicero/git.py:44-46 | splitting `'/'.join(parts)` of separator-free parts gives the parts back, so the file path's own segments are the path's segments after the fourth |
| Text.SplitsWhenSeparatorOccurs | cicero/git.py:45-46 | a string splits into more than one piece exactly when it contains the separator, both directions |
| Text.RFind | cicero/git.py:79 | `rfind` returns -1 or an index holding the character, with no occurrence after it |
| Paths.ParsePath | cicero/git.py:44-50 | the parse fails exactly when the path has fewer than four `/`-separated segments; otherwise service, owner, repo and ref are the first four segments |
| Paths.ParsedFile | cicero/git.py:44-48 | the file path's segments are the path's fifth and later segments (one empty segment when there are none); the file name is the last of them, the path's last segment or empty, and has no `/` |
| Paths.ParsedSpellsPath | cicero/git.py:44-50 | the four leading fields joined by `/`, followed by `/` and the file path when there is one, spell the request path again |
| Paths.SplitExt | cicero/git.py:79 | stem and extension concatenate to the name; the extension is empty or one dot followed by neither dot nor `/`; for a name without `/` it is non-empty exactly when some dot follows a non-dot character |
| Paths.SplitExtPlainName | cicero/git.py:79 | `README.md` splits into `README` and `.md` |
| Paths.SplitExtHiddenName | cicero/git.py:79 | `.bashrc` has no extension |
| Urls.GitHubPrefix | cicero/git.py:58-62 | the GitHub prefix starts with the CDN mirror, owner, repo and commit sha, and ends in `/` |
| Urls.GenericPrefix | cicero/git.py:63-64 | any other service's prefix starts with `https://<service>/` and ends in `/` |
| Urls.DocumentUrl | cicero/git.py:66 | `prefix + '/' + last_file`, the source of the doubled `/`; its value is stated by Urls.GitHubPrefixWithDirectory (`///` before the name), Urls.GitHubPrefixWithoutDirectory (`//`), Pipeline.GitHubDocumentUrl and Pipeline.GenericDocumentUrl (in terms of the path's segments), and Urls.OverlayUrl (the overlay URLs differ from it only in the extension) |
| Urls.GitHubPrefixWithDirectory | cicero/git.py:58-66 | with a directory, the GitHub prefix is the mirror, owner, repo, sha and directory segments followed by `//`, so the document URL has `///` before the file name |
| Urls.GitHubPrefixWithoutDirectory | cicero/git.py:58-66 | without a directory, the GitHub prefix ends right after the sha's `/`, so the document URL has `//` before the file name |
| Urls.OverlayUrl | cicero/git.py:79-83 | an overlay URL starts with the prefix and `/` and ends with the new extension; swapping that extension for the file's own gives the document URL back |
| Urls.OverlayExtensionsDiffer | cicero/git.py:83-102 | the `.js` overlay URL of a file is neither its `.css` nor its `.conf` overlay URL |
| Overlays.OptionalOverlay | cicero/git.py:84-88 | a 404 stylesheet is the empty string; any other status yields its body unchanged |
| Overlays.CommaNewlines | cicero/git.py:107 | the reference reading of a configuration keeps the number of newlines and grows by exactly one character per newline |
| Overlays.CommaNewlinesRoundTrip | cicero/git.py:107 | removing the comma before each newline recovers the original configuration text |
| Overlays.JoinedLinesAreCommaNewlines | cicero/git.py:107 | `",\n".join(s.split("\n"))` equals the reference reading: the text with a comma before each newline |
| Overlays.ConfOverlay | cicero/git.py:102-107 | a 404 configuration is the empty string; any other status yields the body with a comma before each newline |
| Pipeline.ContentPrefix | cicero/git.py:52-64 | on GitHub the prefix is rooted at the commit sha the lookup reports for (owner, repo, ref); elsewhere it is the service's raw route for the ref |
| Pipeline.Render | cicero/git.py:40-116 | a request is malformed exactly when the path has fewer than four segments, and then makes no request |
| Pipeline.RenderReference | cicero/git.py:52-116 | the request ends in not-found exactly when the document URL answers 404, after the lookup (GitHub only) and that one fetch; otherwise it fetches the document, `.css` and `.conf` in order, and the bundle carries the extracted title, the image-fixed Markdown against the prefix, the requested style or `default`, the stylesheet (empty on 404), an empty script, the comma-joined configuration (empty on 404), and `engine-version` |
| Pipeline.FetchedUrls | cicero/git.py:66-107 | a missing document is the only URL fetched; a present one is followed by exactly its `.css` and `.conf` overlay URLs; the script overlay's URL is fetched only when it is the document's own URL (a document named `*.js`) |
| Pipeline.LookupOnlyOnGitHub | cicero/git.py:52-56 | a GitHub request starts with the commit lookup for its owner, repo and ref; no other request makes a lookup, and none is made later |
| Pipeline.GenericIgnoresCommitLookup | cicero/git.py:52-64 | away from GitHub the outcome and trace do not depend on the commit lookup |
| Pipeline.GitHubDocumentUrl | cicero/git.py:52-66 | on GitHub the document URL, in terms of the path's segments, is mirror, owner, repo and sha followed by `//` (no file), `//name` (file at top level) or `/dir.../` and `///name` (file in a directory) |
| Pipeline.GenericDocumentUrl | cicero/git.py:63-66 | away from GitHub the document URL is `https://service/owner/repo/raw/ref//` followed by the path's last segment; the directory plays no part |
| Pipeline.GenericPrefixIgnoresFile | cicero/git.py:63-64 | away from GitHub two paths with the same four leading segments get the same prefix, whatever their files |
| Pipeline.GitHubRoutePath | cicero/git.py:119-126 | behind `github.com/`, a route path is malformed exactly when it has fewer than three segments; otherwise it is a GitHub reference whose owner, repo and ref are its first three segments |
| Pipeline.Network.Get | cicero/git.py:68 | a fetch answers with the upstream's response for the URL and appends that fetch to the log |
| Pipeline.Network.CommitSha | cicero/git.py:15-19 | a lookup answers with the upstream's sha for (owner, repo, ref) and appends that lookup to the log |
| Pipeline.ResolvePrefix | cicero/git.py:52-64 | the prefix computed step by step is `ContentPrefix`, and the log grows by the one lookup on GitHub and by nothing elsewhere |
| Pipeline.FetchOverlays | cicero/git.py:79-107 | the stylesheet and configuration fetched step by step are the optional and comma-joined readings of the `.css` and `.conf` URLs, the script is empty, and exactly those two fetches are logged |
| Pipeline.ServeReference | cicero/git.py:52-116 | serving a parsed reference call by call yields the outcome of `RenderReference` and appends exactly its trace to the log |
| Pipeline.RenderGithubMarkdown | cicero/git.py:40-116 | the handler yields the outcome of `Render` and appends exactly its trace to the log |
| Pipeline.RenderV1 | cicero/git.py:119-121 | the v1 route is `Render` of `github.com/` plus the path with remark 0.13.0 |
| Pipeline.RenderV2 | cicero/git.py:124-126 | the v2 route is `Render` of `github.com/` plus the path with remark 0.13.0 |
| Pipeline.RenderV3 | cicero/git.py:129-131 | the v3 route is `Render` of the path with the engine and version as given |

## Left out

- The commits API call in `get_sha_github` (cicero/git.py:15-19) is the `commitSha` oracle of `Upstream`. Its HTTP request, JSON decoding and a missing `sha` field (which raises) are not modelled.
- Exceptions raised by `requests` are not modelled: connection failures, timeouts and other transport errors. Every URL gets a status and a body.
- Flask is not modelled: routing, `render_template`, the `404.html` and `render.html` pages (the outcomes `PageNotFound` and `Rendered` stand for them), and `flask.Markup`, which only turns off escaping of the stylesheet and leaves its text as is.
- The `style` query parameter is read from the Flask request; here it is a parameter of the handler, `None` when absent.
- `extract_title` (cicero/title.py) and `fix_images` (cicero/images.py) are not part of this model. They are function-valued parameters, so the model states only which text and which prefix they receive.
- `URL_BASE`, `set_url_base` and `home` are not modelled. They are the advertised base URL and the index page, and play no part in rendering.
- The live-network test `test_get_sha_github` is not modelled; it checks one sha against the real GitHub API.
- The upstream answers each URL the same way throughout a request. The source makes separate requests (cicero/git.py:68, 84 and 103); when a document is named `*.css` or `*.conf` its overlay URL is its own URL, and on a host keyed by a movable ref the two answers could differ. The model gives both requests the same answer.
- Pipeline.ContentPrefix: for GitHub its contract states only that the prefix starts at the pinned sha. The exact shape, directory and doubled `/` included, is stated by Urls.GitHubPrefixWithDirectory, Urls.GitHubPrefixWithoutDirectory and Pipeline.GitHubDocumentUrl.
