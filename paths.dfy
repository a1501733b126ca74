/** The request path of a render request: its four leading segments
    (service, owner, repository, ref), the file path after them, the file's
    name, and that name split into stem and extension as `os.path.splitext`
    does. */
module Paths {
  import opened Text

  /** A parsed request path. `filePath` is everything after the fourth
      segment; `lastFile` is the name of the requested document. */
  datatype Reference = Reference(
    service: string,
    owner: string,
    repo: string,
    ref: string,
    filePath: string,
    lastFile: string)

  /** Parsing either yields a reference or fails the way the tuple
      unpacking `(service, owner, repo, ref) = ...[0:4]` fails (Python raises
      ValueError) when the path has fewer than four segments. */
  datatype Parsed = Parsed(reference: Reference) | TooFewSegments

  /** Python's `xs[n:]`, which is empty when the list is too short. */
  function Drop(xs: seq<string>, n: nat): (ys: seq<string>)
    ensures |xs| <= n ==> ys == []
    ensures |xs| > n ==> ys == xs[n..]
  {
    if |xs| <= n then [] else xs[n..]
  }

  /** Splits a request path such as `github.com/bast/cicero/master/doc/x.md`. */
  function ParsePath(path: string): (p: Parsed)
    ensures var segs := Split(path, '/');
      && (p.TooFewSegments? <==> |segs| < 4)
      && (p.Parsed? ==>
            && p.reference.service == segs[0]
            && p.reference.owner == segs[1]
            && p.reference.repo == segs[2]
            && p.reference.ref == segs[3])
  {
    var segs := Split(path, '/');
    var filePath := Join(Drop(segs, 4), "/");
    var lastFile := if '/' in filePath then Last(Split(filePath, '/')) else filePath;
    if |segs| < 4 then TooFewSegments
    else Parsed(Reference(segs[0], segs[1], segs[2], segs[3], filePath, lastFile))
  }

  /** What the parse says about the file part: the file path's own segments
      are the path's fifth and later segments (one empty segment when there
      are none), and the file name is the last of them and carries no `/`. */
  lemma {:induction false} ParsedFile(path: string)
    requires ParsePath(path).Parsed?
    ensures var segs := Split(path, '/');
            var r := ParsePath(path).reference;
      && Split(r.filePath, '/') == (if |segs| > 4 then segs[4..] else [""])
      && r.lastFile == Last(Split(r.filePath, '/'))
      && r.lastFile == (if |segs| > 4 then Last(segs) else "")
      && '/' !in r.lastFile
  {
    var segs := Split(path, '/');
    var r := ParsePath(path).reference;
    if |segs| > 4 {
      SplitOfJoin(segs[4..], '/');
    } else {
      assert Split("", '/') == [""];
    }
    if '/' !in r.filePath {
      SplitNoSeparator(r.filePath, '/');
    }
  }

  /** The four leading fields, then the file path when the path has more
      than four segments, spell the request path again. */
  lemma {:induction false} ParsedSpellsPath(path: string)
    requires ParsePath(path).Parsed?
    ensures var r := ParsePath(path).reference;
      path == r.service + "/" + r.owner + "/" + r.repo + "/" + r.ref
              + (if |Split(path, '/')| > 4 then "/" + r.filePath else "")
  {
    var segs := Split(path, '/');
    var head := segs[0] + "/" + segs[1] + "/" + segs[2] + "/" + segs[3];
    assert Join(segs[..4], "/") == head by {
      JoinFour(segs[0], segs[1], segs[2], segs[3], "/");
      assert segs[..4] == [segs[0], segs[1], segs[2], segs[3]];
    }
    if |segs| > 4 {
      assert path == head + "/" + Join(segs[4..], "/") by {
        JoinAppend(segs[..4], segs[4..], "/");
        assert segs[..4] + segs[4..] == segs;
      }
    } else {
      assert path == head by {
        assert segs[..4] == segs;
      }
    }
  }

  /** Joining four parts. */
  lemma {:induction false} JoinFour(a: string, b: string, c: string, d: string, sep: string)
    ensures Join([a, b, c, d], sep) == a + sep + b + sep + c + sep + d
  {
    assert [c, d][1..] == [d];
    assert Join([c, d], sep) == c + sep + d;
    assert [b, c, d][1..] == [c, d];
    assert Join([b, c, d], sep) == b + sep + (c + sep + d);
    assert [a, b, c, d][1..] == [b, c, d];
  }

  /** True when some character of `s` is not a dot. */
  predicate HasNonDot(s: string)
  {
    exists i :: 0 <= i < |s| && s[i] != '.'
  }

  /** True when some dot of `s` has a non-dot character somewhere before it. */
  predicate DotAfterNonDot(s: string)
  {
    exists i, j :: 0 <= j < i < |s| && s[j] != '.' && s[i] == '.'
  }

  /** `os.path.splitext(p)` on POSIX: the extension starts at the last dot of
      the last path component, unless every character before that dot in the
      component is itself a dot (so `.bashrc` has no extension). */
  function SplitExt(p: string): (r: (string, string))
    ensures r.0 + r.1 == p
    ensures r.1 == "" || (r.1[0] == '.' && '.' !in r.1[1..] && '/' !in r.1)
    ensures '/' !in p ==>
      (r.1 != "" <==> DotAfterNonDot(p))
  {
    var sepIndex := RFind(p, '/');
    var dotIndex := RFind(p, '.');
    ExtensionCondition(p);
    if dotIndex > sepIndex && HasNonDot(p[sepIndex + 1..dotIndex]) then
      ExtensionShape(p, dotIndex);
      (p[..dotIndex], p[dotIndex..])
    else
      (p, "")
  }

  /** Proof step for SplitExt: from the last dot after the last `/` on, the
      text is one dot followed by neither dot nor `/`. */
  lemma {:induction false} ExtensionShape(p: string, dotIndex: int)
    requires 0 <= dotIndex < |p| && dotIndex == RFind(p, '.')
    requires dotIndex > RFind(p, '/')
    ensures p[..dotIndex] + p[dotIndex..] == p
    ensures var ext := p[dotIndex..];
      ext[0] == '.' && '.' !in ext[1..] && '/' !in ext
  {
    var ext := p[dotIndex..];
    assert forall k :: 0 <= k < |ext| ==> ext[k] == p[dotIndex + k];
    assert forall k :: 0 <= k < |ext[1..]| ==> ext[1..][k] == p[dotIndex + 1 + k];
  }

  /** Proof step for SplitExt: in a name without `/`, the dot branch is
      taken exactly when some dot has a non-dot character before it. */
  lemma {:induction false} ExtensionCondition(p: string)
    ensures var sepIndex := RFind(p, '/');
            var dotIndex := RFind(p, '.');
      '/' !in p ==>
        ((dotIndex > sepIndex && HasNonDot(p[sepIndex + 1..dotIndex])) <==> DotAfterNonDot(p))
  {
    if '/' !in p {
      var dotIndex := RFind(p, '.');
      NoSlashNoSepIndex(p);
      if DotAfterNonDot(p) {
        var i, j :| 0 <= j < i < |p| && p[j] != '.' && p[i] == '.';
        NonDotBeforeDot(p, i, j);
      }
      if dotIndex > -1 && HasNonDot(p[..dotIndex]) {
        var k :| 0 <= k < |p[..dotIndex]| && p[..dotIndex][k] != '.';
        assert p[k] != '.' && p[dotIndex] == '.';
      }
    }
  }

  /** Without `/`, `rfind('/')` is -1. */
  lemma {:induction false} NoSlashNoSepIndex(p: string)
    requires '/' !in p
    ensures RFind(p, '/') == -1
  {
  }

  /** A dot after a non-dot character lies at or before the last dot, so the
      text before the last dot holds a non-dot character. */
  lemma {:induction false} NonDotBeforeDot(p: string, i: int, j: int)
    requires 0 <= j < i < |p| && p[j] != '.' && p[i] == '.'
    ensures j < RFind(p, '.') && HasNonDot(p[..RFind(p, '.')])
  {
    var dotIndex := RFind(p, '.');
    assert i <= dotIndex;
    assert p[..dotIndex][j] == p[j];
  }

  /** A plain extension, as `os.path.splitext` finds it. */
  lemma {:induction false} SplitExtPlainName()
    ensures SplitExt("README.md") == ("README", ".md")
  {
    NoSlashNoSepIndex("README.md");
    assert RFind("README.md", '.') == 6 by {
      assert "README.md"[..8] == "README.m";
      assert "README.m"[..7] == "README.";
    }
    assert HasNonDot("README.md"[0..6]) by {
      assert "README.md"[0..6][0] == 'R';
    }
    assert "README.md"[..6] == "README";
    assert "README.md"[6..] == ".md";
  }

  /** A leading dot, which `os.path.splitext` does not treat as an extension. */
  lemma {:induction false} SplitExtHiddenName()
    ensures SplitExt(".bashrc") == (".bashrc", "")
  {
    NoSlashNoSepIndex(".bashrc");
    assert RFind(".bashrc", '.') == 0 by {
      assert ".bashrc"[..6] == ".bashr";
      assert ".bashr"[..5] == ".bash";
      assert ".bash"[..4] == ".bas";
      assert ".bas"[..3] == ".ba";
      assert ".ba"[..2] == ".b";
      assert ".b"[..1] == ".";
    }
  }
}
