/** Responses of the raw-file host and how the optional overlays are read
    from them: a 404 means the overlay is absent, every other status counts
    as present, and a renderer configuration has `,` put before each of its
    newlines. */
module Overlays {
  import opened Text

  /** What one GET returned: its status code and its text. */
  datatype Response = Response(status: int, body: string)

  /** The only status the pipeline looks at. */
  const NotFound := 404

  /** A stylesheet overlay: absent (empty) on 404, else the body as it came. */
  function OptionalOverlay(resp: Response): (text: string)
    ensures resp.status == NotFound ==> text == ""
    ensures resp.status != NotFound ==> text == resp.body
  {
    if resp.status == NotFound then "" else resp.body
  }

  /** Reference reading of a configuration fragment: each newline of `s`
      preceded by a comma, everything else kept. */
  function CommaNewlines(s: string): (t: string)
    ensures Count(t, '\n') == Count(s, '\n')
    ensures |t| == |s| + Count(s, '\n')
    decreases |s|
  {
    if s == [] then ""
    else
      var rest := CommaNewlines(s[1..]);
      if s[0] == '\n' then
        assert (",\n" + rest)[1..] == "\n" + rest;
        assert ("\n" + rest)[1..] == rest;
        ",\n" + rest
      else
        assert ([s[0]] + rest)[1..] == rest;
        [s[0]] + rest
  }

  /** Removes the comma in front of each newline that has one. */
  function DropCommaBeforeNewlines(t: string): string
    decreases |t|
  {
    if |t| >= 2 && t[0] == ',' && t[1] == '\n' then "\n" + DropCommaBeforeNewlines(t[2..])
    else if t == [] then ""
    else [t[0]] + DropCommaBeforeNewlines(t[1..])
  }

  /** Removing the inserted commas recovers the original configuration. */
  lemma {:induction false} CommaNewlinesRoundTrip(s: string)
    ensures DropCommaBeforeNewlines(CommaNewlines(s)) == s
    decreases |s|
  {
    if s != [] {
      var rest := CommaNewlines(s[1..]);
      CommaNewlinesRoundTrip(s[1..]);
      if s[0] == '\n' {
        assert (",\n" + rest)[2..] == rest;
      } else {
        assert rest == [] || rest[0] != '\n' by {
          if s[1..] != [] { assert rest[0] == (if s[1] == '\n' then ',' else s[1]); }
        }
        assert ([s[0]] + rest)[1..] == rest;
      }
      assert [s[0]] + s[1..] == s;
    }
  }

  /** `",\n".join(s.split("\n"))` is the reference reading. */
  lemma {:induction false} JoinedLinesAreCommaNewlines(s: string)
    ensures Join(Split(s, '\n'), ",\n") == CommaNewlines(s)
    decreases |s|
  {
    if s != [] {
      JoinedLinesAreCommaNewlines(s[1..]);
      var rest := Split(s[1..], '\n');
      if s[0] == '\n' {
        assert ([""] + rest)[1..] == rest;
      } else {
        JoinConsHead(s[0], rest, ",\n");
      }
    }
  }

  /** The configuration overlay: absent (empty) on 404, else the body's lines
      joined with `",\n"`, which is the body with a comma before each newline. */
  function ConfOverlay(resp: Response): (conf: string)
    ensures resp.status == NotFound ==> conf == ""
    ensures resp.status != NotFound ==> conf == CommaNewlines(resp.body)
  {
    if resp.status == NotFound then ""
    else
      JoinedLinesAreCommaNewlines(resp.body);
      Join(Split(resp.body, '\n'), ",\n")
  }
}
