/** controllers/mediaController.js: the upload filter that admits only
    `.mp4` and `.mkv` files, and the middleware that collects the uploaded
    files' paths into the body. Multer's disk storage is not part of this
    model. */
module MediaController {
  import opened Common
  import opened Records
  import opened AppErrors
  import opened Http

  // ---------------------------------------------------------------------
  // path.extname (POSIX)
  // ---------------------------------------------------------------------

  /** The path without its trailing slashes. */
  function TrimTrailingSlashes(s: string): (r: string)
    ensures |r| <= |s| && r == s[..|r|]
    ensures r == [] || r[|r| - 1] != '/'
    ensures '/' !in s[|r|..] || forall k :: |r| <= k < |s| ==> s[k] == '/'
    decreases |s|
  {
    if s != [] && s[|s| - 1] == '/' then TrimTrailingSlashes(s[..|s| - 1]) else s
  }

  /** The index of the last `c` in `s`. */
  function LastIndex(s: string, c: char): (r: Option<nat>)
    ensures r.Some? ==> r.value < |s| && s[r.value] == c && c !in s[r.value + 1..]
    ensures r.None? ==> c !in s
    decreases |s|
  {
    if s == [] then None
    else if s[|s| - 1] == c then Some(|s| - 1)
    else
      var r := LastIndex(s[..|s| - 1], c);
      assert s == s[..|s| - 1] + [s[|s| - 1]];
      r
  }

  /** The part of `s` after its last `c` (all of `s` when it has none). */
  function AfterLast(s: string, c: char): (r: string)
    ensures c !in r
    ensures |r| <= |s| && r == s[|s| - |r|..]
    ensures |r| < |s| ==> s[|s| - |r| - 1] == c
  {
    match LastIndex(s, c)
    case None => s
    case Some(i) => s[i + 1..]
  }

  /** `path.extname(p)`: from the last dot of the last path segment to its
      end; empty when that segment has no dot, starts with its only
      leading dot, or is `..`. */
  function ExtName(p: string): (r: string)
    ensures r == [] || (r[0] == '.' && '/' !in r && '.' !in r[1..])
  {
    var base := AfterLast(TrimTrailingSlashes(p), '/');
    match LastIndex(base, '.')
    case None => ""
    case Some(i) => if i == 0 || base == ".." then "" else base[i..]
  }

  lemma NotInPrefix(s: string, n: nat, c: char)
    requires c !in s && n <= |s|
    ensures c !in s[..n]
  {
    forall x | x in s[..n] ensures x in s {
      var k :| 0 <= k < n && s[..n][k] == x;
      assert s[k] == x;
    }
  }

  /** Appending text without `c` does not move the last `c`. */
  lemma {:induction false} LastIndexAppend(a: string, b: string, c: char)
    requires c !in b
    ensures LastIndex(a + b, c) == LastIndex(a, c)
    decreases |b|
  {
    if b != [] {
      var ab := a + b;
      assert ab[|ab| - 1] == b[|b| - 1];
      assert b[|b| - 1] in b;
      assert ab[..|ab| - 1] == a + b[..|b| - 1];
      NotInPrefix(b, |b| - 1, c);
      LastIndexAppend(a, b[..|b| - 1], c);
    } else {
      assert a + b == a;
    }
  }

  /** A slash-free path is its own last segment. */
  lemma SlashFreeBase(p: string)
    requires '/' !in p
    ensures AfterLast(TrimTrailingSlashes(p), '/') == p
  {
    if p != [] {
      assert p[|p| - 1] in p;
    }
    assert TrimTrailingSlashes(p) == p;
  }

  /** A file name `stem.e` with a non-empty, slash-free stem and a
      non-empty, dot-free, slash-free `e` has the extension `.e`. */
  lemma ExtNameOfFileName(stem: string, e: string)
    requires stem != [] && '/' !in stem
    requires e != [] && '/' !in e && '.' !in e
    ensures ExtName(stem + "." + e) == "." + e
  {
    var p := stem + "." + e;
    assert '/' !in p;
    SlashFreeBase(p);
    var a := stem + ".";
    assert LastIndex(a, '.') == Some(|stem|);
    LastIndexAppend(a, e, '.');
    assert a + e == p;
    assert p != "..";
    assert p[|stem|..] == "." + e;
  }

  /** A dot-free last segment, and a dot file, have no extension. */
  lemma NoExtension(e: string)
    requires '/' !in e && '.' !in e
    ensures ExtName(e) == ""
    ensures ExtName("." + e) == ""
  {
    SlashFreeBase(e);
    assert LastIndex(e, '.').None?;
    var d := "." + e;
    assert '/' !in d;
    SlashFreeBase(d);
    LastIndexAppend(".", e, '.');
    assert LastIndex(".", '.') == Some(0);
  }

  // ---------------------------------------------------------------------
  // multerFilter
  // ---------------------------------------------------------------------

  /** What the filter passes to multer's callback. */
  datatype Verdict = Accept | Reject(err: Error)

  const NotAVideo := "Not a video! Please upload only mp4 or mkv."

  /** multerFilter: the extension of the original name must be exactly
      `.mkv` or `.mp4`; anything else is refused with a 400. */
  function MulterFilter(originalName: string): (v: Verdict)
    ensures v == Accept <==> ExtName(originalName) == ".mkv" || ExtName(originalName) == ".mp4"
    ensures v != Accept ==> v == Reject(NewAppError(NotAVideo, Some(400)))
  {
    var ext := ExtName(originalName);
    if ext != ".mkv" && ext != ".mp4" then Reject(NewAppError(NotAVideo, Some(400))) else Accept
  }

  /** A file `stem.e` passes exactly when `e` is `mp4` or `mkv`, letter
      for letter: `clip.MP4` is refused. */
  lemma FilterByExtension(stem: string, e: string)
    requires stem != [] && '/' !in stem
    requires e != [] && '/' !in e && '.' !in e
    ensures MulterFilter(stem + "." + e) == Accept <==> e == "mp4" || e == "mkv"
  {
    ExtNameOfFileName(stem, e);
    var ext := "." + e;
    assert ext[1..] == e;
    assert ".mp4"[1..] == "mp4" && ".mkv"[1..] == "mkv";
  }

  /** A dot file (`.mp4` among them) has no extension and is refused. */
  lemma FilterRefusesDotFiles(e: string)
    requires '/' !in e && '.' !in e
    ensures MulterFilter("." + e).Reject?
  {
    NoExtension(e);
  }

  // ---------------------------------------------------------------------
  // videoProcess
  // ---------------------------------------------------------------------

  /** The paths as body values. */
  function PathValues(paths: seq<string>): (vs: seq<Val>)
    ensures |vs| == |paths|
    ensures forall i :: 0 <= i < |paths| ==> vs[i] == Str(paths[i])
  {
    seq(|paths|, i requires 0 <= i < |paths| => Str(paths[i]))
  }

  /** `req.files.mediaContent.forEach` when no `mediaContent` file was
      uploaded. */
  const NoMediaContent: Error := Thrown("TypeError", "Cannot read properties of undefined (reading 'forEach')")

  /** videoProcess: the uploaded files' paths, in upload order, become
      `body.mediaContent`, then `next()`. Express catches the TypeError of
      a request without `mediaContent` uploads and passes it on. */
  method VideoProcess(req: Request) returns (o: Outcome)
    modifies req
    ensures req.user == old(req.user)
    ensures req.files.None? ==> o == Failed(NoMediaContent) && req.body == old(req.body)
    ensures req.files.Some? ==>
      o == Passed && req.body == old(req.body)["mediaContent" := List(PathValues(req.files.value))]
  {
    if req.files.None? {
      return Failed(NoMediaContent);
    }
    var files := req.files.value;
    var mediaContent: seq<Val> := [];
    var i := 0;
    while i < |files|
      invariant 0 <= i <= |files|
      invariant mediaContent == PathValues(files[..i])
    {
      mediaContent := mediaContent + [Str(files[i])];
      i := i + 1;
    }
    assert files[..i] == files;
    req.body := req.body["mediaContent" := List(mediaContent)];
    o := Passed;
  }
}
