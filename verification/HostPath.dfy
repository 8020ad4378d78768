/**
 Resolution of a logical host path against a session's fixed workspace mapping.

 Strings are sequences of UTF-8 code units, so lengths are lengths in bytes; every
 character the code looks for is ASCII.
 */
module HostPath {
  import opened Options

  type Path = string

  datatype Policy = Policy(root: Path, workspace: Path, home: Option<Path>, version: nat)

  datatype Result<+T> = Ok(value: T) | InvalidMapping | HomeOutside | OutsideWorkspace | NoHome | InvalidPath | InvalidLimits | Unsupported

  // ------------------------------------------------------- strings and segments

  predicate StartsWith(s: string, p: string) {
    p <= s
  }

  function Split(p: Path): (parts: seq<string>)
    ensures parts != []
  {
    if p == "" then [""] else Put(p[0], Split(p[1..]))
  }

  /** The parts of a string that starts with `c`, from the parts of the rest. */
  function Put(c: char, parts: seq<string>): (r: seq<string>)
    requires parts != []
    ensures r != []
  {
    if c == '/' then [""] + parts else [[c] + parts[0]] + parts[1..]
  }

  function Join(segs: seq<string>): Path {
    if segs == [] then ""
    else if |segs| == 1 then segs[0]
    else segs[0] + "/" + Join(segs[1..])
  }

  predicate Counts(seg: string) {
    seg != "" && seg != "."
  }

  function Filter(parts: seq<string>): seq<string> {
    if parts == [] then []
    else (if Counts(parts[0]) then [parts[0]] else []) + Filter(parts[1..])
  }

  /** The segments a path is made of, without empty and `.` ones. */
  function Segments(p: Path): seq<string> {
    Filter(Split(p))
  }

  function TrimSlashesEnd(p: Path): Path {
    if p != "" && p[|p| - 1] == '/' then TrimSlashesEnd(p[..|p| - 1]) else p
  }

  function TrimSlashesStart(p: Path): Path {
    if p != "" && p[0] == '/' then TrimSlashesStart(p[1..]) else p
  }

  // --------------------------------------------------------------- resolution

  predicate Escapes(seg: string) {
    seg == ".." || (seg != "" && seg[0] == '~')
  }

  predicate Relative(p: Path) {
    && !StartsWith(p, "/")
    && '\0' !in p
    && (forall i :: 0 <= i < |Split(p)| ==> !Escapes(Split(p)[i]))
  }

  predicate MappingOk(m: Policy) {
    && m.version == 1
    && StartsWith(m.root, "/")
    && '\0' !in m.root
    && ".." !in Split(m.root)
    && Relative(m.workspace)
    && (m.home.Some? ==> Relative(m.home.value))
  }

  predicate HomeInside(m: Policy) {
    m.home.Some? ==>
      var workspace := TrimSlashesEnd(m.workspace);
      workspace == "." || workspace == "" || m.home.value == workspace || StartsWith(m.home.value, workspace + "/")
  }

  /** The base directory and the rest of a raw path. */
  function Located(m: Policy, raw: Path): Result<(Path, Path)> {
    var root := TrimSlashesEnd(m.root);
    if StartsWith(raw, "/") then
      if !StartsWith(raw, root) then OutsideWorkspace
      else
        var rest := raw[|root|..];
        if rest == "" || StartsWith(rest, "/") then Ok((m.workspace, TrimSlashesStart(rest))) else OutsideWorkspace
    else if raw == "~" || StartsWith(raw, "~/") then
      if m.home.None? then NoHome else Ok((m.home.value, TrimSlashesStart(raw[1..])))
    else Ok((m.workspace, raw))
  }

  function Render(segs: seq<string>): Path {
    if Join(segs) == "" then "." else Join(segs)
  }

  function Resolve(m: Policy, raw: Path): Result<Path> {
    if !MappingOk(m) then InvalidMapping
    else if !HomeInside(m) then HomeOutside
    else
      match Located(m, raw)
      case Ok((base, suffix)) =>
        if !Relative(suffix) then InvalidPath else Ok(Render(Segments(base + "/" + suffix)))
      case OutsideWorkspace => OutsideWorkspace
      case NoHome => NoHome
      case _ => InvalidPath
  }

  // ----------------------------------------------------- splitting and joining

  lemma {:induction false} SplitAppend(a: Path, b: Path)
    ensures Split(a + "/" + b) == Split(a) + Split(b)
  {
    var p := a + "/" + b;
    if a == "" {
      assert p[0] == '/' && p[1..] == b;
    } else {
      SplitAppend(a[1..], b);
      assert p[0] == a[0] && p[1..] == a[1..] + "/" + b;
      PutAppend(a[0], Split(a[1..]), Split(b));
    }
  }

  lemma PutAppend(c: char, x: seq<string>, y: seq<string>)
    requires x != []
    ensures Put(c, x + y) == Put(c, x) + y
  {
  }

  lemma {:induction false} FilterAppend(a: seq<string>, b: seq<string>)
    ensures Filter(a + b) == Filter(a) + Filter(b)
  {
    if a == [] {
      assert a + b == b;
    } else {
      FilterAppend(a[1..], b);
      assert (a + b)[0] == a[0] && (a + b)[1..] == a[1..] + b;
      var head := if Counts(a[0]) then [a[0]] else [];
      assert head + (Filter(a[1..]) + Filter(b)) == (head + Filter(a[1..])) + Filter(b);
    }
  }

  /** Segments of a joined path are the segments of its parts. */
  lemma SegmentsAppend(a: Path, b: Path)
    ensures Segments(a + "/" + b) == Segments(a) + Segments(b)
  {
    SplitAppend(a, b);
    FilterAppend(Split(a), Split(b));
  }

  lemma SegmentsOfSlash(p: Path)
    ensures Segments(p + "/") == Segments(p)
    ensures Segments("/" + p) == Segments(p)
  {
    SegmentsAppend(p, "");
    SegmentsAppend("", p);
    assert p + "/" + "" == p + "/" && "" + "/" + p == "/" + p;
    assert Split("") == [""] && Filter([""]) == [""][1..];
  }

  lemma {:induction false} TrimEndSegments(p: Path)
    ensures Segments(TrimSlashesEnd(p)) == Segments(p)
  {
    if p != "" && p[|p| - 1] == '/' {
      TrimEndSegments(p[..|p| - 1]);
      SegmentsOfSlash(p[..|p| - 1]);
      assert p == p[..|p| - 1] + "/";
    }
  }

  lemma {:induction false} SplitSimple(seg: string)
    requires '/' !in seg
    ensures Split(seg) == [seg]
  {
    if seg != "" {
      SplitSimple(seg[1..]);
      assert [seg[0]] + seg[1..] == seg;
    }
  }

  lemma {:induction false} SplitParts(p: Path, i: nat)
    requires i < |Split(p)|
    ensures '/' !in Split(p)[i]
    ensures forall c :: c in Split(p)[i] ==> c in p
  {
    if p != "" {
      var rest := Split(p[1..]);
      if p[0] == '/' {
        if i > 0 { SplitParts(p[1..], i - 1); }
      } else {
        SplitParts(p[1..], i);
      }
    }
  }

  lemma {:induction false} FilterMembers(parts: seq<string>, x: string)
    ensures x in Filter(parts) <==> x in parts && Counts(x)
  {
    if parts != [] {
      FilterMembers(parts[1..], x);
      assert parts == [parts[0]] + parts[1..];
    }
  }

  /** A clean segment: one name, not `.` or `..`, no tilde, no slash, no NUL. */
  predicate Clean(seg: string) {
    Counts(seg) && !Escapes(seg) && '/' !in seg && '\0' !in seg
  }

  predicate AllClean(segs: seq<string>) {
    forall i :: 0 <= i < |segs| ==> Clean(segs[i])
  }

  lemma {:induction false} JoinSegments(segs: seq<string>)
    requires AllClean(segs)
    ensures Segments(Join(segs)) == segs
    ensures segs != [] ==> Join(segs) != "" && Join(segs)[0] == segs[0][0]
  {
    if |segs| == 1 {
      SplitSimple(segs[0]);
      assert Filter([segs[0]]) == [segs[0]] + Filter([]);
    } else if segs != [] {
      JoinSegments(segs[1..]);
      SegmentsAppend(segs[0], Join(segs[1..]));
      SplitSimple(segs[0]);
      assert Filter([segs[0]]) == [segs[0]] + Filter([]);
    } else {
      assert Filter([""]) == Filter([""][1..]);
    }
  }

  lemma EmptySegments()
    ensures Segments("") == [] && Segments(".") == []
  {
  }

  /** Rendering clean segments loses nothing. */
  lemma RenderSegments(segs: seq<string>)
    requires AllClean(segs)
    ensures Segments(Render(segs)) == segs
    ensures !StartsWith(Render(segs), "/")
  {
    JoinSegments(segs);
    if segs == [] {
      EmptySegments();
    }
  }

  // -------------------------------------------------- relative paths by segment

  lemma {:induction false} CharIn(p: Path, c: char)
    requires c != '/'
    ensures c in p <==> exists i :: 0 <= i < |Split(p)| && c in Split(p)[i]
  {
    if p != "" {
      CharIn(p[1..], c);
      var rest := Split(p[1..]);
      assert p == [p[0]] + p[1..];
      if c in p[1..] {
        var i :| 0 <= i < |rest| && c in rest[i];
        assert Split(p)[if p[0] == '/' then i + 1 else i] == (if p[0] != '/' && i == 0 then [p[0]] + rest[0] else rest[i]);
      } else if c == p[0] {
        assert c in Split(p)[0];
      } else {
        forall i | 0 <= i < |Split(p)| ensures c !in Split(p)[i] {
          SplitParts(p, i);
        }
      }
    }
  }

  /** A path is relative exactly when it does not start at the root and all its segments
      are clean. */
  lemma RelativeIffClean(p: Path)
    ensures Relative(p) <==> !StartsWith(p, "/") && AllClean(Segments(p))
  {
    var parts, segs := Split(p), Segments(p);
    CharIn(p, '\0');
    forall i | 0 <= i < |segs| ensures segs[i] in parts && Counts(segs[i]) && '/' !in segs[i] {
      FilterMembers(parts, segs[i]);
      var k :| 0 <= k < |parts| && parts[k] == segs[i];
      SplitParts(p, k);
    }
    if AllClean(segs) {
      forall i | 0 <= i < |parts| ensures !Escapes(parts[i]) && '\0' !in parts[i] {
        FilterMembers(parts, parts[i]);
      }
    }
  }

  lemma CleanAppend(a: seq<string>, b: seq<string>)
    requires AllClean(a) && AllClean(b)
    ensures AllClean(a + b)
  {
  }

  // ------------------------------------------------------------------ theorems

  /** The base of an accepted path, by how the path is spelt. */
  function Base(m: Policy, raw: Path): Path {
    if (raw == "~" || StartsWith(raw, "~/")) && m.home.Some? then m.home.value else m.workspace
  }

  /** Exactly when a path located in the mapping is accepted, and what it resolves to:
      the base's segments followed by its own. */
  lemma ResolveByParts(m: Policy, raw: Path)
    requires MappingOk(m) && HomeInside(m) && Located(m, raw).Ok?
    ensures var (base, suffix) := Located(m, raw).value;
            && base == Base(m, raw)
            && (Resolve(m, raw).Ok? <==> !StartsWith(suffix, "/") && AllClean(Segments(suffix)))
            && (Resolve(m, raw).Ok? ==> Segments(Resolve(m, raw).value) == Segments(base) + Segments(suffix)
                                        && !StartsWith(Resolve(m, raw).value, "/"))
  {
    var (base, suffix) := Located(m, raw).value;
    RelativeIffClean(suffix);
    RelativeIffClean(base);
    SegmentsAppend(base, suffix);
    if Relative(suffix) {
      CleanAppend(Segments(base), Segments(suffix));
      RenderSegments(Segments(base) + Segments(suffix));
    }
  }

  lemma PrefixSegments(p: Path, w: Path)
    requires StartsWith(p, w + "/")
    ensures Segments(w) <= Segments(p)
  {
    var rest := p[|w| + 1..];
    assert p == w + "/" + rest;
    SegmentsAppend(w, rest);
  }

  /** HOME lies in the workspace. */
  lemma HomeExtendsWorkspace(m: Policy)
    requires HomeInside(m) && m.home.Some?
    ensures Segments(m.workspace) <= Segments(m.home.value)
  {
    var w := TrimSlashesEnd(m.workspace);
    TrimEndSegments(m.workspace);
    if w == "" || w == "." {
      EmptySegments();
    } else if m.home.value != w {
      PrefixSegments(m.home.value, w);
    }
  }

  /** Every accepted path, also one through HOME, is relative, has only clean segments,
      starts with the workspace's segments, and is written in its one canonical form. */
  lemma AcceptedStaysInWorkspace(m: Policy, raw: Path)
    requires Resolve(m, raw).Ok?
    ensures var out := Resolve(m, raw).value;
            && Segments(m.workspace) <= Segments(out)
            && AllClean(Segments(out))
            && !StartsWith(out, "/")
            && out == Render(Segments(out))
  {
    var (base, suffix) := Located(m, raw).value;
    ResolveByParts(m, raw);
    if m.home.Some? {
      HomeExtendsWorkspace(m);
    }
    RelativeIffClean(base);
    RelativeIffClean(suffix);
    SegmentsAppend(base, suffix);
    CleanAppend(Segments(base), Segments(suffix));
  }

  predicate Plain(raw: Path) {
    !StartsWith(raw, "/") && !(raw == "~" || StartsWith(raw, "~/"))
  }

  /** Two spellings that locate the same base, and suffixes with the same segments, resolve
      alike: `.`, doubled and trailing slashes do not matter, below the workspace, behind
      the root or behind HOME. */
  lemma SpellingIsIrrelevant(m: Policy, a: Path, b: Path)
    requires Located(m, a).Ok? && Located(m, b).Ok?
    requires Located(m, a).value.0 == Located(m, b).value.0
    requires Segments(Located(m, a).value.1) == Segments(Located(m, b).value.1)
    ensures Resolve(m, a) == Resolve(m, b)
  {
    var (base, x) := Located(m, a).value;
    var y := Located(m, b).value.1;
    SuffixIsRelative(m, a);
    SuffixIsRelative(m, b);
    RelativeIffClean(x);
    RelativeIffClean(y);
    SegmentsAppend(base, x);
    SegmentsAppend(base, y);
  }

  /** The part of a path behind its base never starts with a slash. */
  lemma SuffixIsRelative(m: Policy, raw: Path)
    requires Located(m, raw).Ok?
    ensures !StartsWith(Located(m, raw).value.1, "/")
  {
    if StartsWith(raw, "/") {
      NoSlashAtStart(raw[|TrimSlashesEnd(m.root)|..]);
    } else if raw == "~" || StartsWith(raw, "~/") {
      NoSlashAtStart(raw[1..]);
    }
  }

  lemma {:induction false} NoSlashAtStart(p: Path)
    ensures !StartsWith(TrimSlashesStart(p), "/")
  {
    if p != "" && p[0] == '/' {
      NoSlashAtStart(p[1..]);
    }
  }

  /** A path spelt from the backend's root resolves as it does relative to the workspace. */
  lemma AbsoluteIsRelative(m: Policy, rel: Path)
    requires Plain(rel)
    ensures Resolve(m, TrimSlashesEnd(m.root) + "/" + rel) == Resolve(m, rel)
  {
    var root := TrimSlashesEnd(m.root);
    var raw := root + "/" + rel;
    if MappingOk(m) {
      TrimmedRoot(m.root);
      assert raw[|root|..] == "/" + rel && raw[..|root|] == root;
      assert TrimSlashesStart("/" + rel) == TrimSlashesStart(("/" + rel)[1..]) == rel;
      assert StartsWith(raw, "/") && StartsWith(raw, root);
    }
  }

  lemma {:induction false} TrimmedRoot(p: Path)
    requires StartsWith(p, "/")
    ensures TrimSlashesEnd(p) == "" || StartsWith(TrimSlashesEnd(p), "/")
  {
    if p[|p| - 1] == '/' && |p| > 1 {
      TrimmedRoot(p[..|p| - 1]);
    }
  }

  lemma AcceptedIsPlain(m: Policy, raw: Path)
    requires Resolve(m, raw).Ok?
    ensures Plain(Resolve(m, raw).value)
  {
    var out := Resolve(m, raw).value;
    AcceptedStaysInWorkspace(m, raw);
    if Segments(out) != [] {
      JoinSegments(Segments(out));
      assert Clean(Segments(out)[0]) && out[0] != '~';
    }
  }

  /** A resolved path is a path under the backend's root, not a logical one: it resolves
      to itself exactly when the workspace is that root. */
  lemma ResolveIdempotentIff(m: Policy, raw: Path)
    requires Resolve(m, raw).Ok?
    ensures Resolve(m, Resolve(m, raw).value) == Resolve(m, raw) <==> Segments(m.workspace) == []
  {
    var out := Resolve(m, raw).value;
    AcceptedStaysInWorkspace(m, raw);
    AcceptedIsPlain(m, raw);
    ResolveByParts(m, out);
    AcceptedStaysInWorkspace(m, out);
    if Segments(m.workspace) == [] {
      assert [] + Segments(out) == Segments(out);
    }
  }
}
