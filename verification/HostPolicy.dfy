/**
 Admission of host requests: the limits of a capability policy, and the preflight that
 turns a request into the canonical form that is reserved for and executed.
 */
module HostPolicy {
  import opened Options
  import opened HostPath

  datatype Capability = Capability(
    schemaVersion: nat,
    configurationRevision: string,
    deploymentId: string,
    backendReleaseRef: string,
    sdkFingerprint: string,
    evidenceRefs: seq<string>,
    paths: Policy,
    exec: bool,
    read: bool,
    overwrite: bool,
    maxTimeoutMs: nat,
    maxOutputBytes: nat,
    maxArgvItems: nat,
    maxArgvBytes: nat,
    maxFileBytes: nat,
    maxInflight: nat,
    maxReservedBytes: nat,
    mkdirTimeoutMs: nat)

  datatype Request =
    | Exec(command: string, args: seq<string>, cwd: Option<Path>, timeoutMs: Option<nat>,
           env: Option<map<string, string>>, extra: bool, shell: bool, requiredOutput: Option<nat>)
    | Read(path: Path)
    | Write(path: Path, content: string, overwriteMode: bool, createParents: bool)
    | Export(path: Path)

  datatype Mkdir = Mkdir(argv: seq<string>, cwd: Path, timeoutMs: nat, maxOutputBytes: nat)

  datatype Canonical =
    | CanonicalExec(argv: seq<string>, cwd: Path, timeoutMs: nat, maxOutputBytes: nat)
    | CanonicalRead(path: Path, maxBytes: nat)
    | CanonicalWrite(path: Path, size: nat, sha256: string, maxBytes: nat, mkdir: Option<Mkdir>)

  function TotalLength(argv: seq<string>): nat {
    if argv == [] then 0 else |argv[0]| + TotalLength(argv[1..])
  }

  predicate LimitsOk(p: Capability) {
    && p.schemaVersion == 1
    && p.configurationRevision != "" && p.deploymentId != "" && p.backendReleaseRef != "" && p.sdkFingerprint != ""
    && p.evidenceRefs != []
    && 1 <= p.maxTimeoutMs <= 300000
    && 1 <= p.maxOutputBytes <= 65536
    && 1 <= p.maxArgvItems <= 256
    && 1 <= p.maxArgvBytes <= 32768
    && 1 <= p.maxFileBytes <= 67108864
    && p.maxInflight != 0 && p.maxReservedBytes != 0
  }

  /** `blank(s)` says that `s` is empty once Unicode white space is trimmed; `digest` is
      the hash of a file's content. */
  function Preflight(p: Capability, request: Request, blank: string -> bool, digest: string -> string): Result<Canonical> {
    if !LimitsOk(p) then InvalidLimits
    else if !Resolve(p.paths, "").Ok? then Failure(Resolve(p.paths, ""))
    else
      match request
      case Exec(_, _, _, _, _, _, _, _) => PreflightExec(p, request, blank)
      case Read(path) =>
        if !p.read then Unsupported
        else
          var r := Resolve(p.paths, path);
          if r.Ok? then Ok(CanonicalRead(r.value, p.maxFileBytes)) else Failure(r)
      case Write(_, _, _, _) => PreflightWrite(p, request, digest)
      case Export(_) => Unsupported
  }

  function Failure<T>(r: Result<Path>): Result<T>
    requires !r.Ok?
  {
    match r
    case InvalidMapping => InvalidMapping
    case HomeOutside => HomeOutside
    case OutsideWorkspace => OutsideWorkspace
    case NoHome => NoHome
    case InvalidPath => InvalidPath
    case InvalidLimits => InvalidLimits
    case Unsupported => Unsupported
  }

  function PreflightExec(p: Capability, q: Request, blank: string -> bool): Result<Canonical>
    requires q.Exec?
  {
    var argv := [q.command] + q.args;
    var timeoutMs := if q.timeoutMs.Some? then q.timeoutMs.value else 30000;
    if !p.exec || (q.env.Some? && q.env.value != map[]) || q.extra || q.shell
       || (q.requiredOutput.Some? && q.requiredOutput.value > p.maxOutputBytes)
    then Unsupported
    else if blank(q.command) || (exists i :: 0 <= i < |argv| && '\0' in argv[i]) || |argv| > p.maxArgvItems
            || TotalLength(argv) > p.maxArgvBytes || !(1 <= timeoutMs <= p.maxTimeoutMs)
    then Unsupported
    else
      var r := Resolve(p.paths, if q.cwd.Some? then q.cwd.value else "");
      if r.Ok? then Ok(CanonicalExec(argv, r.value, timeoutMs, p.maxOutputBytes)) else Failure(r)
  }

  /** The position of the last slash, or `|p|` if there is none. */
  function LastSlash(p: Path, n: nat): (k: nat)
    requires n <= |p|
    ensures k < n || k == |p|
    ensures k < |p| ==> p[k] == '/' && '/' !in p[k + 1..n]
    ensures k == |p| ==> '/' !in p[..n]
  {
    if n == 0 then |p| else if p[n - 1] == '/' then n - 1 else LastSlash(p, n - 1)
  }

  function Parent(p: Path): Path {
    var k := LastSlash(p, |p|);
    if k < |p| then p[..k] else "."
  }

  function PreflightWrite(p: Capability, q: Request, digest: string -> string): Result<Canonical>
    requires q.Write?
  {
    if !p.overwrite || !q.overwriteMode || |q.content| > p.maxFileBytes then Unsupported
    else
      var r := Resolve(p.paths, q.path);
      if !r.Ok? then Failure(r)
      else
        var argv := ["mkdir", "-p", "--", Parent(r.value)];
        if q.createParents
           && (!p.exec || !(1 <= p.mkdirTimeoutMs <= p.maxTimeoutMs) || |argv| > p.maxArgvItems
               || TotalLength(argv) > p.maxArgvBytes)
        then Unsupported
        else
          Ok(CanonicalWrite(r.value, |q.content|, digest(q.content), p.maxFileBytes,
                            if q.createParents then Some(Mkdir(argv, ".", p.mkdirTimeoutMs, p.maxOutputBytes)) else None))
  }

  function ReservedBytes(c: Canonical): nat {
    match c
    case CanonicalExec(_, _, _, maxOutputBytes) => maxOutputBytes
    case CanonicalRead(_, maxBytes) => maxBytes
    case CanonicalWrite(_, size, _, _, _) => size
  }

  // ---------------------------------------------------------------- theorems

  function PathOf(c: Canonical): Path {
    match c
    case CanonicalExec(_, cwd, _, _) => cwd
    case CanonicalRead(path, _) => path
    case CanonicalWrite(path, _, _, _, _) => path
  }

  predicate Inside(m: Policy, path: Path) {
    Segments(m.workspace) <= Segments(path) && AllClean(Segments(path)) && !StartsWith(path, "/")
  }

  predicate BoundedRun(argv: seq<string>, timeoutMs: nat, output: nat) {
    && 1 <= |argv| <= 256 && TotalLength(argv) <= 32768
    && 1 <= timeoutMs <= 300000
    && 1 <= output <= 65536
  }

  predicate Bounded(m: Policy, c: Canonical) {
    && Inside(m, PathOf(c))
    && ReservedBytes(c) <= 67108864
    && (c.CanonicalExec? ==> BoundedRun(c.argv, c.timeoutMs, c.maxOutputBytes))
    && (c.CanonicalWrite? && c.mkdir.Some? ==>
          BoundedRun(c.mkdir.value.argv, c.mkdir.value.timeoutMs, c.mkdir.value.maxOutputBytes))
  }

  lemma ExecBounded(p: Capability, q: Request, blank: string -> bool)
    requires LimitsOk(p) && q.Exec? && PreflightExec(p, q, blank).Ok?
    ensures Bounded(p.paths, PreflightExec(p, q, blank).value)
  {
    AcceptedStaysInWorkspace(p.paths, if q.cwd.Some? then q.cwd.value else "");
  }

  /** What an accepted write is made of. */
  lemma WriteParts(p: Capability, q: Request, digest: string -> string)
    requires q.Write? && PreflightWrite(p, q, digest).Ok?
    ensures var c := PreflightWrite(p, q, digest).value;
            && Resolve(p.paths, q.path) == Ok(c.path) && c.size == |q.content| <= p.maxFileBytes
            && (c.mkdir.Some? <==> q.createParents)
            && (q.createParents ==>
                  && c.mkdir.value == Mkdir(["mkdir", "-p", "--", Parent(c.path)], ".", p.mkdirTimeoutMs, p.maxOutputBytes)
                  && 1 <= p.mkdirTimeoutMs <= p.maxTimeoutMs && TotalLength(c.mkdir.value.argv) <= p.maxArgvBytes)
  {
  }

  lemma WriteBounded(p: Capability, q: Request, digest: string -> string)
    requires LimitsOk(p) && q.Write? && PreflightWrite(p, q, digest).Ok?
    ensures Bounded(p.paths, PreflightWrite(p, q, digest).value)
  {
    var c := PreflightWrite(p, q, digest).value;
    WriteParts(p, q, digest);
    AcceptedStaysInWorkspace(p.paths, q.path);
    assert c.mkdir.Some? ==> |c.mkdir.value.argv| == 4;
  }

  /** Whatever the policy and the request: what preflight lets through names a path in the
      workspace, runs at most bounded commands, and reserves at most 64 MiB. */
  lemma AcceptedIsBounded(p: Capability, q: Request, blank: string -> bool, digest: string -> string)
    requires Preflight(p, q, blank, digest).Ok?
    ensures Bounded(p.paths, Preflight(p, q, blank, digest).value)
  {
    match q
    case Exec(_, _, _, _, _, _, _, _) => ExecBounded(p, q, blank);
    case Read(path) => AcceptedStaysInWorkspace(p.paths, path);
    case Write(_, _, _, _) => WriteBounded(p, q, digest);
  }

  /** A request is accepted only under the capability it needs: no export, no append, no
      shell or environment, no directory creation without exec. */
  lemma AcceptedIsEnabled(p: Capability, q: Request, blank: string -> bool, digest: string -> string)
    requires Preflight(p, q, blank, digest).Ok?
    ensures var c := Preflight(p, q, blank, digest).value;
            && !q.Export?
            && (q.Exec? <==> c.CanonicalExec?) && (q.Read? <==> c.CanonicalRead?) && (q.Write? <==> c.CanonicalWrite?)
            && (q.Exec? ==> p.exec && !q.shell && !q.extra && (q.env.None? || q.env.value == map[]) && c.argv == [q.command] + q.args)
            && (q.Read? ==> p.read)
            && (q.Write? ==> p.overwrite && q.overwriteMode && c.size == |q.content| && (q.createParents <==> c.mkdir.Some?))
            && (q.Write? && q.createParents ==> p.exec)
  {
  }

  /** The parent of a resolved path has its segments but the last. */
  lemma ParentSegments(segs: seq<string>)
    requires AllClean(segs)
    ensures Segments(Parent(Render(segs))) == if |segs| == 0 then [] else segs[..|segs| - 1]
  {
    if |segs| == 0 {
      EmptySegments();
    } else if |segs| == 1 {
      OneSegmentParent(segs);
    } else {
      ManySegmentsParent(segs);
    }
  }

  lemma OneSegmentParent(segs: seq<string>)
    requires AllClean(segs) && |segs| == 1
    ensures Segments(Parent(Render(segs))) == []
  {
    assert Clean(segs[0]) && Render(segs) == segs[0];
    EmptySegments();
  }

  lemma ManySegmentsParent(segs: seq<string>)
    requires AllClean(segs) && |segs| > 1
    ensures Segments(Parent(Render(segs))) == segs[..|segs| - 1]
  {
    var path, front, last := Join(segs), segs[..|segs| - 1], segs[|segs| - 1];
    JoinSplit(segs);
    JoinSegments(front);
    assert Clean(last);
    var k := |Join(front)|;
    assert path[..k] == Join(front) && path[k] == '/' && path[k + 1..] == last;
    LastSlashAt(path, |path|, k);
  }

  lemma LastSlashAt(p: Path, n: nat, k: nat)
    requires k < n <= |p| && p[k] == '/' && '/' !in p[k + 1..n]
    ensures LastSlash(p, n) == k
    decreases n
  {
  }

  lemma {:induction false} JoinSplit(segs: seq<string>)
    requires |segs| >= 2
    ensures Join(segs) == Join(segs[..|segs| - 1]) + "/" + segs[|segs| - 1]
  {
    if |segs| > 2 {
      var rest := segs[1..];
      JoinSplit(rest);
      assert rest[..|rest| - 1] == segs[..|segs| - 1][1..];
    }
  }

  /** `mkdir -p` of a write's parent stays in the workspace exactly when the path asked for
      names something below the workspace, or the workspace is the backend's root. */
  lemma MkdirInsideIff(p: Capability, q: Request, blank: string -> bool, digest: string -> string)
    requires Preflight(p, q, blank, digest).Ok? && q.Write? && q.createParents
    ensures var c := PreflightWrite(p, q, digest).value;
            var (base, suffix) := Located(p.paths, q.path).value;
            var workspace := Segments(p.paths.workspace);
            && Preflight(p, q, blank, digest) == Ok(c)
            && c.mkdir == Some(Mkdir(["mkdir", "-p", "--", Parent(c.path)], ".", p.mkdirTimeoutMs, p.maxOutputBytes))
            && (Inside(p.paths, Parent(c.path)) <==> |Segments(base) + Segments(suffix)| > |workspace| || workspace == [])
  {
    var c := PreflightWrite(p, q, digest).value;
    WriteParts(p, q, digest);
    AcceptedStaysInWorkspace(p.paths, q.path);
    ResolveByParts(p.paths, q.path);
    ParentInsideIff(p.paths, c.path, Segments(c.path));
  }

  lemma ParentInsideIff(m: Policy, path: Path, segs: seq<string>)
    requires AllClean(segs) && path == Render(segs) && Segments(m.workspace) <= segs
    ensures Inside(m, Parent(path)) <==> |segs| > |Segments(m.workspace)| || Segments(m.workspace) == []
  {
    var workspace := Segments(m.workspace);
    ParentSegments(segs);
    ParentRelative(path, segs);
    if |segs| > |workspace| {
      assert workspace == segs[..|workspace|] == segs[..|segs| - 1][..|workspace|];
    }
  }

  lemma ParentRelative(path: Path, segs: seq<string>)
    requires AllClean(segs) && path == Render(segs)
    ensures !StartsWith(Parent(path), "/")
  {
    JoinSegments(segs);
    if segs != [] {
      assert Clean(segs[0]) && path[0] == segs[0][0] && segs[0][0] in segs[0];
    }
    assert path[0] != '/';
    assert Parent(path) == "" || Parent(path)[0] == path[0] || Parent(path) == ".";
  }

  /** Writing to the workspace directory `a` itself with its parents: the directory made
      is the backend's root, above the workspace. */
  lemma MkdirAboveWorkspace()
    ensures var m := Policy("/", "a", None, 1);
            Resolve(m, ".") == Ok("a") && Parent("a") == "." && !Inside(m, Parent("a"))
  {
    var m := Policy("/", "a", None, 1);
    EmptySegments();
    SplitSimple("a");
    SplitSimple(".");
    assert Segments("a") == ["a"] by { assert ["a"][1..] == [] && Counts("a"); }
    SegmentsAppend("a", ".");
    assert ["a"] + [] == ["a"];
    assert MappingOk(m) by { RootOk(); }
    assert Render(["a"]) == "a";
  }

  lemma RootOk()
    ensures ".." !in Split("/")
  {
  }
}
