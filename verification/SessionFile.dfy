/**
 Repair of a pi session file after a crash: the forward scan that cuts a JSON Lines file
 behind its last completed turn, the independent backward check that says whether a
 file ends in a completed turn, and the restore step built from both.

 JSON parsing is a parameter: `parse` gives the fields of a line the two scans look at.
 */
module SessionFile {
  import opened Options

  type Byte = x: int | 0 <= x < 256

  type File = seq<Byte>

  /** A parsed line: its `type`, and `role` and `stopReason` of its `message`, where
      those are strings. */
  datatype Entry = Entry(kind: Option<string>, role: Option<string>, stopReason: Option<string>)

  type Parser = File -> Option<Entry>

  const NEWLINE: Byte := 10

  predicate Whitespace(b: Byte) {
    b == 32 || b == 9 || b == 10 || b == 12 || b == 13
  }

  function TrimStart(line: File): File {
    if line != [] && Whitespace(line[0]) then TrimStart(line[1..]) else line
  }

  function TrimEnd(line: File): File {
    if line != [] && Whitespace(line[|line| - 1]) then TrimEnd(line[..|line| - 1]) else line
  }

  function Trim(line: File): File {
    TrimEnd(TrimStart(line))
  }

  lemma {:induction false} TrimStartAppend(line: File)
    ensures TrimStart(line + [NEWLINE]) == if TrimStart(line) == [] then [] else TrimStart(line) + [NEWLINE]
    decreases |line|
  {
    if line != [] && Whitespace(line[0]) {
      TrimStartAppend(line[1..]);
      assert (line + [NEWLINE])[1..] == line[1..] + [NEWLINE];
    }
  }

  /** A line reads the same with and without its newline. */
  lemma TrimIgnoresNewline(line: File)
    ensures Trim(line + [NEWLINE]) == Trim(line)
  {
    TrimStartAppend(line);
    var t := TrimStart(line);
    if t != [] {
      assert (t + [NEWLINE])[..|t|] == t;
    }
  }

  // -------------------------------------------------------------- entries

  /** The forward scan's test. */
  predicate CompletedTurn(v: Entry) {
    var stop := if v.stopReason.Some? then v.stopReason.value else "";
    && v.kind == Some("message")
    && v.role == Some("assistant")
    && !(stop == "" || stop == "pending" || stop == "toolUse")
  }

  predicate IsMessage(v: Entry) {
    v.kind == Some("message")
  }

  /** The backward check's test of a message. */
  predicate CompleteAssistantMessage(v: Entry) {
    && v.role == Some("assistant")
    && v.stopReason.Some?
    && v.stopReason.value != ""
    && v.stopReason.value != "pending"
    && v.stopReason.value != "toolUse"
  }

  // ---------------------------------------------------- segments of a file

  /** `e` is where a line ends: at a newline or at the end of the file. */
  predicate End(f: File, e: nat) {
    e == |f| || (e < |f| && f[e] == NEWLINE)
  }

  function Start(f: File, e: nat): (s: nat)
    requires e <= |f|
    ensures s <= e && (s == 0 || f[s - 1] == NEWLINE)
    ensures forall i :: s <= i < e ==> f[i] != NEWLINE
  {
    if e == 0 || f[e - 1] == NEWLINE then e else Start(f, e - 1)
  }

  function NextEnd(f: File, o: nat): (e: nat)
    requires o <= |f|
    ensures o <= e <= |f| && End(f, e)
    ensures forall i :: o <= i < e ==> f[i] != NEWLINE
    decreases |f| - o
  {
    if o == |f| || f[o] == NEWLINE then o else NextEnd(f, o + 1)
  }

  function Text(f: File, e: nat): File
    requires e <= |f|
  {
    Trim(f[Start(f, e)..e])
  }

  predicate Blank(f: File, e: nat) {
    e > |f| || Text(f, e) == []
  }

  predicate Parses(f: File, e: nat, parse: Parser) {
    !Blank(f, e) && parse(Text(f, e)).Some?
  }

  predicate MessageAt(f: File, e: nat, parse: Parser) {
    Parses(f, e, parse) && IsMessage(parse(Text(f, e)).value)
  }

  predicate CompleteAt(f: File, e: nat, parse: Parser) {
    Parses(f, e, parse) && CompletedTurn(parse(Text(f, e)).value)
  }

  /** The file's length when it is cut behind the line that ends at `e`. */
  function Behind(f: File, e: nat): nat {
    if e < |f| then e + 1 else |f|
  }

  // ------------------------------------------------- the two readings of a file

  /** No line that ends in `[from, to)` is a completed turn. */
  ghost predicate NoneComplete(f: File, from: nat, to: nat, parse: Parser) {
    forall e :: from <= e < to && End(f, e) ==> !CompleteAt(f, e, parse)
  }

  /** `e` ends the last completed turn. */
  ghost predicate LastComplete(f: File, e: nat, parse: Parser) {
    e <= |f| && End(f, e) && CompleteAt(f, e, parse) && NoneComplete(f, e + 1, |f| + 1, parse)
  }

  ghost predicate LastLine(f: File, e: nat) {
    && e <= |f| && End(f, e) && !Blank(f, e)
    && (forall d :: e < d <= |f| && End(f, d) ==> Blank(f, d))
  }

  ghost predicate LastMessage(f: File, e: nat, parse: Parser) {
    && e <= |f| && End(f, e) && MessageAt(f, e, parse)
    && (forall d :: e < d <= |f| && End(f, d) ==> !MessageAt(f, d, parse))
  }

  /** The file ends in a completed turn: its last line is whole, and its last message is
      a completed assistant turn. */
  ghost predicate Valid(f: File, parse: Parser) {
    && (exists l :: LastLine(f, l) && Parses(f, l, parse))
    && (exists m :: LastMessage(f, m, parse) && CompleteAt(f, m, parse))
  }

  // ------------------------------------------------------------ forward scan

  /** A line read forward, newline included, is the line that ends at its end. */
  lemma LineRead(f: File, o: nat)
    requires o <= |f| && (o == 0 || f[o - 1] == NEWLINE)
    ensures var e := NextEnd(f, o);
            && Start(f, e) == o
            && Trim(f[o..Behind(f, e)]) == Text(f, e)
            && (forall d :: o <= d < e ==> !End(f, d))
  {
    var e := NextEnd(f, o);
    assert Start(f, e) == o by { StartUnique(f, o, e); }
    if e < |f| {
      assert f[o..e + 1] == f[o..e] + [NEWLINE];
      TrimIgnoresNewline(f[o..e]);
    }
  }

  lemma StartUnique(f: File, s: nat, e: nat)
    requires s <= e <= |f| && (s == 0 || f[s - 1] == NEWLINE)
    requires forall i :: s <= i < e ==> f[i] != NEWLINE
    ensures Start(f, e) == s
  {
  }

  /** What is known once every line that ends before `seen` was read. */
  ghost predicate Scanned(f: File, seen: nat, cut: nat, last: nat, parse: Parser) {
    if cut == 0 then NoneComplete(f, 0, seen, parse)
    else
      && last < seen && last <= |f| && End(f, last) && CompleteAt(f, last, parse)
      && cut == Behind(f, last) && NoneComplete(f, last + 1, seen, parse)
  }

  lemma ScanStep(f: File, seen: nat, cut: nat, last: nat, parse: Parser)
    requires Scanned(f, seen, cut, last, parse)
    requires seen <= |f| && (seen == 0 || f[seen - 1] == NEWLINE)
    ensures var e := NextEnd(f, seen);
            && (!CompleteAt(f, e, parse) ==> Scanned(f, e + 1, cut, last, parse))
            && (CompleteAt(f, e, parse) && Behind(f, e) > 0 ==> Scanned(f, e + 1, Behind(f, e), e, parse))
  {
  }

  /** Where to cut: behind the last completed turn, or at 0 if there is none. */
  method CutPoint(f: File, parse: Parser) returns (cut: nat)
    ensures cut == 0 ==> NoneComplete(f, 0, |f| + 1, parse)
    ensures cut > 0 ==> exists e :: LastComplete(f, e, parse) && cut == Behind(f, e)
  {
    cut := 0;
    var offset := 0;
    ghost var last, seen := 0, 0;
    while offset < |f|
      invariant seen <= |f| + 1 && offset == (if seen <= |f| then seen else |f|)
      invariant seen == 0 || seen == |f| + 1 || f[seen - 1] == NEWLINE
      invariant Scanned(f, seen, cut, last, parse)
    {
      var e := NextEnd(f, offset);
      var line := f[offset..Behind(f, e)];
      LineRead(f, offset);
      ScanStep(f, seen, cut, last, parse);
      offset := Behind(f, e);
      seen := e + 1;
      var trimmed := Trim(line);
      if trimmed != [] && parse(trimmed).Some? && CompletedTurn(parse(trimmed).value) {
        cut, last := offset, e;
      }
    }
    if seen == |f| {
      ScanStep(f, seen, cut, last, parse);
    }
  }

  // ---------------------------------------------------------- backward check

  datatype Verdict = Complete | Empty | LastLineNotJson | NotComplete

  /** The verdict, stated about the file as a whole. */
  ghost predicate Judged(f: File, v: Verdict, parse: Parser) {
    match v
    case Complete => Valid(f, parse)
    case Empty => forall e :: 0 <= e <= |f| && End(f, e) ==> Blank(f, e)
    case LastLineNotJson => exists l :: LastLine(f, l) && !Parses(f, l, parse)
    case NotComplete =>
      && (exists l :: LastLine(f, l) && Parses(f, l, parse))
      && !(exists m :: LastMessage(f, m, parse) && CompleteAt(f, m, parse))
  }

  /** Between two consecutive line ends there is no other. */
  lemma PreviousEnd(f: File, e: nat)
    requires e <= |f|
    ensures forall d :: Start(f, e) <= d < e ==> !End(f, d)
    ensures Start(f, e) > 0 ==> End(f, Start(f, e) - 1)
  {
  }

  lemma LastMessageUnique(f: File, l: nat, k: nat, parse: Parser)
    requires LastMessage(f, l, parse) && LastMessage(f, k, parse)
    ensures l == k
  {
  }

  /** The last non-empty line, searched from the end of the file. */
  method FindLastLine(f: File) returns (last: Option<nat>)
    ensures last.Some? ==> LastLine(f, last.value)
    ensures last.None? ==> forall e :: 0 <= e <= |f| && End(f, e) ==> Blank(f, e)
  {
    var e := |f|;
    while true
      invariant 0 <= e <= |f| && End(f, e)
      invariant forall d :: e < d <= |f| && End(f, d) ==> Blank(f, d)
      decreases e
    {
      if Text(f, e) != [] {
        return Some(e);
      }
      PreviousEnd(f, e);
      if Start(f, e) == 0 {
        return None;
      }
      e := Start(f, e) - 1;
    }
  }

  /** The backward check: the last line must be JSON, and the first message met going
      back from it a completed turn. */
  method Validate(f: File, parse: Parser) returns (v: Verdict)
    ensures Judged(f, v, parse)
  {
    var last := FindLastLine(f);
    if last.None? {
      return Empty;
    }
    var e := last.value;
    if parse(Text(f, e)).None? {
      return LastLineNotJson;
    }
    assert LastLine(f, e) && Parses(f, e, parse);
    while true
      invariant 0 <= e <= |f| && End(f, e)
      invariant forall d :: e < d <= |f| && End(f, d) ==> !MessageAt(f, d, parse)
      decreases e
    {
      var text := Text(f, e);
      if text != [] && parse(text).Some? && IsMessage(parse(text).value) {
        assert LastMessage(f, e, parse);
        if !CompleteAssistantMessage(parse(text).value) {
          forall m | LastMessage(f, m, parse) ensures !CompleteAt(f, m, parse) {
            LastMessageUnique(f, m, e, parse);
          }
          return NotComplete;
        }
        assert CompleteAt(f, e, parse);
        return Complete;
      }
      PreviousEnd(f, e);
      if Start(f, e) == 0 {
        return NotComplete;
      }
      e := Start(f, e) - 1;
    }
  }

  /** The four verdicts exclude one another: each says exactly when it is given. */
  lemma VerdictUnique(f: File, v: Verdict, u: Verdict, parse: Parser)
    requires Judged(f, v, parse) && Judged(f, u, parse)
    ensures v == u
  {
  }

  // ------------------------------------------------------------------ repair

  lemma StartInPrefix(f: File, n: nat, e: nat)
    requires e <= n <= |f|
    ensures Start(f[..n], e) == Start(f, e)
    decreases e
  {
  }

  lemma TextInPrefix(f: File, n: nat, e: nat)
    requires e <= n <= |f|
    ensures Text(f[..n], e) == Text(f, e)
  {
    StartInPrefix(f, n, e);
    assert f[..n][Start(f, e)..e] == f[Start(f, e)..e];
  }

  /** Nothing but an empty line follows the cut. */
  lemma CutEnds(f: File, e: nat)
    requires e <= |f| && End(f, e)
    ensures var g := f[..Behind(f, e)];
            && End(g, e) && Text(g, e) == Text(f, e)
            && (forall d :: e < d <= |g| && End(g, d) ==> Blank(g, d))
  {
    TextInPrefix(f, Behind(f, e), e);
    var g := f[..Behind(f, e)];
    if e < |f| {
      assert g[e] == NEWLINE && |g| == e + 1 && Start(g, e + 1) == e + 1;
    }
  }

  /** A file cut behind a completed turn passes the backward check. */
  lemma CutIsValid(f: File, e: nat, parse: Parser)
    requires LastComplete(f, e, parse)
    ensures Valid(f[..Behind(f, e)], parse)
    ensures LastComplete(f[..Behind(f, e)], e, parse)
  {
    CutEnds(f, e);
    var g := f[..Behind(f, e)];
    assert LastLine(g, e) && Parses(g, e, parse);
    assert LastMessage(g, e, parse) && CompleteAt(g, e, parse);
  }

  datatype Restored = Nothing | Found(file: File) | Unrepairable(v: Verdict)

  /** A session directory: its files by modification time, the newest last. */
  class SessionDir {
    var files: seq<File>

    constructor (files: seq<File>)
      ensures this.files == files
    {
      this.files := files;
    }

    /** `truncate_to_last_complete_turn` on the newest file. */
    method Truncate(parse: Parser)
      requires files != []
      modifies this
      ensures Truncated(old(files), files, parse)
    {
      var f, rest := files[|files| - 1], files[..|files| - 1];
      var cut := CutPoint(f, parse);
      if cut == 0 {
        files := rest;
        return;
      }
      ghost var e :| LastComplete(f, e, parse) && cut == Behind(f, e);
      if cut < |f| {
        files := rest + [f[..cut]];
      } else {
        assert f[..cut] == f && files == rest + [f];
      }
    }

    /** `latest_complete_turn_file`. */
    method LatestCompleteTurnFile(parse: Parser) returns (r: Restored)
      ensures Latest(files, r, parse)
    {
      if files == [] {
        return Nothing;
      }
      var f := files[|files| - 1];
      var v := Validate(f, parse);
      if v == Complete {
        return Found(f);
      }
      NotValid(f, v, parse);
      return Unrepairable(v);
    }

    /** `latest_complete_turn_file_repairing_crash_tail`: every verdict but `Complete` is
        a crash tail. */
    method Restore(parse: Parser) returns (r: Restored)
      modifies this
      ensures Repaired(old(files), files, r, parse)
    {
      r := LatestCompleteTurnFile(parse);
      if r.Unrepairable? {
        Truncate(parse);
        r := LatestCompleteTurnFile(parse);
      }
    }
  }

  lemma NotValid(f: File, v: Verdict, parse: Parser)
    requires Judged(f, v, parse) && v != Complete
    ensures !Valid(f, parse)
  {
  }

  /** The newest file if it ends in a completed turn, and why not otherwise. */
  ghost predicate Latest(files: seq<File>, r: Restored, parse: Parser) {
    if files == [] then r == Nothing
    else
      var f := files[|files| - 1];
      if Valid(f, parse) then r == Found(f) else r.Unrepairable? && r.v != Complete && Judged(f, r.v, parse)
  }

  /** The newest file is cut behind its last completed turn, or removed for want of one. */
  ghost predicate Truncated(before: seq<File>, after: seq<File>, parse: Parser)
    requires before != []
  {
    var f, rest := before[|before| - 1], before[..|before| - 1];
    if NoneComplete(f, 0, |f| + 1, parse) then after == rest
    else exists e :: LastComplete(f, e, parse) && after == rest + [f[..Behind(f, e)]]
  }

  /** What a restore leaves, given the files it found. */
  ghost predicate Repaired(before: seq<File>, after: seq<File>, r: Restored, parse: Parser) {
    if before == [] || Valid(before[|before| - 1], parse) then after == before && Latest(after, r, parse)
    else Truncated(before, after, parse) && Latest(after, r, parse)
  }

  /** A file that was cut is found. */
  lemma CutRestores(before: seq<File>, after: seq<File>, r: Restored, parse: Parser)
    requires before != [] && Truncated(before, after, parse) && Latest(after, r, parse)
    ensures |after| == |before| ==> r.Found?
  {
    if |after| == |before| {
      var f := before[|before| - 1];
      var e :| LastComplete(f, e, parse) && after == before[..|before| - 1] + [f[..Behind(f, e)]];
      CutIsValid(f, e, parse);
    }
  }

  /** Restoring a directory with at most one file never fails: a valid file is kept, one
      without a completed turn removed, and any other cut to its longest prefix that ends
      in a completed turn. */
  lemma OneFileAlwaysRestores(before: seq<File>, after: seq<File>, r: Restored, parse: Parser)
    requires |before| <= 1 && Repaired(before, after, r, parse)
    ensures if before == [] then r == Nothing && after == []
            else OneFileRestored(before[0], after, r, parse)
  {
    if before != [] {
      assert before[..0] == [];
      if !Valid(before[0], parse) && !NoneComplete(before[0], 0, |before[0]| + 1, parse) {
        CutFileRestored(before, after, r, parse);
      }
    }
  }

  lemma CutFileRestored(before: seq<File>, after: seq<File>, r: Restored, parse: Parser)
    requires |before| == 1 && !NoneComplete(before[0], 0, |before[0]| + 1, parse)
    requires Truncated(before, after, parse) && Latest(after, r, parse)
    ensures r.Found? && after == [r.file] && Valid(r.file, parse) && LongestComplete(before[0], r.file, parse)
  {
    var f := before[0];
    var e :| LastComplete(f, e, parse) && after == before[..0] + [f[..Behind(f, e)]];
    assert after == [f[..Behind(f, e)]];
    CutIsValid(f, e, parse);
    LongestCut(f, e, parse);
  }

  ghost predicate OneFileRestored(f: File, after: seq<File>, r: Restored, parse: Parser) {
    if Valid(f, parse) then r == Found(f) && after == [f]
    else if NoneComplete(f, 0, |f| + 1, parse) then r == Nothing && after == []
    else r.Found? && after == [r.file] && Valid(r.file, parse) && LongestComplete(f, r.file, parse)
  }

  /** `f[..n]` is `f` up to and including a line that is a completed turn. */
  ghost predicate EndsComplete(f: File, n: nat, parse: Parser) {
    exists e :: 0 <= e <= |f| && End(f, e) && CompleteAt(f, e, parse) && n == Behind(f, e)
  }

  ghost predicate LongestComplete(f: File, g: File, parse: Parser) {
    && g <= f && EndsComplete(f, |g|, parse)
    && (forall n :: |g| < n <= |f| ==> !EndsComplete(f, n, parse))
  }

  lemma LongestCut(f: File, e: nat, parse: Parser)
    requires LastComplete(f, e, parse)
    ensures LongestComplete(f, f[..Behind(f, e)], parse)
  {
  }

  /** In general a restore fails exactly when the newest file holds no completed turn and
      the file below it, now the newest, does not end in one. */
  lemma RestoreFailsIff(before: seq<File>, after: seq<File>, r: Restored, parse: Parser)
    requires Repaired(before, after, r, parse)
    ensures r.Unrepairable? <==>
            && |before| >= 2
            && !Valid(before[|before| - 1], parse)
            && NoneComplete(before[|before| - 1], 0, |before[|before| - 1]| + 1, parse)
            && !Valid(before[|before| - 2], parse)
  {
    if before != [] && !Valid(before[|before| - 1], parse) {
      CutRestores(before, after, r, parse);
    }
  }

  /** Every completed turn of the file survives the cut: its bytes are untouched, and
      what is dropped holds none. */
  lemma CutKeepsEveryTurn(f: File, e: nat, d: nat, parse: Parser)
    requires LastComplete(f, e, parse)
    requires d <= |f| && End(f, d) && CompleteAt(f, d, parse)
    ensures d <= e && CompleteAt(f[..Behind(f, e)], d, parse) && Text(f[..Behind(f, e)], d) == Text(f, d)
  {
    if d <= e {
      TextInPrefix(f, Behind(f, e), d);
    }
  }

  /** Restoring again changes nothing. */
  lemma RestoreIsIdempotent(before: seq<File>, after: seq<File>, again: seq<File>, r: Restored, r2: Restored, parse: Parser)
    requires Repaired(before, after, r, parse) && Repaired(after, again, r2, parse)
    requires !r.Unrepairable?
    ensures again == after && r2 == r
  {
  }

  /** Two files that each hold one half-written line `{`: the first restore removes the
      newest and then fails on the older one, which a second restore would remove. */
  lemma TwoCrashedFilesFail(parse: Parser)
    requires parse([123]).None?
    ensures forall after, r :: Repaired([[123], [123]], after, r, parse) ==> r.Unrepairable? && after == [[123]]
  {
    var f: File := [123];
    assert f[0..1] == f && Start(f, 1) == 0 && Text(f, 1) == f;
    assert forall e :: 0 <= e <= |f| && End(f, e) ==> e == 1;
    assert [f, f][..1] == [f];
  }
}
