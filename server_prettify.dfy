/**
 * The formatters of the server (`server/mqmcpserver.py`) that turn an MQ
 * REST reply, already decoded from JSON, into the text a tool returns:
 * `prettify_dspmq`, `prettify_dspmqver` and `prettify_runmqsc`.
 */
module ServerPrettify {
  import opened Wrappers
  import opened Text
  import opened Seqs

  /** One entry of the `qmgr` list of a `GET qmgr/` reply. */
  datatype QmgrStatus = QmgrStatus(name: string, state: string)

  /** One entry of the `installation` list; a missing key is `None`. */
  datatype Installation = Installation(
    name: Option<string>,
    version: Option<string>,
    architecture: Option<string>,
    installationPath: Option<string>)

  // ---------------------------------------------------------------- dspmq

  function DspmqLine(q: QmgrStatus): string
  {
    "name=" + q.name + ", state=" + q.state
  }

  function DspmqLines(qs: seq<QmgrStatus>): (lines: seq<string>)
    ensures |lines| == |qs|
    ensures forall k | 0 <= k < |qs| :: lines[k] == DspmqLine(qs[k])
  {
    MapSeq(qs, DspmqLine)
  }

  /** `prettify_dspmq`: one `name=…, state=…` line per queue manager, joined by newlines. */
  method PrettifyDspmq(qs: seq<QmgrStatus>) returns (out: string)
    ensures out == Join(DspmqLines(qs), "\n")
  {
    var lines: seq<string> := [];
    for i := 0 to |qs|
      invariant |lines| == i
      invariant forall k | 0 <= k < i :: lines[k] == DspmqLine(qs[k])
    {
      lines := lines + [DspmqLine(qs[i])];
    }
    assert lines == DspmqLines(qs);
    out := Join(lines, "\n");
  }

  /** When no name or state holds a line break, the reply has exactly one line per queue manager, in order. */
  lemma DspmqOneLinePerQmgr(qs: seq<QmgrStatus>)
    requires qs != []
    requires forall q | q in qs :: '\n' !in q.name && '\n' !in q.state
    ensures Split(Join(DspmqLines(qs), "\n"), "\n") == DspmqLines(qs)
  {
    var lines := DspmqLines(qs);
    forall l | l in lines ensures '\n' !in l {
      var k :| 0 <= k < |lines| && lines[k] == l;
      assert qs[k] in qs;
    }
    SplitJoin(lines, '\n');
  }

  // ------------------------------------------------------------- dspmqver

  function DspmqverBlock(x: Installation): string
  {
    "Name: " + x.name.GetOr("N/A") + "\n"
    + "Version: " + x.version.GetOr("N/A") + "\n"
    + "Architecture: " + x.architecture.GetOr("N/A") + "\n"
    + "Installation Path: " + x.installationPath.GetOr("N/A") + "\n---"
  }

  function DspmqverLines(xs: seq<Installation>): (lines: seq<string>)
    ensures |lines| == |xs| + 1 && lines[0] == "\n---"
    ensures forall k | 0 <= k < |xs| :: lines[k + 1] == DspmqverBlock(xs[k])
  {
    ["\n---"] + MapSeq(xs, DspmqverBlock)
  }

  /** `prettify_dspmqver`: a `---` rule, then one four-line block per installation, missing keys shown as `N/A`. */
  method PrettifyDspmqver(xs: seq<Installation>) returns (out: string)
    ensures out == Join(DspmqverLines(xs), "\n")
  {
    var lines: seq<string> := ["\n---"];
    for i := 0 to |xs|
      invariant lines == ["\n---"] + MapSeq(xs[..i], DspmqverBlock)
    {
      MapSeqSnoc(xs, DspmqverBlock, i);
      lines := lines + [DspmqverBlock(xs[i])];
    }
    assert xs[..|xs|] == xs;
    out := Join(lines, "\n");
  }

  /** The reply opens with the rule and, per installation, continues with a newline and its block. */
  lemma {:induction false} DspmqverShape(xs: seq<Installation>)
    ensures Join(DspmqverLines(xs), "\n") == "\n---" + DspmqverTail(xs)
  {
    if xs != [] {
      var lines := DspmqverLines(xs);
      JoinCons("\n---", lines[1..], "\n");
      assert lines == ["\n---"] + lines[1..];
      JoinBlocks(xs);
    }
  }

  function DspmqverTail(xs: seq<Installation>): string
  {
    if xs == [] then "" else "\n" + DspmqverBlock(xs[0]) + DspmqverTail(xs[1..])
  }

  lemma {:induction false} JoinBlocks(xs: seq<Installation>)
    requires xs != []
    ensures "\n" + Join(MapSeq(xs, DspmqverBlock), "\n") == DspmqverTail(xs)
  {
    var bs := MapSeq(xs, DspmqverBlock);
    if |xs| > 1 {
      JoinBlocks(xs[1..]);
      assert bs[1..] == MapSeq(xs[1..], DspmqverBlock);
      JoinCons(bs[0], bs[1..], "\n");
      assert bs == [bs[0]] + bs[1..];
    }
  }

  /** A value that, when present, holds no line break. */
  predicate OneLine(v: Option<string>)
  {
    v.Some? ==> '\n' !in v.value
  }

  /**
   * A missing key of an installation is shown as `N/A` and a present one
   * as its value: with line-break-free values the block reads as the four
   * labelled lines and the rule.
   */
  lemma MissingFieldsShowNA(x: Installation)
    requires OneLine(x.name) && OneLine(x.version)
    requires OneLine(x.architecture) && OneLine(x.installationPath)
    ensures var ls := Split(DspmqverBlock(x), "\n");
      && |ls| == 5 && ls[4] == "---"
      && (x.name.None? ==> ls[0] == "Name: N/A")
      && (x.version.None? ==> ls[1] == "Version: N/A")
      && (x.architecture.None? ==> ls[2] == "Architecture: N/A")
      && (x.installationPath.None? ==> ls[3] == "Installation Path: N/A")
      && (x.name.Some? ==> ls[0] == "Name: " + x.name.value)
      && (x.version.Some? ==> ls[1] == "Version: " + x.version.value)
      && (x.architecture.Some? ==> ls[2] == "Architecture: " + x.architecture.value)
      && (x.installationPath.Some? ==> ls[3] == "Installation Path: " + x.installationPath.value)
  {
    var l0, l1, l2, l3 := "Name: " + x.name.GetOr("N/A"), "Version: " + x.version.GetOr("N/A"),
      "Architecture: " + x.architecture.GetOr("N/A"), "Installation Path: " + x.installationPath.GetOr("N/A");
    BlockShape(x);
    LabelFacts();
    assert '\n' !in l0 && '\n' !in l1 && '\n' !in l2 && '\n' !in l3;
    SplitFiveLines(l0, l1, l2, l3, "---");
    assert Split(DspmqverBlock(x), "\n") == [l0, l1, l2, l3, "---"];
  }

  /** The labels hold no line break, and each label followed by `N/A` reads as one literal. */
  lemma LabelFacts()
    ensures '\n' !in "Name: " && '\n' !in "Version: " && '\n' !in "Architecture: "
    ensures '\n' !in "Installation Path: " && '\n' !in "N/A" && '\n' !in "---"
    ensures "Name: " + "N/A" == "Name: N/A" && "Version: " + "N/A" == "Version: N/A"
    ensures "Architecture: " + "N/A" == "Architecture: N/A"
    ensures "Installation Path: " + "N/A" == "Installation Path: N/A"
  {
  }

  /** The block regrouped as its five lines with a break between each. */
  lemma BlockShape(x: Installation)
    ensures DspmqverBlock(x)
      == ("Name: " + x.name.GetOr("N/A")) + "\n" + ("Version: " + x.version.GetOr("N/A")) + "\n"
         + ("Architecture: " + x.architecture.GetOr("N/A")) + "\n"
         + ("Installation Path: " + x.installationPath.GetOr("N/A")) + "\n" + "---"
  {
    var l0, v, a, p := "Name: " + x.name.GetOr("N/A"), x.version.GetOr("N/A"),
      x.architecture.GetOr("N/A"), x.installationPath.GetOr("N/A");
    var p1 := l0 + "\n" + "Version: " + v;
    var p2 := p1 + "\n" + "Architecture: " + a;
    var p3 := p2 + "\n" + "Installation Path: " + p;
    assert DspmqverBlock(x) == p3 + "\n---";
    assert p3 + "\n---" == p3 + "\n" + "---";
    AppendAssoc(l0 + "\n", "Version: ", v);
    AppendAssoc(p1 + "\n", "Architecture: ", a);
    AppendAssoc(p2 + "\n", "Installation Path: ", p);
  }

  lemma SplitFiveLines(l0: string, l1: string, l2: string, l3: string, l4: string)
    requires '\n' !in l0 && '\n' !in l1 && '\n' !in l2 && '\n' !in l3 && '\n' !in l4
    ensures Split(l0 + "\n" + l1 + "\n" + l2 + "\n" + l3 + "\n" + l4, "\n") == [l0, l1, l2, l3, l4]
  {
    SplitJoin([l0], '\n');
    var s1 := l0 + "\n" + l1;
    SplitLast(l0, l1);
    assert Split(s1, "\n") == [l0, l1];
    var s2 := s1 + "\n" + l2;
    SplitLast(s1, l2);
    assert Split(s2, "\n") == [l0, l1, l2];
    var s3 := s2 + "\n" + l3;
    SplitLast(s2, l3);
    assert Split(s3, "\n") == [l0, l1, l2, l3];
    SplitLast(s3, l4);
  }

  /** Splitting text followed by a break and a line-break-free last line. */
  lemma SplitLast(s: string, last: string)
    requires '\n' !in last
    ensures Split(s + "\n" + last, "\n") == Split(s, "\n") + [last]
  {
    var head := Split(s, "\n");
    var parts := head + [last];
    JoinSplit(s, "\n");
    JoinAppend(head, [last], "\n");
    SplitPiecesAvoidSep(s, '\n');
    forall q | q in parts ensures '\n' !in q {
      if q != last { assert q in head; }
    }
    SplitJoin(parts, '\n');
  }

  // ------------------------------------------------------------- runmqsc

  /** The message id that opens a z/OS command response. */
  const ZosMarker: string := "CSQN205I"

  /** Headers removed from the start of a distributed response line. */
  const StripHeaders: seq<string> := [
    "AMQ8409I: Display Queue details.",
    "AMQ8450I: Display Channel details.",
    "AMQ8420I: Display Queue Manager details."
  ]

  /** The reply when no line survives. */
  const NoOutputMessage: string :=
    "✅ Command executed successfully, but no objects matched or no diagnostic output was returned."

  predicate IsZos(text: seq<string>)
  {
    |text| > 0 && StartsWith(text[0], ZosMarker)
  }

  /** The z/OS body: the first line dropped, then the last one if any remain. */
  function ZosBody(text: seq<string>): (body: seq<string>)
    requires |text| > 0
    ensures |body| == if |text| >= 2 then |text| - 2 else 0
    ensures forall k | 0 <= k < |body| :: body[k] == text[k + 1]
  {
    var t := text[1..];
    if t != [] then t[..|t| - 1] else t
  }

  /** `y[15:].strip()` */
  function ZosFormat(y: string): string
  {
    Strip(Drop(y, 15))
  }

  function ZosLines(text: seq<string>): (lines: seq<string>)
    requires |text| > 0
  {
    MapSeq(ZosBody(text), ZosFormat)
  }

  /**
   * `re.split(r'\s{2,}', s)`: cut at every run of two or more whitespace
   * characters, the whole run being the separator.
   */
  function SplitWide(s: string): (pieces: seq<string>)
    ensures |pieces| >= 1
    decreases |s|
  {
    if |s| >= 2 && IsSpace(s[0]) && IsSpace(s[1]) then [""] + SplitWide(TrimLeft(s))
    else if s == [] then [""]
    else
      var rest := SplitWide(s[1..]);
      [[s[0]] + rest[0]] + rest[1..]
  }

  /** No two adjacent characters are both whitespace. */
  predicate NoWideGap(p: string)
  {
    forall i | 0 <= i < |p| - 1 :: !(IsSpace(p[i]) && IsSpace(p[i + 1]))
  }

  /** The first piece of a wide split is a prefix of the text. */
  lemma {:induction false} SplitWideHead(s: string)
    ensures StartsWith(s, SplitWide(s)[0])
    decreases |s|
  {
    if |s| >= 2 && IsSpace(s[0]) && IsSpace(s[1]) {
    } else if s != [] {
      SplitWideHead(s[1..]);
      var r0 := SplitWide(s[1..])[0];
      assert s[..|r0| + 1] == [s[0]] + s[1..][..|r0|];
    }
  }

  /** A wide split never leaves a run of two whitespace characters inside a piece. */
  lemma {:induction false} SplitWidePiecesNarrow(s: string)
    ensures forall p | p in SplitWide(s) :: NoWideGap(p)
    decreases |s|
  {
    if |s| >= 2 && IsSpace(s[0]) && IsSpace(s[1]) {
      SplitWidePiecesNarrow(TrimLeft(s));
    } else if s != [] {
      var rest := SplitWide(s[1..]);
      SplitWidePiecesNarrow(s[1..]);
      SplitWideHead(s[1..]);
      var head := [s[0]] + rest[0];
      assert rest[0] in rest;
      assert NoWideGap(head) by {
        forall i | 0 <= i < |head| - 1 ensures !(IsSpace(head[i]) && IsSpace(head[i + 1])) {
          if i == 0 {
            assert head[1] == rest[0][0] == s[1];
          } else {
            assert head[i] == rest[0][i - 1] && head[i + 1] == rest[0][i];
          }
        }
      }
      forall p | p in rest[1..] ensures NoWideGap(p) { assert p in rest; }
    }
  }

  /** A run of two or more whitespace characters: one separator of the wide split. */
  predicate IsWideGap(g: string)
  {
    |g| >= 2 && forall i | 0 <= i < |g| :: IsSpace(g[i])
  }

  /** A field of a reply line: non-empty, no whitespace at either end, no wide gap inside. */
  predicate IsField(p: string)
  {
    p != "" && !IsSpace(p[0]) && !IsSpace(p[|p| - 1]) && NoWideGap(p)
  }

  /** The pieces put back together, `gaps[k]` between `pieces[k]` and `pieces[k + 1]`. */
  function WideJoin(pieces: seq<string>, gaps: seq<string>): string
    requires |pieces| == |gaps| + 1
    decreases |gaps|
  {
    if gaps == [] then pieces[0]
    else pieces[0] + gaps[0] + WideJoin(pieces[1..], gaps[1..])
  }

  /** The separators the wide split cuts out, in order. */
  function WideGaps(s: string): (gaps: seq<string>)
    ensures |gaps| + 1 == |SplitWide(s)|
    decreases |s|
  {
    if |s| >= 2 && IsSpace(s[0]) && IsSpace(s[1]) then [s[..|s| - |TrimLeft(s)|]] + WideGaps(TrimLeft(s))
    else if s == [] then []
    else WideGaps(s[1..])
  }

  /** Putting a character in front of the first piece puts it in front of the joined text. */
  lemma WideJoinCons(c: char, pieces: seq<string>, gaps: seq<string>)
    requires |pieces| == |gaps| + 1
    ensures WideJoin([[c] + pieces[0]] + pieces[1..], gaps) == [c] + WideJoin(pieces, gaps)
  {
    var moved := [[c] + pieces[0]] + pieces[1..];
    assert moved[1..] == pieces[1..];
  }

  /** A text opening with two whitespace characters opens with a wide gap, the whole leading run. */
  lemma LeadingGap(s: string)
    requires |s| >= 2 && IsSpace(s[0]) && IsSpace(s[1])
    ensures var t := TrimLeft(s);
      IsWideGap(s[..|s| - |t|]) && s[..|s| - |t|] + t == s
  {
    var t := TrimLeft(s);
    TrimLeftSpec(s);
  }

  /** An empty first piece contributes only its gap to the joined text. */
  lemma WideJoinEmptyHead(g: string, pieces: seq<string>, gaps: seq<string>)
    requires |pieces| == |gaps| + 1
    ensures WideJoin([""] + pieces, [g] + gaps) == g + WideJoin(pieces, gaps)
  {
    assert ([""] + pieces)[1..] == pieces && ([g] + gaps)[1..] == gaps;
  }

  /**
   * The wide split loses nothing: the pieces, with the separators it cut
   * out put back between them, give the text again.
   */
  lemma {:induction false} SplitWideRejoins(s: string)
    ensures WideJoin(SplitWide(s), WideGaps(s)) == s
    decreases |s|
  {
    if |s| >= 2 && IsSpace(s[0]) && IsSpace(s[1]) {
      var t := TrimLeft(s);
      LeadingGap(s);
      SplitWideRejoins(t);
      WideJoinEmptyHead(s[..|s| - |t|], SplitWide(t), WideGaps(t));
    } else if s != [] {
      SplitWideRejoins(s[1..]);
      WideJoinCons(s[0], SplitWide(s[1..]), WideGaps(s[1..]));
      assert [s[0]] + s[1..] == s;
    }
  }

  /** Every separator the wide split cuts out is a run of two or more whitespace characters. */
  lemma {:induction false} WideGapsAreWide(s: string)
    ensures forall g | g in WideGaps(s) :: IsWideGap(g)
    decreases |s|
  {
    if |s| >= 2 && IsSpace(s[0]) && IsSpace(s[1]) {
      LeadingGap(s);
      WideGapsAreWide(TrimLeft(s));
    } else if s != [] {
      WideGapsAreWide(s[1..]);
    }
  }

  /** Text without a wide gap is a single piece. */
  lemma {:induction false} NarrowIsWhole(s: string)
    requires NoWideGap(s)
    ensures SplitWide(s) == [s]
    decreases |s|
  {
    if s != [] {
      assert !(|s| >= 2 && IsSpace(s[0]) && IsSpace(s[1]));
      assert NoWideGap(s[1..]) by {
        forall i | 0 <= i < |s| - 2 ensures !(IsSpace(s[1..][i]) && IsSpace(s[1..][i + 1])) {
          assert s[1..][i] == s[i + 1] && s[1..][i + 1] == s[i + 2];
        }
      }
      NarrowIsWhole(s[1..]);
      assert [s[0]] + s[1..] == s;
    }
  }

  /**
   * The split cuts at a wide gap: a field-like head, a run of two or more
   * whitespace characters, and text that starts with none give the head as
   * the first piece and the split of the rest after it.
   */
  lemma {:induction false} CutAtGap(a: string, g: string, b: string)
    requires NoWideGap(a) && (a == [] || !IsSpace(a[|a| - 1]))
    requires IsWideGap(g)
    requires b == [] || !IsSpace(b[0])
    ensures SplitWide(a + g + b) == [a] + SplitWide(b)
    decreases |a|
  {
    var s := a + g + b;
    if a == [] {
      assert s == g + b && s[0] == g[0] && s[1] == g[1];
      TrimLeftRun(g, b);
    } else {
      assert s[0] == a[0] && s[1..] == a[1..] + g + b;
      assert !(IsSpace(s[0]) && IsSpace(s[1])) by {
        if |a| >= 2 { assert s[1] == a[1]; } else { assert !IsSpace(a[0]); }
      }
      assert NoWideGap(a[1..]) by {
        forall i | 0 <= i < |a| - 2 ensures !(IsSpace(a[1..][i]) && IsSpace(a[1..][i + 1])) {
          assert a[1..][i] == a[i + 1] && a[1..][i + 1] == a[i + 2];
        }
      }
      CutAtGap(a[1..], g, b);
      assert [a[0]] + a[1..] == a;
    }
  }

  /** Joined text starts with the first character of its first piece. */
  lemma WideJoinStart(pieces: seq<string>, gaps: seq<string>)
    requires |pieces| == |gaps| + 1 && pieces[0] != ""
    ensures WideJoin(pieces, gaps) != "" && WideJoin(pieces, gaps)[0] == pieces[0][0]
  {
  }

  /** Joined text ends with the last character of its last piece. */
  lemma {:induction false} WideJoinEnd(pieces: seq<string>, gaps: seq<string>)
    requires |pieces| == |gaps| + 1 && pieces[|pieces| - 1] != ""
    ensures var t := WideJoin(pieces, gaps);
      t != "" && t[|t| - 1] == pieces[|pieces| - 1][|pieces[|pieces| - 1]| - 1]
    decreases |gaps|
  {
    if gaps != [] {
      WideJoinEnd(pieces[1..], gaps[1..]);
    }
  }

  /**
   * The converse of `SplitWideRejoins`: fields joined by wide gaps split back
   * into exactly those fields.
   */
  lemma {:induction false} SplitWideOfJoin(pieces: seq<string>, gaps: seq<string>)
    requires |pieces| == |gaps| + 1
    requires forall k | 0 <= k < |pieces| :: IsField(pieces[k])
    requires forall k | 0 <= k < |gaps| :: IsWideGap(gaps[k])
    ensures SplitWide(WideJoin(pieces, gaps)) == pieces
    decreases |gaps|
  {
    if gaps == [] {
      NarrowIsWhole(pieces[0]);
    } else {
      var rest := WideJoin(pieces[1..], gaps[1..]);
      SplitWideOfJoin(pieces[1..], gaps[1..]);
      WideJoinStart(pieces[1..], gaps[1..]);
      CutAtGap(pieces[0], gaps[0], rest);
      assert [pieces[0]] + pieces[1..] == pieces;
    }
  }

  /** Every piece stripped. */
  function StripAll(ps: seq<string>): (r: seq<string>)
    ensures |r| == |ps|
    ensures forall i | 0 <= i < |ps| :: r[i] == Strip(ps[i])
    ensures forall p | p in r :: Strip(p) == p
  {
    if ps == [] then []
    else
      StripIdempotent(ps[0]);
      [Strip(ps[0])] + StripAll(ps[1..])
  }

  /** `[p.strip() for p in re.split(r'\s{2,}', line_s) if p.strip()]` */
  function Pieces(s: string): (ps: seq<string>)
    ensures forall p | p in ps :: p != "" && Strip(p) == p
  {
    Filter(StripAll(SplitWide(s)), (p: string) => p != "")
  }

  /** The first known header the line starts with, if any. */
  function FirstHeader(line: string): (h: Option<string>)
    ensures h.Some? ==> h.value in StripHeaders && StartsWith(line, h.value)
    ensures h.Some? ==> exists j | 0 <= j < |StripHeaders| :: (StripHeaders[j] == h.value
      && forall k | 0 <= k < j :: !StartsWith(line, StripHeaders[k]))
    ensures h.None? ==> forall k | 0 <= k < |StripHeaders| :: !StartsWith(line, StripHeaders[k])
  {
    if StartsWith(line, StripHeaders[0]) then Some(StripHeaders[0])
    else if StartsWith(line, StripHeaders[1]) then Some(StripHeaders[1])
    else if StartsWith(line, StripHeaders[2]) then Some(StripHeaders[2])
    else None
  }

  /** The line after the first matching header has been removed and the rest stripped. */
  function WithoutHeader(lineS: string): string
  {
    match FirstHeader(lineS)
    case Some(h) => Strip(lineS[|h|..])
    case None => lineS
  }

  /** An echo of the command, such as `1 : DISPLAY QLOCAL(*)`. */
  predicate IsEcho(lineS: string)
  {
    |lineS| > 0 && IsDigit(lineS[0]) && Contains(lineS, " : ")
  }

  /** What one line of a distributed response contributes. */
  function CleanLine(line: string): (out: seq<string>)
    ensures forall p | p in out :: p != "" && Strip(p) == p
  {
    var lineS := Strip(line);
    if lineS == "" || IsEcho(lineS) then []
    else
      var body := WithoutHeader(lineS);
      if body == "" then [] else Pieces(body)
  }

  function DistributedLines(text: seq<string>): (lines: seq<string>)
    ensures forall p | p in lines :: p != "" && Strip(p) == p
  {
    if text == [] then []
    else DistributedLines(text[..|text| - 1]) + CleanLine(text[|text| - 1])
  }

  /** What one entry of `commandResponse` contributes. */
  function ResponseLines(text: seq<string>): seq<string>
  {
    if IsZos(text) then ZosLines(text) else DistributedLines(text)
  }

  function AllLines(responses: seq<seq<string>>): seq<string>
  {
    if responses == [] then []
    else AllLines(responses[..|responses| - 1]) + ResponseLines(responses[|responses| - 1])
  }

  function RenderRunmqsc(lines: seq<string>): string
  {
    if lines == [] then NoOutputMessage else Join(lines, "\n")
  }

  /** The header loop: stop at the first known header and strip what follows it. */
  method StripKnownHeader(lineS: string) returns (r: string)
    ensures r == WithoutHeader(lineS)
  {
    for h := 0 to |StripHeaders|
      invariant forall k | 0 <= k < h :: !StartsWith(lineS, StripHeaders[k])
    {
      if StartsWith(lineS, StripHeaders[h]) {
        assert FirstHeader(lineS) == Some(StripHeaders[h]);
        return Strip(lineS[|StripHeaders[h]|..]);
      }
    }
    return lineS;
  }

  /** The z/OS branch: pop the first line, then the last if any remain, and cut the rest after column 15. */
  method ZosResponse(text: seq<string>) returns (added: seq<string>)
    requires IsZos(text)
    ensures added == ZosLines(text)
  {
    var textList := text;
    textList := textList[1..];
    if |textList| > 0 {
      textList := textList[..|textList| - 1];
    }
    added := [];
    for k := 0 to |textList|
      invariant added == MapSeq(textList[..k], ZosFormat)
    {
      MapSeqSnoc(textList, ZosFormat, k);
      added := added + [ZosFormat(textList[k])];
    }
    assert textList[..|textList|] == textList;
  }

  /** One more line of a distributed response adds what that line contributes. */
  lemma DistributedSnoc(text: seq<string>, k: nat)
    requires k < |text|
    ensures DistributedLines(text[..k + 1]) == DistributedLines(text[..k]) + CleanLine(text[k])
  {
    assert text[..k + 1][..k] == text[..k];
  }

  /** The distributed branch: skip blank lines and echoes, remove a header, split on wide gaps. */
  method DistributedResponse(text: seq<string>) returns (added: seq<string>)
    ensures added == DistributedLines(text)
  {
    added := [];
    for k := 0 to |text|
      invariant added == DistributedLines(text[..k])
    {
      DistributedSnoc(text, k);
      var lineS := Strip(text[k]);
      if lineS == "" {
        continue;
      }
      if IsDigit(lineS[0]) && Contains(lineS, " : ") {
        continue;
      }
      lineS := StripKnownHeader(lineS);
      if lineS == "" {
        continue;
      }
      added := added + Pieces(lineS);
    }
    assert text[..|text|] == text;
  }

  /**
   * `prettify_runmqsc`: z/OS responses lose their first and last line and
   * are cut after column 15; distributed responses lose blank lines,
   * command echoes and known headers and are split on wide gaps.
   */
  method PrettifyRunmqsc(responses: seq<seq<string>>) returns (out: string)
    ensures out == RenderRunmqsc(AllLines(responses))
  {
    var lines: seq<string> := [];
    for r := 0 to |responses|
      invariant lines == AllLines(responses[..r])
    {
      var textList := responses[r];
      var added: seq<string>;
      if |textList| > 0 && StartsWith(textList[0], ZosMarker) {
        added := ZosResponse(textList);
      } else {
        added := DistributedResponse(textList);
      }
      assert responses[..r + 1][..r] == responses[..r];
      lines := lines + added;
    }
    assert responses[..|responses|] == responses;
    if lines == [] {
      out := NoOutputMessage;
    } else {
      out := Join(lines, "\n");
    }
  }

  /** A z/OS response keeps every line but the first and the last, cut after column 15 and stripped. */
  lemma ZosKeepsInnerLines(text: seq<string>)
    requires IsZos(text)
    ensures |ResponseLines(text)| == if |text| >= 2 then |text| - 2 else 0
    ensures forall k | 0 <= k < |ResponseLines(text)| :: ResponseLines(text)[k] == Strip(Drop(text[k + 1], 15))
  {
  }

  /** Blank lines and command echoes contribute nothing. */
  lemma BlankAndEchoLinesSkipped(line: string)
    requires Strip(line) == "" || IsEcho(Strip(line))
    ensures CleanLine(line) == []
  {
  }

  /** A known header is removed together with the whitespace after it. */
  lemma HeaderRemoved(line: string, j: nat, rest: string)
    requires j < |StripHeaders|
    requires Strip(line) == StripHeaders[j] + rest
    ensures CleanLine(line) == if Strip(rest) == "" then [] else Pieces(Strip(rest))
  {
    var lineS, h := Strip(line), StripHeaders[j];
    StartsWithConcat(h, rest);
    assert lineS[|h|..] == rest;
    HeaderDecides(lineS, j);
    assert WithoutHeader(lineS) == Strip(rest);
    HeadersOpenWithLetter();
    StartsWithAt(lineS, h, 0);
    assert lineS != "" && !IsEcho(lineS);
  }

  /** Every known header opens with a letter, not a digit. */
  lemma HeadersOpenWithLetter()
    ensures forall k | 0 <= k < |StripHeaders| :: |StripHeaders[k]| > 5 && !IsDigit(StripHeaders[k][0])
  {
  }

  /** The headers differ at their sixth character, so the one a line opens with is the one found. */
  lemma HeaderDecides(lineS: string, j: nat)
    requires j < |StripHeaders| && StartsWith(lineS, StripHeaders[j])
    ensures FirstHeader(lineS) == Some(StripHeaders[j])
  {
    StartsWithAt(lineS, StripHeaders[j], 5);
    forall k | 0 <= k < j ensures !StartsWith(lineS, StripHeaders[k]) {
      if StartsWith(lineS, StripHeaders[k]) {
        StartsWithAt(lineS, StripHeaders[k], 5);
      }
    }
  }

  /** A plain data line is split on wide gaps, so no emitted piece holds two adjacent whitespace characters. */
  lemma {:induction false} EmittedPiecesAreNarrow(s: string)
    ensures forall p | p in Pieces(s) :: NoWideGap(p)
  {
    SplitWidePiecesNarrow(s);
    var stripped := StripAll(SplitWide(s));
    forall p | p in Pieces(s) ensures NoWideGap(p) {
      assert p in stripped;
      var i :| 0 <= i < |stripped| && stripped[i] == p;
      assert SplitWide(s)[i] in SplitWide(s);
      StripKeepsNarrow(SplitWide(s)[i]);
    }
  }

  /** Stripping a window cannot create a wide gap. */
  lemma StripKeepsNarrow(p: string)
    requires NoWideGap(p)
    ensures NoWideGap(Strip(p))
  {
    var r := Strip(p);
    StripSpec(p);
    var k :| 0 <= k <= |p| - |r| && IsWindow(p, k, r);
    forall i | 0 <= i < |r| - 1 ensures !(IsSpace(r[i]) && IsSpace(r[i + 1])) {
      assert r[i] == p[k + i] && r[i + 1] == p[k + i + 1];
    }
  }

  /** Fields joined by wide gaps come back as exactly those fields, each kept whole. */
  lemma PiecesOfJoin(pieces: seq<string>, gaps: seq<string>)
    requires |pieces| == |gaps| + 1
    requires forall k | 0 <= k < |pieces| :: IsField(pieces[k])
    requires forall k | 0 <= k < |gaps| :: IsWideGap(gaps[k])
    ensures Pieces(WideJoin(pieces, gaps)) == pieces
  {
    SplitWideOfJoin(pieces, gaps);
    forall k | 0 <= k < |pieces| ensures Strip(pieces[k]) == pieces[k] {
      StripOfStripped(pieces[k]);
    }
    assert StripAll(pieces) == pieces;
    FilterKeepsAll(pieces, (p: string) => p != "");
  }

  /**
   * A data line that is not blank, not an echo and not headed by a known
   * header contributes its fields: the text between its wide gaps.
   */
  lemma CleanLineFields(line: string, pieces: seq<string>, gaps: seq<string>)
    requires |pieces| == |gaps| + 1
    requires forall k | 0 <= k < |pieces| :: IsField(pieces[k])
    requires forall k | 0 <= k < |gaps| :: IsWideGap(gaps[k])
    requires Strip(line) == WideJoin(pieces, gaps)
    requires !IsEcho(Strip(line)) && FirstHeader(Strip(line)).None?
    ensures CleanLine(line) == pieces
  {
    WideJoinStart(pieces, gaps);
    PiecesOfJoin(pieces, gaps);
  }

  /** After a known header, the fields of the rest of the line are what the line contributes. */
  lemma HeaderLineFields(line: string, j: nat, rest: string, pieces: seq<string>, gaps: seq<string>)
    requires j < |StripHeaders|
    requires Strip(line) == StripHeaders[j] + rest
    requires |pieces| == |gaps| + 1
    requires forall k | 0 <= k < |pieces| :: IsField(pieces[k])
    requires forall k | 0 <= k < |gaps| :: IsWideGap(gaps[k])
    requires Strip(rest) == WideJoin(pieces, gaps)
    ensures CleanLine(line) == pieces
  {
    HeaderRemoved(line, j, rest);
    WideJoinStart(pieces, gaps);
    PiecesOfJoin(pieces, gaps);
  }

  /** A typical data line: `  QUEUE(A)   TYPE(QLOCAL) ` gives `QUEUE(A)` and `TYPE(QLOCAL)`. */
  lemma QueueLineFields()
    ensures CleanLine("  QUEUE(A)   TYPE(QLOCAL) ") == ["QUEUE(A)", "TYPE(QLOCAL)"]
  {
    QueueLineStrip();
    QueueLineJoin();
    QueueLineParts();
    QueueLinePlain();
    CleanLineFields("  QUEUE(A)   TYPE(QLOCAL) ", ["QUEUE(A)", "TYPE(QLOCAL)"], ["   "]);
  }

  /** The example line stripped. */
  lemma QueueLineStrip()
    ensures Strip("  QUEUE(A)   TYPE(QLOCAL) ") == "QUEUE(A)   TYPE(QLOCAL)"
  {
    assert "  QUEUE(A)   TYPE(QLOCAL) " == "  " + "QUEUE(A)   TYPE(QLOCAL)" + " ";
    StripPadded("  ", "QUEUE(A)   TYPE(QLOCAL)", " ");
  }

  /** The stripped example line is its two fields around one wide gap. */
  lemma QueueLineJoin()
    ensures WideJoin(["QUEUE(A)", "TYPE(QLOCAL)"], ["   "]) == "QUEUE(A)   TYPE(QLOCAL)"
  {
    assert ["QUEUE(A)", "TYPE(QLOCAL)"][1..] == ["TYPE(QLOCAL)"];
  }

  /** The example's fields and gap have the shapes the split expects. */
  lemma QueueLineParts()
    ensures IsField("QUEUE(A)") && IsField("TYPE(QLOCAL)") && IsWideGap("   ")
  {
  }

  /** The example line is neither an echo nor headed by a known header. */
  lemma QueueLinePlain()
    ensures !IsEcho("QUEUE(A)   TYPE(QLOCAL)") && FirstHeader("QUEUE(A)   TYPE(QLOCAL)").None?
  {
    var joined := "QUEUE(A)   TYPE(QLOCAL)";
    HeadersOpenWithLetter();
    NotStartsWithFirst(joined, StripHeaders[0]);
    NotStartsWithFirst(joined, StripHeaders[1]);
    NotStartsWithFirst(joined, StripHeaders[2]);
  }

  /** Responses without text lines leave nothing, so the reply is the fixed success message. */
  lemma {:induction false} RunmqscEmptyReply(responses: seq<seq<string>>)
    requires forall k | 0 <= k < |responses| :: responses[k] == []
    ensures AllLines(responses) == []
    decreases |responses|
  {
    if responses != [] {
      var init := responses[..|responses| - 1];
      assert forall k | 0 <= k < |init| :: init[k] == responses[k];
      RunmqscEmptyReply(init);
      assert responses[|responses| - 1] == [];
      assert ResponseLines([]) == [];
    }
  }
}
