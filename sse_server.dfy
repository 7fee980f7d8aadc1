/**
 * The older SSE server (`server/mqmcpserver_sse.py`): its formatters build
 * the reply by appending one line and a newline at a time, framing each
 * queue manager, installation or command response with `---` lines; its
 * `runmqsc` posts a hand-built body to an unmodified URL.
 */
module SseServer {
  import opened Wrappers
  import opened Text
  import opened Seqs
  import ServerPrettify
  import ServerTools
  import RunmqscRoute

  type QmgrStatus = ServerPrettify.QmgrStatus
  type Installation = ServerPrettify.Installation

  /** Every line followed by a newline: the text `+=` accumulates. */
  function LinesNl(ls: seq<string>): string
  {
    if ls == [] then "" else LinesNl(ls[..|ls| - 1]) + ls[|ls| - 1] + "\n"
  }

  lemma LinesNlSnoc(ls: seq<string>, x: string)
    ensures LinesNl(ls + [x]) == LinesNl(ls) + x + "\n"
  {
    assert (ls + [x])[..|ls|] == ls;
  }

  lemma {:induction false} LinesNlAppend(a: seq<string>, b: seq<string>)
    ensures LinesNl(a + b) == LinesNl(a) + LinesNl(b)
    decreases |b|
  {
    if b != [] {
      var init := b[..|b| - 1];
      LinesNlAppend(a, init);
      assert a + b == (a + init) + [b[|b| - 1]];
      LinesNlSnoc(a + init, b[|b| - 1]);
      LinesNlSnoc(init, b[|b| - 1]);
      assert init + [b[|b| - 1]] == b;
    } else {
      assert a + b == a;
    }
  }

  lemma LinesNlPair(x: string, y: string)
    ensures LinesNl([x, y]) == x + "\n" + y + "\n"
  {
    LinesNlSnoc([], x);
    assert [] + [x] == [x];
    LinesNlSnoc([x], y);
    assert [x] + [y] == [x, y];
  }

  /** A reply's text from the lines it is made of, the opening rule included. */
  function Framed(lines: seq<string>): string
  {
    LinesNl(["", "---"] + lines)
  }

  /** Newline-terminated lines are the lines joined by newlines, plus one final newline. */
  lemma {:induction false} JoinNl(ls: seq<string>)
    requires ls != []
    ensures Join(ls, "\n") + "\n" == LinesNl(ls)
    decreases |ls|
  {
    if |ls| > 1 {
      var init := ls[..|ls| - 1];
      JoinNl(init);
      JoinAppend(init, [ls[|ls| - 1]], "\n");
      assert init + [ls[|ls| - 1]] == ls;
    }
  }

  /**
   * When no line holds a newline itself, the reply reads back as the empty
   * line before the opening rule, the rule, the lines, and the empty text
   * after the last newline.
   */
  lemma FramedLines(lines: seq<string>)
    requires forall l | l in lines :: '\n' !in l
    ensures Split(Framed(lines), "\n") == ["", "---"] + lines + [""]
  {
    var all := ["", "---"] + lines;
    JoinNl(all);
    JoinAppend(all, [""], "\n");
    assert Join([""], "\n") == "";
    assert Framed(lines) == LinesNl(all);
    forall l | l in all + [""] ensures '\n' !in l {
      if l in lines { } else { assert l == "" || l == "---"; }
    }
    SplitJoin(all + [""], '\n');
    assert "\n" == ['\n'];
    assert Join(all + [""], "\n") == Framed(lines);
  }

  // ---------------------------------------------------------------- dspmq

  function DspmqEntry(q: QmgrStatus): string
  {
    "name = " + q.name + ", running = " + q.state
  }

  /** One entry line and one `---` line per queue manager. */
  function DspmqReplyLines(qs: seq<QmgrStatus>): (lines: seq<string>)
    ensures |lines| == 2 * |qs|
  {
    if qs == [] then [] else DspmqReplyLines(qs[..|qs| - 1]) + [DspmqEntry(qs[|qs| - 1]), "---"]
  }

  /** The entry of the k-th queue manager is line 2k, and a rule follows it. */
  lemma {:induction false} DspmqLineAt(qs: seq<QmgrStatus>, k: nat)
    requires k < |qs|
    ensures DspmqReplyLines(qs)[2 * k] == DspmqEntry(qs[k]) && DspmqReplyLines(qs)[2 * k + 1] == "---"
    decreases |qs|
  {
    if k < |qs| - 1 {
      DspmqLineAt(qs[..|qs| - 1], k);
    }
  }

  /** `prettify_dspmq`: a rule, then `name = N, running = S` and a rule per queue manager. */
  method PrettifyDspmq(qs: seq<QmgrStatus>) returns (out: string)
    ensures out == Framed(DspmqReplyLines(qs))
  {
    out := "\n---\n";
    FramedEmpty();
    for i := 0 to |qs|
      invariant out == Framed(DspmqReplyLines(qs[..i]))
    {
      DspmqStep(qs, i);
      out := out + ("name = " + qs[i].name + ", running = " + qs[i].state + "\n---\n");
    }
    assert qs[..|qs|] == qs;
  }

  /** One pass of the `dspmq` loop appends the entry line and a rule. */
  lemma DspmqStep(qs: seq<QmgrStatus>, i: nat)
    requires i < |qs|
    ensures Framed(DspmqReplyLines(qs[..i + 1]))
         == Framed(DspmqReplyLines(qs[..i])) + (DspmqEntry(qs[i]) + "\n---\n")
  {
    var pre := ["", "---"] + DspmqReplyLines(qs[..i]);
    var e := DspmqEntry(qs[i]);
    assert qs[..i + 1][..i] == qs[..i];
    assert ["", "---"] + DspmqReplyLines(qs[..i + 1]) == pre + [e, "---"];
    LinesNlAppend(pre, [e, "---"]);
    LinesNlPair(e, "---");
  }

  // ------------------------------------------------------------- dspmqver

  /** The four labelled lines and the rule of one installation, missing keys shown as `N/A`. */
  function InstallationLines(x: Installation): seq<string>
  {
    ["Name: " + x.name.GetOr("N/A"),
     "Version: " + x.version.GetOr("N/A"),
     "Architecture: " + x.architecture.GetOr("N/A"),
     "Installation Path: " + x.installationPath.GetOr("N/A"),
     "---"]
  }

  function DspmqverReplyLines(xs: seq<Installation>): (lines: seq<string>)
    ensures |lines| == 5 * |xs|
  {
    if xs == [] then [] else DspmqverReplyLines(xs[..|xs| - 1]) + InstallationLines(xs[|xs| - 1])
  }

  /** The k-th installation owns lines 5k to 5k+4. */
  lemma {:induction false} DspmqverReplyLinesAt(xs: seq<Installation>, k: nat)
    requires k < |xs|
    ensures DspmqverReplyLines(xs)[5 * k..5 * k + 5] == InstallationLines(xs[k])
    decreases |xs|
  {
    if k < |xs| - 1 {
      DspmqverReplyLinesAt(xs[..|xs| - 1], k);
      var init := DspmqverReplyLines(xs[..|xs| - 1]);
      assert DspmqverReplyLines(xs)[5 * k..5 * k + 5] == init[5 * k..5 * k + 5];
    } else {
      var init := DspmqverReplyLines(xs[..|xs| - 1]);
      assert DspmqverReplyLines(xs)[|init|..] == InstallationLines(xs[k]);
    }
  }

  /** `prettify_dspmqver`: a rule, then per installation its four labelled lines and a rule. */
  method PrettifyDspmqver(xs: seq<Installation>) returns (out: string)
    ensures out == Framed(DspmqverReplyLines(xs))
  {
    out := "\n---\n";
    FramedEmpty();
    for i := 0 to |xs|
      invariant out == Framed(DspmqverReplyLines(xs[..i]))
    {
      var x := xs[i];
      ghost var lines := ["", "---"] + DspmqverReplyLines(xs[..i]);
      LinesNlAppend(lines, InstallationLines(x));
      InstallationText(x);
      assert xs[..i + 1][..i] == xs[..i];
      assert lines + InstallationLines(x) == ["", "---"] + DspmqverReplyLines(xs[..i + 1]);
      out := AppendInstallation(out, x);
    }
    assert xs[..|xs|] == xs;
  }

  /** One pass of the installation loop: four labelled lines and a rule. */
  method AppendInstallation(out0: string, x: Installation) returns (out: string)
    ensures out == out0 + InstallationBlock(x)
  {
    out := out0 + "Name: " + x.name.GetOr("N/A") + "\n";
    out := out + "Version: " + x.version.GetOr("N/A") + "\n";
    out := out + "Architecture: " + x.architecture.GetOr("N/A") + "\n";
    out := out + "Installation Path: " + x.installationPath.GetOr("N/A") + "\n";
    out := out + "---\n";
  }

  /** The text one loop pass appends for an installation. */
  function InstallationBlock(x: Installation): string
  {
    "Name: " + x.name.GetOr("N/A") + "\n"
    + "Version: " + x.version.GetOr("N/A") + "\n"
    + "Architecture: " + x.architecture.GetOr("N/A") + "\n"
    + "Installation Path: " + x.installationPath.GetOr("N/A") + "\n"
    + "---\n"
  }

  lemma InstallationText(x: Installation)
    ensures LinesNl(InstallationLines(x)) == InstallationBlock(x)
  {
    var b := InstallationLines(x);
    LinesNlFive(b[0], b[1], b[2], b[3], b[4]);
    assert b == [b[0], b[1], b[2], b[3], b[4]];
  }

  /** Five lines, each followed by a newline. */
  lemma LinesNlFive(a: string, b: string, c: string, d: string, e: string)
    ensures LinesNl([a, b, c, d, e]) == a + "\n" + b + "\n" + c + "\n" + d + "\n" + e + "\n"
  {
    LinesNlPair(a, b);
    LinesNlPair(c, d);
    LinesNlAppend([a, b], [c, d]);
    LinesNlSnoc([a, b] + [c, d], e);
    assert [a, b] + [c, d] + [e] == [a, b, c, d, e];
  }
  // ------------------------------------------------------------- runmqsc

  /** The errors Python raises inside `prettify_runmqsc`, caught by the tool as connection errors. */
  const IndexOutOfRange: string := "list index out of range"
  const PopFromEmpty: string := "pop from empty list"

  /** `y[15:]` followed by a rule, for each line between the first and the last. */
  function ZosSseLines(ys: seq<string>): (lines: seq<string>)
    ensures |lines| == 2 * |ys|
  {
    if ys == [] then [] else ZosSseLines(ys[..|ys| - 1]) + [Drop(ys[|ys| - 1], 15), "---"]
  }

  /** The lines with visible content, verbatim. */
  function NonBlank(ls: seq<string>): (kept: seq<string>)
    ensures forall l | l in kept :: l in ls && Strip(l) != ""
  {
    if ls == [] then []
    else if Strip(ls[|ls| - 1]) != "" then NonBlank(ls[..|ls| - 1]) + [ls[|ls| - 1]]
    else NonBlank(ls[..|ls| - 1])
  }

  /**
   * One command response: an empty text list fails on `[0]`; a z/OS list
   * of one line fails on the second `pop`; otherwise its lines as above,
   * or, for a distributed response, its non-blank lines and one rule.
   */
  function ResponseSseLines(text: seq<string>): Result<seq<string>>
  {
    if text == [] then Err(IndexOutOfRange)
    else if StartsWith(text[0], ServerPrettify.ZosMarker) then
      if |text| == 1 then Err(PopFromEmpty) else Ok(ZosSseLines(text[1..|text| - 1]))
    else Ok(NonBlank(text) + ["---"])
  }

  /** The responses on which the formatter raises. */
  predicate ResponseFails(text: seq<string>)
  {
    text == [] || (StartsWith(text[0], ServerPrettify.ZosMarker) && |text| == 1)
  }

  lemma ResponseFailsIff(text: seq<string>)
    ensures ResponseSseLines(text).Err? <==> ResponseFails(text)
  {
  }

  /** Every line with visible content survives, in the distributed branch. */
  lemma {:induction false} NonBlankKeepsContent(ls: seq<string>, l: string)
    requires l in ls && Strip(l) != ""
    ensures l in NonBlank(ls)
    decreases |ls|
  {
    if ls[|ls| - 1] != l {
      assert l in ls[..|ls| - 1] by {
        var i :| 0 <= i < |ls| && ls[i] == l;
        assert ls[..|ls| - 1][i] == l;
      }
      NonBlankKeepsContent(ls[..|ls| - 1], l);
    }
  }

  /** All responses in order; the first failing response decides the error. */
  function RunmqscSseLines(responses: seq<seq<string>>): Result<seq<string>>
  {
    if responses == [] then Ok([])
    else match RunmqscSseLines(responses[..|responses| - 1])
      case Err(e) => Err(e)
      case Ok(ls) =>
        match ResponseSseLines(responses[|responses| - 1])
        case Err(e) => Err(e)
        case Ok(more) => Ok(ls + more)
  }

  /** The whole reply fails exactly when one of its responses does. */
  lemma {:induction false} RunmqscSseFailsIff(responses: seq<seq<string>>)
    ensures RunmqscSseLines(responses).Err? <==> SomeResponseFails(responses)
    decreases |responses|
  {
    if responses != [] {
      RunmqscSseFailsIff(responses[..|responses| - 1]);
      ResponseFailsIff(responses[|responses| - 1]);
      SomeResponseFailsSnoc(responses);
    }
  }

  /** Some response of the list is one the formatter raises on. */
  predicate SomeResponseFails(responses: seq<seq<string>>)
  {
    exists i | 0 <= i < |responses| :: ResponseFails(responses[i])
  }

  lemma SomeResponseFailsSnoc(responses: seq<seq<string>>)
    requires responses != []
    ensures SomeResponseFails(responses)
      <==> SomeResponseFails(responses[..|responses| - 1]) || ResponseFails(responses[|responses| - 1])
  {
    var init := responses[..|responses| - 1];
    if SomeResponseFails(init) {
      var i :| 0 <= i < |init| && ResponseFails(init[i]);
      assert responses[i] == init[i];
    }
    if SomeResponseFails(responses) {
      var i :| 0 <= i < |responses| && ResponseFails(responses[i]);
      if i < |init| {
        assert init[i] == responses[i];
      }
    }
  }

  /** One more z/OS line: the line from column 15 on, then a rule. */
  lemma ZosStep(ys: seq<string>, k: nat, lines0: seq<string>)
    requires k < |ys|
    ensures LinesNl(lines0 + ZosSseLines(ys[..k + 1]))
         == LinesNl(lines0 + ZosSseLines(ys[..k])) + Drop(ys[k], 15) + "\n---\n"
  {
    var before := lines0 + ZosSseLines(ys[..k]);
    var y := Drop(ys[k], 15);
    LinesNlAppend(before, [y, "---"]);
    LinesNlPair(y, "---");
    assert ys[..k + 1][..k] == ys[..k];
    assert before + [y, "---"] == lines0 + ZosSseLines(ys[..k + 1]);
  }

  /** The z/OS branch after both pops: each remaining line from column 15 on, then a rule. */
  method ZosSse(ys: seq<string>, out0: string, ghost lines0: seq<string>) returns (out: string)
    requires out0 == LinesNl(lines0)
    ensures out == LinesNl(lines0 + ZosSseLines(ys))
  {
    out := out0;
    assert lines0 + ZosSseLines(ys[..0]) == lines0;
    for k := 0 to |ys|
      invariant out == LinesNl(lines0 + ZosSseLines(ys[..k]))
    {
      var y := Drop(ys[k], 15);
      ZosStep(ys, k, lines0);
      out := out + y + "\n---\n";
    }
    assert ys[..|ys|] == ys;
  }

  /** One more line of a distributed response: printed when it has visible content, skipped otherwise. */
  lemma DistributedStep(text: seq<string>, k: nat, lines0: seq<string>)
    requires k < |text|
    ensures Strip(text[k]) != "" ==>
      LinesNl(lines0 + NonBlank(text[..k + 1])) == LinesNl(lines0 + NonBlank(text[..k])) + text[k] + "\n"
    ensures Strip(text[k]) == "" ==> NonBlank(text[..k + 1]) == NonBlank(text[..k])
  {
    assert text[..k + 1][..k] == text[..k];
    if Strip(text[k]) != "" {
      LinesNlSnoc(lines0 + NonBlank(text[..k]), text[k]);
      assert lines0 + NonBlank(text[..k]) + [text[k]] == lines0 + NonBlank(text[..k + 1]);
    }
  }

  /** The distributed branch: each line with visible content and a newline, then a rule. */
  method DistributedSse(text: seq<string>, out0: string, ghost lines0: seq<string>) returns (out: string)
    requires out0 == LinesNl(lines0)
    ensures out == LinesNl(lines0 + NonBlank(text) + ["---"])
  {
    out := out0;
    assert lines0 + NonBlank(text[..0]) == lines0;
    for k := 0 to |text|
      invariant out == LinesNl(lines0 + NonBlank(text[..k]))
    {
      DistributedStep(text, k, lines0);
      if Strip(text[k]) != "" {
        out := out + text[k] + "\n";
      }
    }
    assert text[..|text|] == text;
    LinesNlSnoc(lines0 + NonBlank(text), "---");
    out := out + "---\n";
  }

  /** One pass of the response loop: the response's lines appended, or the exception it raises. */
  method AppendResponse(text: seq<string>, out0: string, ghost lines0: seq<string>) returns (r: Result<string>)
    requires out0 == LinesNl(lines0)
    ensures ResponseSseLines(text).Err? ==> r == Err(ResponseSseLines(text).error)
    ensures ResponseSseLines(text).Ok? ==> r == Ok(LinesNl(lines0 + ResponseSseLines(text).value))
  {
    if |text| == 0 {
      return Err(IndexOutOfRange);
    }
    var rest := text;
    if StartsWith(rest[0], ServerPrettify.ZosMarker) {
      rest := rest[1..];
      if |rest| == 0 {
        return Err(PopFromEmpty);
      }
      rest := rest[..|rest| - 1];
      assert rest == text[1..|text| - 1];
      var out := ZosSse(rest, out0, lines0);
      return Ok(out);
    }
    var out := DistributedSse(rest, out0, lines0);
    assert lines0 + NonBlank(text) + ["---"] == lines0 + (NonBlank(text) + ["---"]);
    return Ok(out);
  }

  /** `prettify_runmqsc` of the SSE server, with the exceptions it raises as `Err`. */
  method PrettifyRunmqsc(responses: seq<seq<string>>) returns (r: Result<string>)
    ensures RunmqscSseLines(responses).Err? ==> r == Err(RunmqscSseLines(responses).error)
    ensures RunmqscSseLines(responses).Ok? ==> r == Ok(Framed(RunmqscSseLines(responses).value))
  {
    var out := "\n---\n";
    FramedEmpty();
    ghost var lines: seq<string> := [];
    for i := 0 to |responses|
      invariant RunmqscSseLines(responses[..i]) == Ok(lines)
      invariant out == Framed(lines)
    {
      var step := AppendResponse(responses[i], out, ["", "---"] + lines);
      RunmqscSnoc(responses, i, lines);
      if step.Err? {
        PrefixErrorPersists(responses, i + 1);
        return step;
      }
      FramedSnoc(lines, ResponseSseLines(responses[i]).value);
      out := step.value;
      lines := lines + ResponseSseLines(responses[i]).value;
    }
    assert responses[..|responses|] == responses;
    return Ok(out);
  }

  /** The formatter over one more response: that response's lines, or its exception. */
  lemma RunmqscSnoc(responses: seq<seq<string>>, i: nat, lines: seq<string>)
    requires i < |responses| && RunmqscSseLines(responses[..i]) == Ok(lines)
    ensures ResponseSseLines(responses[i]).Err? ==>
      RunmqscSseLines(responses[..i + 1]) == Err(ResponseSseLines(responses[i]).error)
    ensures ResponseSseLines(responses[i]).Ok? ==>
      RunmqscSseLines(responses[..i + 1]) == Ok(lines + ResponseSseLines(responses[i]).value)
  {
    assert responses[..i + 1][..i] == responses[..i];
  }

  lemma FramedSnoc(lines: seq<string>, more: seq<string>)
    ensures LinesNl(["", "---"] + lines + more) == Framed(lines + more)
  {
    assert ["", "---"] + lines + more == ["", "---"] + (lines + more);
  }

  lemma FramedEmpty()
    ensures Framed([]) == "\n---\n"
  {
    LinesNlPair("", "---");
    assert ["", "---"] + [] == ["", "---"];
  }

  /** Once a prefix of the responses fails, every longer prefix fails the same way. */
  lemma {:induction false} PrefixErrorPersists(responses: seq<seq<string>>, n: nat)
    requires 0 < n <= |responses|
    requires RunmqscSseLines(responses[..n]).Err?
    ensures RunmqscSseLines(responses) == RunmqscSseLines(responses[..n])
    decreases |responses| - n
  {
    if n < |responses| {
      assert responses[..n + 1][..n] == responses[..n];
      PrefixErrorPersists(responses, n + 1);
    } else {
      assert responses[..n] == responses;
    }
  }

  // ------------------------------------------------------- request and URL

  const BodyHead: string := "{\"type\":\"runCommand\",\"parameters\":{\"command\":\""
  const BodyTail: string := "\"}}"

  /** The POST body, built by concatenation: the command goes in unescaped. */
  function RequestBody(command: string): (body: string)
    ensures |body| == |BodyHead| + |command| + |BodyTail|
  {
    BodyHead + command + BodyTail
  }

  /** Reads the command back out of a body of this server's shape. */
  function ExtractCommand(body: string): Option<string>
  {
    if |BodyHead| + |BodyTail| <= |body| && body[..|BodyHead|] == BodyHead
       && body[|body| - |BodyTail|..] == BodyTail
    then Some(body[|BodyHead|..|body| - |BodyTail|])
    else None
  }

  /** The command is carried verbatim: quotes and backslashes in it are not escaped. */
  lemma ExtractRequestBody(command: string)
    ensures ExtractCommand(RequestBody(command)) == Some(command)
    ensures Contains(RequestBody(command), command)
  {
    var body := RequestBody(command);
    assert body[..|BodyHead|] == BodyHead;
    assert body[|body| - |BodyTail|..] == BodyTail;
    assert body[|BodyHead|..|body| - |BodyTail|] == command;
    ContainsMiddle(BodyHead, command, BodyTail);
  }

  /** Every body the extractor accepts is the body of the command it extracts. */
  lemma RequestBodyOfExtract(body: string)
    requires ExtractCommand(body).Some?
    ensures RequestBody(ExtractCommand(body).value) == body
  {
    var c := ExtractCommand(body).value;
    assert body == body[..|BodyHead|] + c + body[|body| - |BodyTail|..];
  }

  /**
   * `URL_BASE + "action/qmgr/" + qmgr + "/mqsc"`: the base is kept as it is
   * and the queue manager's name reads back from between the fixed parts.
   */
  function SseCommandUrl(urlBase: string, qmgrName: string): (url: string)
    ensures StartsWith(url, urlBase + "action/qmgr/")
    ensures |url| == |urlBase| + 12 + |qmgrName| + 5
    ensures url[|urlBase| + 12..|url| - 5] == qmgrName && url[|url| - 5..] == "/mqsc"
  {
    urlBase + "action/qmgr/" + qmgrName + "/mqsc"
  }

  /**
   * This URL is the newer server's URL with `localhost` kept as the target:
   * no host substitution takes place here.
   */
  lemma SseUrlKeepsBase(urlBase: string, qmgrName: string)
    ensures SseCommandUrl(urlBase, qmgrName) == RunmqscRoute.CommandUrl(urlBase, "localhost", qmgrName)
    ensures StartsWith(SseCommandUrl(urlBase, qmgrName), urlBase)
  {
    ReplaceBySelf(urlBase, "localhost");
  }

  // ----------------------------------------------------------------- tools

  /**
   * `dspmq`: with the base set, the framed reply or the connection error the
   * request raised; without it, `URL_BASE + "qmgr/"` raises before the `try`.
   */
  method Dspmq(urlBase: Option<string>, reply: Result<seq<QmgrStatus>>) returns (out: Result<string>, sent: Option<string>)
    ensures urlBase.None? ==> out == Err(ServerTools.UnsetBaseConcat) && sent == None
    ensures urlBase.Some? ==> sent == Some(ServerTools.DspmqUrl(urlBase.value)) && out.Ok?
    ensures urlBase.Some? && reply.Err? ==> out.value == ServerTools.ConnectionError(reply.error)
    ensures urlBase.Some? && reply.Ok? ==> out.value == Framed(DspmqReplyLines(reply.value))
  {
    if urlBase.None? {
      return Err(ServerTools.UnsetBaseConcat), None;
    }
    sent := Some(ServerTools.DspmqUrl(urlBase.value));
    if reply.Err? {
      return Ok(ServerTools.ConnectionError(reply.error)), sent;
    }
    var text := PrettifyDspmq(reply.value);
    out := Ok(text);
  }

  /**
   * `dspmqver`: with the base set, the framed reply or the connection error
   * the request raised; without it, the same TypeError before the `try`.
   */
  method Dspmqver(urlBase: Option<string>, reply: Result<seq<Installation>>) returns (out: Result<string>, sent: Option<string>)
    ensures urlBase.None? ==> out == Err(ServerTools.UnsetBaseConcat) && sent == None
    ensures urlBase.Some? ==> sent == Some(ServerTools.DspmqverUrl(urlBase.value)) && out.Ok?
    ensures urlBase.Some? && reply.Err? ==> out.value == ServerTools.ConnectionError(reply.error)
    ensures urlBase.Some? && reply.Ok? ==> out.value == Framed(DspmqverReplyLines(reply.value))
  {
    if urlBase.None? {
      return Err(ServerTools.UnsetBaseConcat), None;
    }
    sent := Some(ServerTools.DspmqverUrl(urlBase.value));
    if reply.Err? {
      return Ok(ServerTools.ConnectionError(reply.error)), sent;
    }
    var text := PrettifyDspmqver(reply.value);
    out := Ok(text);
  }

  /**
   * `runmqsc(qmgr_name, mqsc_command)`: always posts (there is no allow-list
   * here); a failed request and an exception while formatting both come back
   * as connection errors. An unset base raises the TypeError of the URL
   * concatenation, before the `try`, and nothing is sent.
   */
  method Runmqsc(urlBase: Option<string>, qmgrName: string, command: string,
                 reply: Result<seq<seq<string>>>) returns (out: Result<string>, sent: Option<(string, string)>)
    ensures urlBase.None? ==> out == Err(ServerTools.UnsetBaseConcat) && sent == None
    ensures urlBase.Some? ==> sent == Some((SseCommandUrl(urlBase.value, qmgrName), RequestBody(command))) && out.Ok?
    ensures urlBase.Some? && reply.Err? ==> out.value == ServerTools.ConnectionError(reply.error)
    ensures urlBase.Some? && reply.Ok? && RunmqscSseLines(reply.value).Err? ==>
      out.value == ServerTools.ConnectionError(RunmqscSseLines(reply.value).error)
    ensures urlBase.Some? && reply.Ok? && RunmqscSseLines(reply.value).Ok? ==>
      out.value == Framed(RunmqscSseLines(reply.value).value)
  {
    var data := "{\"type\":\"runCommand\",\"parameters\":{\"command\":\"" + command + "\"}}";
    if urlBase.None? {
      return Err(ServerTools.UnsetBaseConcat), None;
    }
    var url := urlBase.value + "action/qmgr/" + qmgrName + "/mqsc";
    sent := Some((url, data));
    if reply.Err? {
      return Ok(ServerTools.ConnectionError(reply.error)), sent;
    }
    var r := PrettifyRunmqsc(reply.value);
    out := Ok(if r.Ok? then r.value else ServerTools.ConnectionError(r.error));
  }
}
