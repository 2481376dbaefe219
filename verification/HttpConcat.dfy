/** What one script in front of another changes: nothing but its own requests. */
module HttpConcat {
  import opened Options
  import opened HttpText
  import opened HttpParser

  lemma {:induction false} ReadAppend(lib: Library, p: Parser, a: seq<string>, b: seq<string>)
    ensures Read(lib, p, a + b) == match Read(lib, p, a) { case Fail(n, k) => Fail(n, k) case Ok(q) => Read(lib, q, b) }
    decreases |a|
  {
    if a == [] {
      assert a + b == b;
    } else {
      assert (a + b)[0] == a[0] && (a + b)[1..] == a[1..] + b;
      match OnLine(lib, p, a[0]) {
        case Fail(_, _) =>
        case Ok(q) => ReadAppend(lib, q, a[1..], b);
      }
    }
  }

  /** `q` is `p` as it is when other requests and other variables came first. */
  predicate Behind(p: Parser, q: Parser, earlier: seq<Request>, extra: map<string, string>) {
    && q.requests == earlier + p.requests && q.variables == extra + p.variables
    && q.position == p.position && q.inHandler == p.inHandler && q.name == p.name && q.verb == p.verb
    && q.target == p.target && q.protoVersion == p.protoVersion && q.headers == p.headers
    && q.hostHeader == p.hostHeader && q.body == p.body
  }

  /** What succeeds alone succeeds behind, with the same effect. */
  predicate Follows(a: Outcome, b: Outcome, earlier: seq<Request>, extra: map<string, string>) {
    a.Ok? ==> b.Ok? && Behind(a.parser, b.parser, earlier, extra)
  }

  /** A text that expands with some variables expands the same when more are known. */
  lemma {:induction false} ExpandBehind(variables: map<string, string>, extra: map<string, string>, text: string)
    ensures Expand(variables, text).Expanded? ==> Expand(extra + variables, text) == Expand(variables, text)
    decreases |text|
  {
    if text != "" {
      match ReferenceAt(text) {
        case None => ExpandBehind(variables, extra, text[1..]);
        case Some(n) => ExpandBehind(variables, extra, text[n..]);
      }
    }
  }

  lemma FinishBehind(lib: Library, p: Parser, q: Parser, earlier: seq<Request>, extra: map<string, string>)
    requires Behind(p, q, earlier, extra)
    ensures Follows(FinishRequest(lib, p), FinishRequest(lib, q), earlier, extra)
  {
    hide TargetUrl, ParseHttpVersion, TrimBlankLines, Join;
    if FinishRequest(lib, p).Ok? && p.target != "" {
      var r := FinishRequest(lib, p).parser.requests[|p.requests|];
      assert (earlier + p.requests) + [r] == earlier + (p.requests + [r]);
    }
  }

  lemma SeparatorBehind(lib: Library, p: Parser, q: Parser, line: string, earlier: seq<Request>, extra: map<string, string>)
    requires Behind(p, q, earlier, extra)
    ensures Follows(OnSeparator(lib, p, line), OnSeparator(lib, q, line), earlier, extra)
  {
    hide FinishRequest;
    FinishBehind(lib, p, q, earlier, extra);
  }

  lemma VariableBehind(p: Parser, q: Parser, line: string, earlier: seq<Request>, extra: map<string, string>)
    requires Behind(p, q, earlier, extra)
    ensures Follows(OnVariable(p, line), OnVariable(q, line), earlier, extra)
  {
    ExpandBehind(p.variables, extra, TrimSpace(Cut(TrimPrefix(line, "@"), '=').after));
  }

  lemma RequestLineBehind(p: Parser, q: Parser, line: string, earlier: seq<Request>, extra: map<string, string>)
    requires Behind(p, q, earlier, extra) && Fields(line) != []
    ensures Follows(OnRequestLine(p, line), OnRequestLine(q, line), earlier, extra)
  {
    var fields := Fields(line);
    ExpandBehind(p.variables, extra, if |fields| == 1 then fields[0] else fields[1]);
  }

  lemma HeaderLineBehind(p: Parser, q: Parser, line: string, earlier: seq<Request>, extra: map<string, string>)
    requires Behind(p, q, earlier, extra)
    ensures Follows(OnHeaderLine(p, line), OnHeaderLine(q, line), earlier, extra)
  {
    ExpandBehind(p.variables, extra, TrimSpace(Cut(line, ':').after));
  }

  lemma BodyLineBehind(lib: Library, p: Parser, q: Parser, line: string, earlier: seq<Request>, extra: map<string, string>)
    requires Behind(p, q, earlier, extra)
    ensures Follows(OnBodyLine(lib, p, line), OnBodyLine(lib, q, line), earlier, extra)
  {
    hide OnSeparator;
    SeparatorBehind(lib, p, q, TrimSpace(line), earlier, extra);
    ExpandBehind(p.variables, extra, line);
  }

  lemma ContentBehind(lib: Library, p: Parser, q: Parser, content: string, earlier: seq<Request>, extra: map<string, string>)
    requires Behind(p, q, earlier, extra) && content != "" && !IsSpace(content[|content| - 1])
    ensures Follows(OnContent(lib, p, content), OnContent(lib, q, content), earlier, extra)
  {
    hide OnVariable, OnRequestLine, OnHeaderLine, FinishRequest;
    WordsExist(content);
    VariableBehind(p, q, content, earlier, extra);
    RequestLineBehind(p, q, content, earlier, extra);
    HeaderLineBehind(p, q, content, earlier, extra);
    FinishBehind(lib, p, q, earlier, extra);
    match FinishRequest(lib, p) {
      case Fail(_, _) =>
      case Ok(p1) => RequestLineBehind(p1, FinishRequest(lib, q).parser, content, earlier, extra);
    }
  }

  lemma LineBehind(lib: Library, p: Parser, q: Parser, raw: string, earlier: seq<Request>, extra: map<string, string>)
    requires Behind(p, q, earlier, extra)
    ensures Follows(OnLine(lib, p, raw), OnLine(lib, q, raw), earlier, extra)
  {
    hide OnSeparator, OnBodyLine, OnContent, FinishRequest, StripFrom;
    var p1, q1 := p.(lineNo := p.lineNo + 1), q.(lineNo := q.lineNo + 1);
    var line := DropCR(raw);
    var trimmed := TrimSpace(line);
    BodyLineBehind(lib, p1, q1, line, earlier, extra);
    SeparatorBehind(lib, p1, q1, trimmed, earlier, extra);
    FinishBehind(lib, p1, q1, earlier, extra);
    var content := StripTrailingComment(trimmed);
    TrimIsTrimmed(line);
    StripIsTrimmed(trimmed, 1);
    if content != "" {
      ContentBehind(lib, p1, q1, content, earlier, extra);
    }
  }

  lemma {:induction false} ReadBehind(lib: Library, p: Parser, q: Parser, lines: seq<string>, earlier: seq<Request>, extra: map<string, string>)
    requires Behind(p, q, earlier, extra)
    ensures Follows(Read(lib, p, lines), Read(lib, q, lines), earlier, extra)
    decreases |lines|
  {
    if lines != [] {
      hide OnLine;
      LineBehind(lib, p, q, lines[0], earlier, extra);
      match OnLine(lib, p, lines[0]) {
        case Fail(_, _) =>
        case Ok(p1) => ReadBehind(lib, p1, OnLine(lib, q, lines[0]).parser, lines[1..], earlier, extra);
      }
    }
  }

  /** Finishing leaves nothing of the block but its request. */
  lemma FinishResets(lib: Library, p: Parser)
    requires FinishRequest(lib, p).Ok? && !p.inHandler
    ensures var q := FinishRequest(lib, p).parser; Behind(NEW_PARSER, q, q.requests, p.variables)
  {
    hide TargetUrl, ParseHttpVersion, TrimBlankLines, Join;
  }

  lemma FinishIgnoresLineNo(lib: Library, p: Parser, n: nat)
    ensures match FinishRequest(lib, p)
      case Fail(m, kind) => FinishRequest(lib, p.(lineNo := n)) == Fail(m, kind)
      case Ok(q) => FinishRequest(lib, p.(lineNo := n)) == Ok(q.(lineNo := n))
  {
    hide TargetUrl, ParseHttpVersion, TrimBlankLines, Join;
  }

  lemma SeparatorIsUntitled()
    ensures DropCR(REQUEST_SEPARATOR) == REQUEST_SEPARATOR && TrimSpace(REQUEST_SEPARATOR) == REQUEST_SEPARATOR
    ensures TrimSpace(TrimLeftOf(REQUEST_SEPARATOR, {'#'})) == ""
  {
    TrimmedStays(REQUEST_SEPARATOR);
    assert "###"[1..] == "##" && "##"[1..] == "#" && "#"[1..] == "";
    assert TrimLeftOf("#", {'#'}) == "" && TrimLeftOf("##", {'#'}) == "";
  }

  /** A bare separator finishes what came before and starts afresh. */
  lemma SeparatorFinishes(lib: Library, p: Parser)
    requires !p.inHandler
    ensures match FinishRequest(lib, p)
      case Fail(n, kind) => OnLine(lib, p, REQUEST_SEPARATOR) == Fail(n, kind)
      case Ok(q) =>
        var after := OnLine(lib, p, REQUEST_SEPARATOR);
        after.Ok? && Behind(NEW_PARSER, after.parser, q.requests, p.variables)
  {
    hide FinishRequest, OnContent, StripFrom, DropCR, TrimSpace, TrimLeftOf, OnBlankLine;
    SeparatorIsUntitled();
    FinishIgnoresLineNo(lib, p, p.lineNo + 1);
    if FinishRequest(lib, p).Ok? {
      FinishResets(lib, p);
    }
  }

  /** The state a script ends in, when it is read to its end. */
  predicate EndsOutsideHandler(lib: Library, lines: seq<string>) {
    var outcome := Read(lib, NEW_PARSER, lines);
    outcome.Ok? && !outcome.parser.inHandler
  }

  /** Two scripts that parse, the first not ending inside a response handler, joined by a bare
      separator parse to the requests of the first followed by those of the second. The first
      may declare any variables: the second already resolves its own. */
  lemma Concatenation(lib: Library, a: seq<string>, b: seq<string>)
    requires EndsOutsideHandler(lib, a)
    requires ParseLines(lib, a).Requests? && ParseLines(lib, b).Requests?
    ensures ParseLines(lib, a + [REQUEST_SEPARATOR] + b)
         == Requests(ParseLines(lib, a).requests + ParseLines(lib, b).requests)
  {
    hide OnLine;
    var p := Read(lib, NEW_PARSER, a).parser;
    var requests := ParseLines(lib, a).requests;
    SeparatorFinishes(lib, p);
    var q := OnLine(lib, p, REQUEST_SEPARATOR).parser;
    ReadBehind(lib, NEW_PARSER, q, b, requests, p.variables);
    var rest := [REQUEST_SEPARATOR] + b;
    assert a + [REQUEST_SEPARATOR] + b == a + rest;
    assert rest[0] == REQUEST_SEPARATOR && rest[1..] == b;
    ReadAppend(lib, NEW_PARSER, a, rest);
    FinishBehind(lib, Read(lib, NEW_PARSER, b).parser, Read(lib, q, b).parser, requests, p.variables);
  }

  /** An error in the first script is the error of the whole. */
  lemma FirstErrorWins(lib: Library, a: seq<string>, b: seq<string>)
    requires ParseLines(lib, a).Error? && (Read(lib, NEW_PARSER, a).Ok? ==> EndsOutsideHandler(lib, a))
    ensures ParseLines(lib, a + [REQUEST_SEPARATOR] + b) == ParseLines(lib, a)
  {
    hide OnLine;
    var rest := [REQUEST_SEPARATOR] + b;
    assert a + [REQUEST_SEPARATOR] + b == a + rest;
    assert rest[0] == REQUEST_SEPARATOR && rest[1..] == b;
    ReadAppend(lib, NEW_PARSER, a, rest);
    if Read(lib, NEW_PARSER, a).Ok? {
      SeparatorFinishes(lib, Read(lib, NEW_PARSER, a).parser);
    }
  }

  predicate Closes(line: string) {
    Contains(DropCR(line), HANDLER_BLOCK_END)
  }

  /** The excluded case: a script that ends inside a handler swallows everything up to the next
      closing marker, the separator included. */
  lemma {:induction false} HandlerSwallows(lib: Library, p: Parser, lines: seq<string>)
    requires p.inHandler && forall i :: 0 <= i < |lines| ==> !Closes(lines[i])
    ensures Read(lib, p, lines) == Ok(p.(lineNo := p.lineNo + |lines|))
    decreases |lines|
  {
    if lines != [] {
      hide OnLine, Closes;
      HandlerLine(lib, p, lines[0]);
      HandlerSwallows(lib, p.(lineNo := p.lineNo + 1), lines[1..]);
    }
  }

  lemma HandlerLine(lib: Library, p: Parser, line: string)
    requires p.inHandler
    ensures OnLine(lib, p, line) == Ok(p.(lineNo := p.lineNo + 1, inHandler := !Closes(line)))
  {
    hide OnBodyLine, OnContent, OnSeparator, Contains;
  }

  /** Up to its closing marker the handler swallows everything; after that line reading goes on
      where the request was. */
  lemma {:induction false} HandlerResumes(lib: Library, p: Parser, lines: seq<string>, j: nat)
    requires p.inHandler && j < |lines| && Closes(lines[j]) && forall i :: 0 <= i < j ==> !Closes(lines[i])
    ensures Read(lib, p, lines) == Read(lib, p.(inHandler := false, lineNo := p.lineNo + j + 1), lines[j + 1..])
    decreases j
  {
    hide OnLine, Closes;
    HandlerLine(lib, p, lines[0]);
    if j > 0 {
      HandlerResumes(lib, p.(lineNo := p.lineNo + 1), lines[1..], j - 1);
      assert lines[1..][j..] == lines[j + 1..];
    }
  }

  /** What a script that ends inside a handler makes of one joined to it, in both cases: with no
      closing marker in the second, the second is lost; otherwise the first goes on, in the middle
      of its last request, with the line after the second's first closing marker. */
  lemma OpenHandlerContinues(lib: Library, a: seq<string>, b: seq<string>, j: nat)
    requires Read(lib, NEW_PARSER, a).Ok? && !EndsOutsideHandler(lib, a)
    requires j <= |b| && (forall i :: 0 <= i < j ==> !Closes(b[i])) && (j < |b| ==> Closes(b[j]))
    ensures var p := Read(lib, NEW_PARSER, a).parser;
      ParseLines(lib, a + [REQUEST_SEPARATOR] + b) ==
        if j == |b| then ParseLines(lib, a)
        else Finish(lib, Read(lib, p.(inHandler := false, lineNo := p.lineNo + j + 2), b[j + 1..]))
  {
    hide OnLine, FinishRequest, Closes;
    var rest := [REQUEST_SEPARATOR] + b;
    assert a + [REQUEST_SEPARATOR] + b == a + rest;
    ReadAppend(lib, NEW_PARSER, a, rest);
    var p := Read(lib, NEW_PARSER, a).parser;
    SeparatorIsNotMarker();
    assert forall i :: 0 < i < |rest| ==> rest[i] == b[i - 1];
    if j == |b| {
      FinishIgnoresLineNo(lib, p, p.lineNo + |rest|);
      HandlerSwallows(lib, p, rest);
    } else {
      HandlerResumes(lib, p, rest, j + 1);
      assert rest[j + 2..] == b[j + 1..];
    }
  }

  /** The first of those cases. */
  lemma UnclosedHandlerLosesTheRest(lib: Library, a: seq<string>, b: seq<string>)
    requires Read(lib, NEW_PARSER, a).Ok? && !EndsOutsideHandler(lib, a)
    requires forall i :: 0 <= i < |b| ==> !Closes(b[i])
    ensures ParseLines(lib, a + [REQUEST_SEPARATOR] + b) == ParseLines(lib, a)
  {
    OpenHandlerContinues(lib, a, b, |b|);
  }

  lemma SeparatorIsNotMarker()
    ensures !Closes(REQUEST_SEPARATOR)
  {
    assert DropCR(REQUEST_SEPARATOR) == "###";
    assert "###"[1..] == "##" && "##"[1..] == "#" && "#"[1..] == "";
    assert !Contains("", "%}") && !Contains("#", "%}") && !Contains("##", "%}");
  }

  lemma SeparatorLine()
    ensures Lines("###\n") == [REQUEST_SEPARATOR]
  {
    assert "###\n" == "###" + ['\n'] + "";
    CutAt("###", '\n', "");
    assert Lines("") == [];
  }

  /** The same over text: the first script ends its last line, and the separator is a line. */
  lemma ScriptsConcatenate(lib: Library, a: string, b: string)
    requires a == "" || a[|a| - 1] == '\n'
    requires EndsOutsideHandler(lib, Lines(a))
    requires Parse(lib, a).Requests? && Parse(lib, b).Requests?
    ensures Parse(lib, a + "###\n" + b) == Requests(Parse(lib, a).requests + Parse(lib, b).requests)
  {
    hide Lines, ParseLines, EndsOutsideHandler;
    assert a + "###\n" + b == a + ("###\n" + b);
    LinesConcatenate(a, "###\n" + b);
    LinesConcatenate("###\n", b);
    SeparatorLine();
    assert Lines(a) + ([REQUEST_SEPARATOR] + Lines(b)) == Lines(a) + [REQUEST_SEPARATOR] + Lines(b);
    Concatenation(lib, Lines(a), Lines(b));
  }
}
