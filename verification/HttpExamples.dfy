/**
 Concrete scripts, over a URL library that knows one URL: one that does not survive the writer,
 because its request repeats a header and the writer puts the values on one line, though it is
 well-formed but for that; and one that ends inside a response handler.
 */
module HttpExamples {
  import opened Options
  import opened HttpText
  import opened HttpParser
  import opened HttpWriter
  import opened HttpConcat
  import opened HttpRoundTrip

  const URL := Url("http", "h", "")
  const TEXT := "http://h"

  function OneUrl(text: string): Option<Url> {
    if text == TEXT then Some(URL) else None
  }

  function Lib(): Library {
    Library(OneUrl, (u: Url) => TEXT, (host: string) => "", (verb: string, text: string) => OneUrl(text))
  }

  const REPEATED := Request("", "GET", URL, "h", "HTTP/1.1", 1, 1, map["X" := ["a", "b"]], "")
  const JOINED := REPEATED.(headers := map["X" := ["a; b"]])

  const LINES := ["GET http://h HTTP/1.1", "X: a", "X: b"]

  lemma {:induction false} NoBraceIsPlain(text: string)
    requires Lacks(text, '{')
    ensures Plain(text)
  {
    forall i | 0 <= i <= |text| ensures ReferenceAt(text[i..]).None? {
      assert i < |text| ==> text[i..][0] == text[i];
    }
  }

  lemma XIsHeader(value: string)
    requires Trimmed(value) && Lacks(value, '\n') && Lacks(value, '{') && Lacks(value, '#') && value != ""
    ensures HeaderOk("X", [value])
  {
    NoBraceIsPlain(value);
    assert CanonicalKey("X") == "X" by { assert "X"[1..] == ""; }
    var line := "X: " + value;
    assert "X" + ": " + value == line;
    assert Lacks(line, '#');
  }

  lemma UrlIsOk()
    ensures UrlOk(Lib(), "GET", URL)
  {
    NoBraceIsPlain(TEXT);
    ContainsAt("http", "://", "h");
    assert TEXT == "http" + "://" + "h";
  }

  lemma {:induction false} ContainsAt(before: string, part: string, after: string)
    ensures Contains(before + part + after, part)
  {
    var s := before + part + after;
    if before == "" {
      assert s[..|part|] == part;
    } else {
      ContainsAt(before[1..], part, after);
      assert s[1..] == before[1..] + part + after;
    }
  }

  lemma JoinedIsWellFormed()
    ensures Collapsed(REPEATED) == JOINED && WellFormed(Lib(), JOINED)
  {
    hide HeaderOk, UrlOk;
    UrlIsOk();
    XIsHeader("a; b");
    assert Join(["a", "b"], "; ") == "a; b" by { assert ["a", "b"][1..] == ["b"]; }
    assert Collapsed(REPEATED).headers == map["X" := ["a; b"]];
  }

  /** The machine after the request line and some values of `X`. */
  function After(lineNo: nat, values: seq<string>): Parser {
    NEW_PARSER.(lineNo := lineNo, requestLineNo := 1, position := AtHeaders, verb := "GET", target := TEXT,
                protoVersion := "HTTP/1.1", headers := if values == [] then map[] else map["X" := values])
  }

  lemma RequestRead()
    ensures OnLine(Lib(), NEW_PARSER, LINES[0]) == Ok(After(1, []))
  {
    hide OnLine;
    NoBraceIsPlain(TEXT);
    assert "GET" + " " + TEXT + " " + "HTTP/1.1" == LINES[0];
    RequestLineRead(Lib(), NEW_PARSER, "GET", TEXT, "HTTP/1.1");
  }

  lemma ValueRead(lineNo: nat, values: seq<string>, value: string)
    requires value in {"a", "b"}
    ensures OnLine(Lib(), After(lineNo, values), "X" + ": " + value) == Ok(After(lineNo + 1, values + [value]))
  {
    hide OnLine;
    XIsHeader(value);
    HeaderLineRead(Lib(), After(lineNo, values), "X", value);
    assert [] + [value] == [value];
  }

  lemma RepeatedIsRead()
    ensures Read(Lib(), NEW_PARSER, LINES) == Ok(After(3, ["a", "b"]))
  {
    hide OnLine, After;
    RequestRead();
    ValueRead(1, [], "a");
    ValueRead(2, ["a"], "b");
    assert "X" + ": " + "a" == LINES[1] && "X" + ": " + "b" == LINES[2];
    assert [] + ["a"] == ["a"] && ["a"] + ["b"] == ["a", "b"];
    ReadThree(NEW_PARSER, After(1, []), After(2, ["a"]), After(3, ["a", "b"]));
  }

  lemma ReadThree(p0: Parser, p1: Parser, p2: Parser, p3: Parser)
    requires OnLine(Lib(), p0, LINES[0]) == Ok(p1) && OnLine(Lib(), p1, LINES[1]) == Ok(p2) && OnLine(Lib(), p2, LINES[2]) == Ok(p3)
    ensures Read(Lib(), p0, LINES) == Ok(p3)
  {
    hide OnLine;
    ReadOne(Lib(), p2, LINES[2]);
    assert LINES[1..][1..] == [LINES[2]] && LINES[1..][0] == LINES[1];
    assert Read(Lib(), p1, LINES[1..]) == Ok(p3);
  }

  /** The script parses, to a request that repeats a header. */
  lemma RepeatedParses()
    ensures Parse(Lib(), Terminate(LINES)) == Requests([REPEATED])
  {
    hide Read, FinishRequest, UrlOk, OnLine, Lines, Terminate;
    LinesReadBack(LINES);
    RepeatedIsRead();
    UrlIsOk();
    EntryFinishes(Lib(), After(3, ["a", "b"]), REPEATED);
  }

  /** Printing what was parsed and parsing that gives another request: the two values are one. */
  lemma RepeatedHeaderIsLost()
    ensures Parse(Lib(), Terminate(LINES)) == Requests([REPEATED])
    ensures OrdersAll([REPEATED], [["X"]])
    ensures Parse(Lib(), Script(Lib(), [REPEATED], [["X"]])) == Requests([JOINED])
    ensures JOINED != REPEATED
  {
    RepeatedParses();
    JoinedIsWellFormed();
    hide WellFormed, Parse, Script, Collapsed;
    assert CollapsedAll([REPEATED]) == [JOINED];
    SurvivesIffSingleValued(Lib(), [REPEATED], [["X"]]);
    assert REPEATED.headers["X"] != JOINED.headers["X"];
  }

  // ----- a script that ends inside a handler -----

  const OPEN := ["GET http://h HTTP/1.1", "", "> {%"]

  lemma HandlerOpens(p: Parser)
    requires !p.inHandler && p.position == AtBody
    ensures OnLine(Lib(), p, "> {%") == Ok(p.(lineNo := p.lineNo + 1, inHandler := true))
  {
    hide OnSeparator, OnContent, StripFrom, OnBlankLine, Expand;
    TrimmedStays("> {%");
    assert "> {%"[1..] == " {%";
    assert TrimLeftOf(" {%", {'>', '!'}) == " {%";
    ContainsAt("> ", "{%", "");
    assert "> " + "{%" + "" == "> {%";
    assert !Contains("> {%", "%}") by {
      assert " {%"[1..] == "{%" && "{%"[1..] == "%" && "%"[1..] == "";
      assert !Contains("", "%}") && !Contains("%", "%}") && !Contains("{%", "%}") && !Contains(" {%", "%}");
    }
  }

  /** Read to its end, this script is still inside the handler it opened. */
  lemma OpenEndsInHandler()
    ensures Read(Lib(), NEW_PARSER, OPEN).Ok? && !EndsOutsideHandler(Lib(), OPEN)
  {
    hide OnLine;
    RequestRead();
    BlankLineRead(Lib(), After(1, []));
    var p := After(1, []).(lineNo := 2, position := AtBody);
    HandlerOpens(p);
    assert OPEN[1..][1..] == ["> {%"] && OPEN[1..][0] == "";
    ReadOne(Lib(), p, "> {%");
    assert Read(Lib(), After(1, []), OPEN[1..]).Ok?;
  }

  /** Joined to it, the script with the repeated header is lost. */
  lemma OpenLosesTheRest()
    ensures ParseLines(Lib(), LINES) == Requests([REPEATED])
    ensures ParseLines(Lib(), OPEN + [REQUEST_SEPARATOR] + LINES) == ParseLines(Lib(), OPEN)
  {
    hide ParseLines, Read, EndsOutsideHandler, Parse;
    RepeatedParses();
    LinesAreParsed();
    OpenEndsInHandler();
    LinesDoNotClose();
    OpenHandlerContinues(Lib(), OPEN, LINES, 3);
  }

  lemma LinesAreParsed()
    ensures Parse(Lib(), Terminate(LINES)) == ParseLines(Lib(), LINES)
  {
    hide Lines, Terminate, ParseLines;
    LinesReadBack(LINES);
  }

  lemma {:induction false} NoPercentDoesNotClose(line: string)
    requires Lacks(line, '%')
    ensures !Contains(line, HANDLER_BLOCK_END)
  {
    assert HANDLER_BLOCK_END[0] == '%';
    if line != "" {
      NoPercentDoesNotClose(line[1..]);
    }
  }

  lemma LinesDoNotClose()
    ensures forall i :: 0 <= i < 3 ==> !Closes(LINES[i])
  {
    hide Contains;
    forall i | 0 <= i < 3 ensures !Closes(LINES[i]) {
      NoPercentDoesNotClose(LINES[i]);
      assert DropCR(LINES[i]) == LINES[i];
    }
  }
}
