/**
 The reader as the object it is: fields updated line by line. Every method leaves the state, or
 reports the error, that its step of `HttpParser` does.
 */
module HttpReader {
  import opened Options
  import opened HttpText
  import opened HttpParser

  datatype ParseError = ParseError(line: nat, kind: ErrorKind)

  // ----- header names keep their form -----

  lemma {:induction false} CanonicalIsStable(s: string, upper: bool)
    ensures CanonicalFrom(CanonicalFrom(s, upper), upper) == CanonicalFrom(s, upper)
    ensures IsToken(s) ==> IsToken(CanonicalFrom(s, upper))
  {
    if s != "" {
      var t := CanonicalFrom(s, upper);
      CanonicalIsStable(s[1..], t[0] == '-');
      assert t[1..] == CanonicalFrom(s[1..], t[0] == '-');
      if IsToken(s) {
        assert IsToken(s[1..]);
        assert forall i :: 0 < i < |t| ==> t[i] == t[1..][i - 1];
      }
    }
  }

  lemma CanonicalKeyIsStable(name: string)
    ensures CanonicalKey(CanonicalKey(name)) == CanonicalKey(name)
  {
    CanonicalIsStable(name, true);
  }

  // ----- the loops -----

  method MethodToken(field: string) returns (ok: bool)
    ensures ok <==> IsMethodToken(field)
  {
    if field == "" {
      return false;
    }
    for i := 0 to |field|
      invariant forall j :: 0 <= j < i ==>
        'A' <= field[j] <= 'Z' || 'a' <= field[j] <= 'z' || field[j] == '-' || field[j] == '_'
    {
      var r := field[i];
      if !('A' <= r <= 'Z' || 'a' <= r <= 'z' || r == '-' || r == '_') {
        return false;
      }
    }
    return true;
  }

  method WithoutTrailingComment(line: string) returns (content: string)
    ensures content == StripTrailingComment(line)
  {
    var i := 1;
    while i < |line|
      invariant 1 <= i
      invariant StripTrailingComment(line) == StripFrom(line, i)
    {
      if line[i] == '#' && (line[i - 1] == ' ' || line[i - 1] == '\t') {
        return TrimSpace(line[..i]);
      }
      i := i + 1;
    }
    return line;
  }

  method WithoutBlankEnds(lines: seq<string>) returns (body: seq<string>)
    ensures body == TrimBlankLines(lines)
  {
    var first, last := 0, |lines|;
    assert lines[0..] == lines;
    while first < last && TrimSpace(lines[first]) == ""
      invariant 0 <= first <= last == |lines|
      invariant TrimBlankLines(lines) == TrimBlankLines(lines[first..])
    {
      assert lines[first..][1..] == lines[first + 1..];
      first := first + 1;
    }
    assert lines[first..] == lines[first..last];
    while last > first && TrimSpace(lines[last - 1]) == ""
      invariant first <= last <= |lines|
      invariant first < last ==> TrimSpace(lines[first]) != ""
      invariant TrimBlankLines(lines) == TrimBlankLines(lines[first..last])
    {
      assert lines[first..last][..last - 1 - first] == lines[first..last - 1];
      last := last - 1;
    }
    return lines[first..last];
  }

  /** Adds the values of one name, in order. */
  method CopyValues(before: Headers, name: string, values: seq<string>) returns (copy: Headers)
    requires CanonicalKey(name) == name && name !in before && values != []
    ensures copy == before[name := values]
  {
    hide CanonicalKey;
    copy := AddHeader(before, name, values[0]);
    assert [] + [values[0]] == values[..1];
    for i := 1 to |values|
      invariant copy == before[name := values[..i]]
    {
      assert values[..i + 1] == values[..i] + [values[i]];
      copy := AddHeader(copy, name, values[i]);
    }
    assert values[..|values|] == values;
  }

  function Without(headers: Headers, names: set<string>): Headers {
    map n | n in headers && n !in names :: headers[n]
  }

  lemma WithoutLess(headers: Headers, names: set<string>, name: string)
    requires name in headers
    ensures Without(headers, names - {name}) == Without(headers, names)[name := headers[name]]
  {
  }

  lemma WithoutNone(headers: Headers)
    ensures Without(headers, {}) == headers && Without(headers, headers.Keys) == map[]
  {
  }

  /** Adds every value under every name, in whatever order the names come. */
  method CopyHeaders(headers: Headers) returns (copy: Headers)
    requires forall n :: n in headers ==> CanonicalKey(n) == n && headers[n] != []
    ensures copy == headers
  {
    hide CanonicalKey;
    WithoutNone(headers);
    copy := map[];
    var names := headers.Keys;
    while names != {}
      invariant names <= headers.Keys
      invariant copy == Without(headers, names)
      decreases |names|
    {
      var name :| name in names;
      WithoutLess(headers, names, name);
      copy := CopyValues(copy, name, headers[name]);
      names := names - {name};
    }
  }

  // ----- the reader -----

  class RequestParser {
    const lib: Library

    var requests: seq<Request>
    var variables: map<string, string>
    var lineNo: nat
    var position: Position
    var inHandler: bool
    var requestLineNo: nat
    var name: string
    var verb: string
    var target: string
    var protoVersion: string
    var headers: Headers
    var hostHeader: string
    var body: seq<string>

    ghost function State(): Parser
      reads this
    {
      Parser(requests, variables, lineNo, position, inHandler, requestLineNo, name, verb, target,
             protoVersion, headers, hostHeader, body)
    }

    ghost predicate Valid()
      reads this
    {
      forall n :: n in headers ==> CanonicalKey(n) == n && headers[n] != []
    }

    /** The method did what the step does: the same new state, or the same error. */
    ghost predicate Did(outcome: Outcome, error: Option<ParseError>)
      reads this
    {
      match outcome
      case Ok(p) => error.None? && State() == p && Valid()
      case Fail(line, kind) => error == Some(ParseError(line, kind))
    }

    constructor (lib: Library)
      ensures this.lib == lib && State() == NEW_PARSER && Valid()
    {
      this.lib := lib;
      requests, variables, lineNo, position, inHandler := [], map[], 0, AtRequestLine, false;
      requestLineNo, name, verb, target, protoVersion := 0, "", "", "", "";
      headers, hostHeader, body := map[], "", [];
    }

    method ResetRequestLine()
      modifies `position, `requestLineNo, `verb, `target, `protoVersion
      ensures State() == old(State()).(position := AtRequestLine, requestLineNo := 0, verb := "", target := "", protoVersion := "")
    {
      position, requestLineNo, verb, target, protoVersion := AtRequestLine, 0, "", "", "";
    }

    method ResetRequest()
      modifies this
      ensures State() == Reset(old(State())) && Valid()
    {
      ResetRequestLine();
      name, hostHeader, headers, body := "", "", map[], [];
    }

    method ResolveTarget() returns (url: Option<Url>, error: Option<ParseError>)
      ensures match TargetUrl(lib, target, hostHeader)
        case Resolved(u) => url == Some(u) && error.None?
        case Unresolvable(kind) => url.None? && error == Some(ParseError(requestLineNo, kind))
    {
      var raw := target;
      if !Contains(raw, "://") && !HasPrefix(raw, "/") {
        raw := "//" + raw;
      }
      var parsed := lib.parse(raw);
      if parsed.None? {
        return None, Some(ParseError(requestLineNo, MalformedRequestLine));
      }
      var u := parsed.value;
      if u.host == "" {
        if hostHeader == "" {
          return None, Some(ParseError(requestLineNo, NoTargetHost));
        }
        u := u.(host := hostHeader);
      }
      if u.scheme == "" {
        u := u.(scheme := "https");
        if lib.port(u.host) == "80" {
          u := u.(scheme := "http");
        }
      }
      return Some(u), None;
    }

    method OnFinishRequest() returns (error: Option<ParseError>)
      requires Valid()
      modifies this
      ensures Did(FinishRequest(lib, old(State())), error)
    {
      if target == "" {
        ResetRequest();
        return None;
      }
      var targetUrl, failure := ResolveTarget();
      if failure.Some? {
        ResetRequest();
        return failure;
      }
      var effective := verb;
      if effective == "" {
        effective := METHOD_GET;
      }
      var trimmed := WithoutBlankEnds(body);
      var content := Join(trimmed, "\n");
      var sent := lib.newRequest(effective, lib.render(targetUrl.value));
      if sent.None? {
        error := Some(ParseError(requestLineNo, MalformedRequestLine));
        ResetRequest();
        return;
      }
      var proto, version := DEFAULT_PROTO_VERSION, (1, 1);
      if protoVersion != "" {
        var parsed := ParseHttpVersion(protoVersion);
        if parsed.None? {
          error := Some(ParseError(requestLineNo, MalformedRequestLine));
          ResetRequest();
          return;
        }
        proto, version := protoVersion, parsed.value;
      }
      var copied := CopyHeaders(headers);
      var host := sent.value.host;
      if hostHeader != "" && hostHeader != targetUrl.value.host {
        host := hostHeader;
      }
      requests := requests + [Request(name, effective, sent.value, host, proto, version.0, version.1, copied, content)];
      ResetRequest();
      return None;
    }

    method OnSeparatorLine(line: string) returns (error: Option<ParseError>)
      requires Valid()
      modifies this
      ensures Did(OnSeparator(lib, old(State()), line), error)
    {
      error := OnFinishRequest();
      if error.Some? {
        return;
      }
      name := TrimSpace(TrimLeftOf(line, {'#'}));
    }

    method OnCommentText(text: string)
      requires Valid()
      modifies this`name
      ensures State() == OnComment(old(State()), text)
    {
      var cut := Cut(text, ' ');
      if cut.before != "@name" {
        return;
      }
      name := TrimSpace(TrimPrefix(TrimSpace(cut.after), "="));
    }

    method OnVariableLine(line: string) returns (error: Option<ParseError>)
      requires Valid()
      modifies this`variables
      ensures Did(OnVariable(old(State()), line), error)
    {
      if position != AtRequestLine {
        return Some(ParseError(lineNo, MalformedHeader));
      }
      var cut := Cut(TrimPrefix(line, "@"), '=');
      var key := TrimSpace(cut.before);
      if !cut.found || key == "" {
        return Some(ParseError(lineNo, MalformedRequestLine));
      }
      var expanded := Expand(variables, TrimSpace(cut.after));
      if expanded.Unresolved? {
        return Some(ParseError(lineNo, expanded.kind));
      }
      variables := variables[key := expanded.text];
      return None;
    }

    method OnRequestLineContent(line: string) returns (error: Option<ParseError>)
      requires Valid() && Fields(line) != []
      modifies this
      ensures Did(OnRequestLine(old(State()), line), error)
    {
      hide Fields, Expand, IsMethodToken, CanonicalKey;
      var fields := Fields(line);
      requestLineNo := lineNo;
      if |fields| == 1 {
        target := fields[0];
      } else if |fields| > 3 {
        return Some(ParseError(lineNo, MalformedRequestLine));
      } else {
        var isMethod := MethodToken(fields[0]);
        if !isMethod {
          return Some(ParseError(lineNo, MalformedRequestLine));
        }
        verb := fields[0];
        target := fields[1];
        if |fields| == 3 {
          protoVersion := fields[2];
        }
      }
      var expanded := Expand(variables, target);
      if expanded.Unresolved? {
        return Some(ParseError(lineNo, expanded.kind));
      }
      target := expanded.text;
      position := AtHeaders;
      return None;
    }

    method OnHeaderLineContent(line: string) returns (error: Option<ParseError>)
      requires Valid()
      modifies this
      ensures Did(OnHeaderLine(old(State()), line), error)
    {
      var cut := Cut(line, ':');
      var key := TrimSpace(cut.before);
      if !cut.found || key == "" {
        return Some(ParseError(lineNo, MalformedHeader));
      }
      var expanded := Expand(variables, TrimSpace(cut.after));
      if expanded.Unresolved? {
        return Some(ParseError(lineNo, expanded.kind));
      }
      if CanonicalKey(key) == HOST {
        hostHeader := expanded.text;
        return None;
      }
      CanonicalKeyIsStable(key);
      headers := AddHeader(headers, key, expanded.text);
      return None;
    }

    method OnBodyLineContent(line: string) returns (error: Option<ParseError>)
      requires Valid()
      modifies this
      ensures Did(OnBodyLine(lib, old(State()), line), error)
    {
      var trimmed := TrimSpace(line);
      if HasPrefix(trimmed, REQUEST_SEPARATOR) {
        error := OnSeparatorLine(trimmed);
        return;
      }
      if IsResponseHandler(trimmed) {
        inHandler := Contains(trimmed, HANDLER_BLOCK_START) && !Contains(trimmed, HANDLER_BLOCK_END);
        return None;
      }
      if IsExternalBodyReference(trimmed) {
        return Some(ParseError(lineNo, Unsupported));
      }
      var expanded := Expand(variables, line);
      if expanded.Unresolved? {
        return Some(ParseError(lineNo, expanded.kind));
      }
      body := body + [expanded.text];
      return None;
    }

    method OnContentLine(content: string) returns (error: Option<ParseError>)
      requires Valid() && content != "" && !IsSpace(content[|content| - 1])
      modifies this
      ensures Did(OnContent(lib, old(State()), content), error)
    {
      WordsExist(content);
      if HasPrefix(content, "@") {
        error := OnVariableLine(content);
        return;
      }
      if position == AtRequestLine {
        error := OnRequestLineContent(content);
        return;
      }
      if StartsShortFormRequest(content) {
        error := OnFinishRequest();
        if error.Some? {
          return;
        }
        error := OnRequestLineContent(content);
        return;
      }
      error := OnHeaderLineContent(content);
    }

    method OnScriptLine(raw: string) returns (error: Option<ParseError>)
      requires Valid()
      modifies this
      ensures Did(OnLine(lib, old(State()), raw), error)
    {
      hide OnContent, OnBodyLine, OnSeparator, FinishRequest, CanonicalKey;
      lineNo := lineNo + 1;
      var line := DropCR(raw);
      if inHandler {
        if Contains(line, HANDLER_BLOCK_END) {
          inHandler := false;
        }
        return None;
      }
      if position == AtBody {
        error := OnBodyLineContent(line);
        return;
      }
      var trimmed := TrimSpace(line);
      if HasPrefix(trimmed, REQUEST_SEPARATOR) {
        error := OnSeparatorLine(trimmed);
        return;
      }
      if trimmed == "" {
        if position == AtHeaders {
          if verb == "" && hostHeader == "" && headers == map[] {
            error := OnFinishRequest();
            return;
          }
          position := AtBody;
        }
        return None;
      }
      var comment := CutCommentMarker(trimmed);
      if comment.Some? {
        OnCommentText(comment.value);
        return None;
      }
      var content := WithoutTrailingComment(trimmed);
      if content == "" {
        return None;
      }
      TrimIsTrimmed(line);
      StripIsTrimmed(trimmed, 1);
      error := OnContentLine(content);
    }
  }

  /** Feeds a new reader every line and finishes the last request. */
  method ParseScript(lib: Library, script: string) returns (parsed: Parsed)
    ensures parsed == Parse(lib, script)
  {
    var parser := new RequestParser(lib);
    var lines := Lines(script);
    assert lines[0..] == lines;
    for i := 0 to |lines|
      invariant parser.Valid() && parser.lib == lib
      invariant Read(lib, NEW_PARSER, lines) == Read(lib, parser.State(), lines[i..])
    {
      assert lines[i..][0] == lines[i] && lines[i..][1..] == lines[i + 1..];
      var error := parser.OnScriptLine(lines[i]);
      if error.Some? {
        return Error(error.value.line, error.value.kind);
      }
    }
    var error := parser.OnFinishRequest();
    if error.Some? {
      return Error(error.value.line, error.value.kind);
    }
    return Requests(parser.requests);
  }
}
