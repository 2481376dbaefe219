/**
 Reading a `.http` script: a machine that takes one line at a time, moving each request forward
 from its request line through headers to body until a separator starts the next. What the URL
 library does is a parameter.
 */
module HttpParser {
  import opened Options
  import opened HttpText

  datatype ErrorKind = MalformedRequestLine | MalformedHeader | NoTargetHost | UndefinedVariable | Unsupported

  datatype Url = Url(scheme: string, host: string, rest: string)

  /** The URL library: parsing and printing a URL, the port in a host, and the URL a request
      carries when its method and URL are acceptable. */
  datatype Library = Library(
    parse: string -> Option<Url>,
    render: Url -> string,
    port: string -> string,
    newRequest: (string, string) -> Option<Url>)

  type Headers = map<string, seq<string>>

  datatype Request = Request(
    name: string, verb: string, url: Url, host: string,
    proto: string, major: nat, minor: nat, headers: Headers, body: string)

  const METHOD_GET := "GET"
  const DEFAULT_PROTO_VERSION := "HTTP/1.1"
  const REQUEST_SEPARATOR := "###"
  const HANDLER_BLOCK_START := "{%"
  const HANDLER_BLOCK_END := "%}"
  const HOST := "Host"

  // ----- the standard library's view of headers and versions -----

  predicate IsTokenChar(c: char) {
    || 'a' <= c <= 'z' || 'A' <= c <= 'Z' || '0' <= c <= '9'
    || c in {'!', '#', '$', '%', '&', '\'', '*', '+', '-', '.', '^', '_', '`', '|', '~'}
  }

  predicate IsToken(s: string) {
    forall i :: 0 <= i < |s| ==> IsTokenChar(s[i])
  }

  function CanonicalFrom(s: string, upper: bool): string {
    if s == "" then ""
    else
      var c :=
        if upper && 'a' <= s[0] <= 'z' then s[0] - 'a' + 'A'
        else if !upper && 'A' <= s[0] <= 'Z' then s[0] - 'A' + 'a'
        else s[0];
      [c] + CanonicalFrom(s[1..], c == '-')
  }

  /** A name that is not a token is left as it is. */
  function CanonicalKey(s: string): string {
    if IsToken(s) then CanonicalFrom(s, true) else s
  }

  function AddHeader(headers: Headers, name: string, value: string): Headers {
    var key := CanonicalKey(name);
    headers[key := (if key in headers then headers[key] else []) + [value]]
  }

  function Digit(c: char): Option<nat> {
    if '0' <= c <= '9' then Some(c as nat - '0' as nat) else None
  }

  function ParseHttpVersion(s: string): Option<(nat, nat)> {
    if HasPrefix(s, "HTTP/") && |s| == 8 && s[6] == '.' && Digit(s[5]).Some? && Digit(s[7]).Some?
    then Some((Digit(s[5]).value, Digit(s[7]).value))
    else None
  }

  // ----- line predicates -----

  predicate IsMethodToken(field: string) {
    field != "" && forall i :: 0 <= i < |field| ==>
      'A' <= field[i] <= 'Z' || 'a' <= field[i] <= 'z' || field[i] == '-' || field[i] == '_'
  }

  /** The text of a whole-line comment. */
  function CutCommentMarker(line: string): Option<string> {
    if HasPrefix(line, "//") then Some(TrimSpace(line[2..]))
    else if HasPrefix(line, "#") then Some(TrimSpace(line[1..]))
    else None
  }

  predicate OpensComment(line: string, i: nat)
    requires 0 < i < |line|
  {
    line[i] == '#' && (line[i - 1] == ' ' || line[i - 1] == '\t')
  }

  function StripFrom(line: string, i: nat): string
    requires 0 < i
    decreases |line| - i
  {
    if i >= |line| then line
    else if OpensComment(line, i) then TrimSpace(line[..i])
    else StripFrom(line, i + 1)
  }

  function StripTrailingComment(line: string): string {
    StripFrom(line, 1)
  }

  predicate IsResponseHandler(line: string) {
    HasPrefix(line, ">") &&
    var rest := TrimLeftOf(line[1..], {'>', '!'});
    rest == "" || HasPrefix(rest, " ") || HasPrefix(rest, "\t") || HasPrefix(rest, HANDLER_BLOCK_START)
  }

  predicate IsExternalBodyReference(line: string) {
    HasPrefix(line, "<") &&
    (HasPrefix(line[1..], "@") || HasPrefix(line[1..], " ") || HasPrefix(line[1..], "\t"))
  }

  predicate StartsShortFormRequest(line: string) {
    |Fields(line)| == 1 &&
    var cut := Cut(line, ':');
    !cut.found || ContainsAny(cut.before, {'.', '/'}) || EqualFold(cut.before, "http") || EqualFold(cut.before, "https")
  }

  function TrimBlankLines(lines: seq<string>): seq<string> {
    if lines != [] && TrimSpace(lines[0]) == "" then TrimBlankLines(lines[1..])
    else if lines != [] && TrimSpace(lines[|lines| - 1]) == "" then TrimBlankLines(lines[..|lines| - 1])
    else lines
  }

  // ----- variables -----

  datatype Expansion = Expanded(text: string) | Unresolved(kind: ErrorKind)

  function NameLength(s: string): (n: nat)
    ensures n <= |s|
  {
    if s == "" || s[0] == '{' || s[0] == '}' then 0 else 1 + NameLength(s[1..])
  }

  /** The length of the reference `{{name}}` that starts here, if one does. */
  function ReferenceAt(s: string): (n: Option<nat>)
    ensures n.Some? ==> 4 <= n.value <= |s|
  {
    if !HasPrefix(s, "{{") then None
    else
      var k := NameLength(s[2..]);
      if HasPrefix(s[2 + k..], "}}") then Some(k + 4) else None
  }

  function UnresolvedKind(name: string): ErrorKind {
    if HasPrefix(name, "$") then Unsupported else UndefinedVariable
  }

  /** Replaces references left to right; the first one that is not declared is the error. */
  function Expand(variables: map<string, string>, text: string): Expansion
    decreases |text|
  {
    if text == "" then Expanded("")
    else
      match ReferenceAt(text)
      case None =>
        (match Expand(variables, text[1..])
         case Unresolved(kind) => Unresolved(kind)
         case Expanded(rest) => Expanded([text[0]] + rest))
      case Some(n) =>
        var name := TrimSpace(text[2..n - 2]);
        if name !in variables then Unresolved(UnresolvedKind(name))
        else
          match Expand(variables, text[n..])
          case Unresolved(kind) => Unresolved(kind)
          case Expanded(rest) => Expanded(variables[name] + rest)
  }

  // ----- the machine -----

  datatype Position = AtRequestLine | AtHeaders | AtBody

  datatype Parser = Parser(
    requests: seq<Request>, variables: map<string, string>, lineNo: nat, position: Position, inHandler: bool,
    requestLineNo: nat, name: string, verb: string, target: string, protoVersion: string,
    headers: Headers, hostHeader: string, body: seq<string>)

  datatype Outcome = Ok(parser: Parser) | Fail(line: nat, kind: ErrorKind)

  const NEW_PARSER := Parser([], map[], 0, AtRequestLine, false, 0, "", "", "", "", map[], "", [])

  function Reset(p: Parser): Parser {
    p.(position := AtRequestLine, requestLineNo := 0, name := "", verb := "", target := "",
       protoVersion := "", hostHeader := "", headers := map[], body := [])
  }

  datatype Target = Resolved(url: Url) | Unresolvable(kind: ErrorKind)

  /** A target that is neither absolute nor rooted opens with an authority. */
  function RawTarget(target: string): string {
    if !Contains(target, "://") && !HasPrefix(target, "/") then "//" + target else target
  }

  function TargetUrl(lib: Library, target: string, hostHeader: string): Target {
    match lib.parse(RawTarget(target))
    case None => Unresolvable(MalformedRequestLine)
    case Some(parsed) =>
      if parsed.host == "" && hostHeader == "" then Unresolvable(NoTargetHost)
      else
        var hosted := if parsed.host == "" then parsed.(host := hostHeader) else parsed;
        Resolved(
          if hosted.scheme != "" then hosted
          else if lib.port(hosted.host) == "80" then hosted.(scheme := "http")
          else hosted.(scheme := "https"))
  }

  /** The request a block describes, given the URL it is sent to and the URL it carries. */
  function BuiltRequest(p: Parser, verb: string, target: Url, url: Url, version: (nat, nat)): Request {
    Request(
      p.name, verb, url,
      if p.hostHeader != "" && p.hostHeader != target.host then p.hostHeader else url.host,
      if p.protoVersion != "" then p.protoVersion else DEFAULT_PROTO_VERSION, version.0, version.1,
      p.headers, Join(TrimBlankLines(p.body), "\n"))
  }

  function FinishRequest(lib: Library, p: Parser): Outcome {
    if p.target == "" then Ok(Reset(p))
    else
      match TargetUrl(lib, p.target, p.hostHeader)
      case Unresolvable(kind) => Fail(p.requestLineNo, kind)
      case Resolved(target) =>
        var verb := if p.verb == "" then METHOD_GET else p.verb;
        var version := if p.protoVersion == "" then Some((1, 1)) else ParseHttpVersion(p.protoVersion);
        match lib.newRequest(verb, lib.render(target))
        case None => Fail(p.requestLineNo, MalformedRequestLine)
        case Some(url) =>
          if version.None? then Fail(p.requestLineNo, MalformedRequestLine)
          else Ok(Reset(p).(requests := p.requests + [BuiltRequest(p, verb, target, url, version.value)]))
  }

  function OnSeparator(lib: Library, p: Parser, line: string): Outcome {
    match FinishRequest(lib, p)
    case Fail(n, kind) => Fail(n, kind)
    case Ok(q) => Ok(q.(name := TrimSpace(TrimLeftOf(line, {'#'}))))
  }

  function OnComment(p: Parser, text: string): Parser {
    var cut := Cut(text, ' ');
    if cut.before != "@name" then p
    else p.(name := TrimSpace(TrimPrefix(TrimSpace(cut.after), "=")))
  }

  function OnVariable(p: Parser, line: string): Outcome {
    if p.position != AtRequestLine then Fail(p.lineNo, MalformedHeader)
    else
      var cut := Cut(TrimPrefix(line, "@"), '=');
      var name := TrimSpace(cut.before);
      if !cut.found || name == "" then Fail(p.lineNo, MalformedRequestLine)
      else
        match Expand(p.variables, TrimSpace(cut.after))
        case Unresolved(kind) => Fail(p.lineNo, kind)
        case Expanded(value) => Ok(p.(variables := p.variables[name := value]))
  }

  function OnRequestLine(p: Parser, line: string): Outcome
    requires Fields(line) != []
  {
    var fields := Fields(line);
    if |fields| > 3 then Fail(p.lineNo, MalformedRequestLine)
    else if |fields| > 1 && !IsMethodToken(fields[0]) then Fail(p.lineNo, MalformedRequestLine)
    else
      match Expand(p.variables, if |fields| == 1 then fields[0] else fields[1])
      case Unresolved(kind) => Fail(p.lineNo, kind)
      case Expanded(target) =>
        Ok(p.(requestLineNo := p.lineNo, position := AtHeaders, target := target,
              verb := if |fields| == 1 then p.verb else fields[0],
              protoVersion := if |fields| == 3 then fields[2] else p.protoVersion))
  }

  function OnHeaderLine(p: Parser, line: string): Outcome {
    var cut := Cut(line, ':');
    var name := TrimSpace(cut.before);
    if !cut.found || name == "" then Fail(p.lineNo, MalformedHeader)
    else
      match Expand(p.variables, TrimSpace(cut.after))
      case Unresolved(kind) => Fail(p.lineNo, kind)
      case Expanded(value) =>
        if CanonicalKey(name) == HOST then Ok(p.(hostHeader := value))
        else Ok(p.(headers := AddHeader(p.headers, name, value)))
  }

  function OnBodyLine(lib: Library, p: Parser, line: string): Outcome {
    var trimmed := TrimSpace(line);
    if HasPrefix(trimmed, REQUEST_SEPARATOR) then OnSeparator(lib, p, trimmed)
    else if IsResponseHandler(trimmed) then
      Ok(p.(inHandler := Contains(trimmed, HANDLER_BLOCK_START) && !Contains(trimmed, HANDLER_BLOCK_END)))
    else if IsExternalBodyReference(trimmed) then Fail(p.lineNo, Unsupported)
    else
      match Expand(p.variables, line)
      case Unresolved(kind) => Fail(p.lineNo, kind)
      case Expanded(text) => Ok(p.(body := p.body + [text]))
  }

  /** A request that is nothing but a URL so far. */
  predicate IsShortForm(p: Parser) {
    p.verb == "" && p.hostHeader == "" && p.headers == map[]
  }

  function OnBlankLine(lib: Library, p: Parser): Outcome {
    if p.position != AtHeaders then Ok(p)
    else if IsShortForm(p) then FinishRequest(lib, p)
    else Ok(p.(position := AtBody))
  }

  /** A line outside a body that is neither blank, separator nor comment. */
  function OnContent(lib: Library, p: Parser, content: string): Outcome
    requires content != "" && !IsSpace(content[|content| - 1])
  {
    WordsExist(content);
    if HasPrefix(content, "@") then OnVariable(p, content)
    else if p.position == AtRequestLine then OnRequestLine(p, content)
    else if StartsShortFormRequest(content) then
      match FinishRequest(lib, p)
      case Fail(n, kind) => Fail(n, kind)
      case Ok(q) => OnRequestLine(q, content)
    else OnHeaderLine(p, content)
  }

  lemma {:induction false} TrimRightEnds(s: string)
    ensures var t := TrimRightSpace(s); t <= s && (t != "" ==> !IsSpace(t[|t| - 1]))
  {
    if s != "" && IsSpace(s[|s| - 1]) {
      TrimRightEnds(s[..|s| - 1]);
    }
  }

  lemma {:induction false} TrimLeftEnds(s: string)
    ensures var t := TrimLeftSpace(s); t != "" ==> !IsSpace(t[0])
  {
    if s != "" && IsSpace(s[0]) {
      TrimLeftEnds(s[1..]);
    }
  }

  lemma TrimIsTrimmed(s: string)
    ensures Trimmed(TrimSpace(s))
  {
    TrimLeftEnds(s);
    TrimRightEnds(TrimLeftSpace(s));
  }

  lemma {:induction false} StripIsTrimmed(line: string, i: nat)
    requires Trimmed(line) && 0 < i
    ensures Trimmed(StripFrom(line, i))
    decreases |line| - i
  {
    if i < |line| {
      if OpensComment(line, i) {
        TrimIsTrimmed(line[..i]);
      } else {
        StripIsTrimmed(line, i + 1);
      }
    }
  }

  function OnLine(lib: Library, p0: Parser, raw: string): Outcome {
    var p := p0.(lineNo := p0.lineNo + 1);
    var line := DropCR(raw);
    if p.inHandler then Ok(p.(inHandler := !Contains(line, HANDLER_BLOCK_END)))
    else if p.position == AtBody then OnBodyLine(lib, p, line)
    else
      var trimmed := TrimSpace(line);
      if HasPrefix(trimmed, REQUEST_SEPARATOR) then OnSeparator(lib, p, trimmed)
      else if trimmed == "" then OnBlankLine(lib, p)
      else
        match CutCommentMarker(trimmed)
        case Some(comment) => Ok(OnComment(p, comment))
        case None =>
          var content := StripTrailingComment(trimmed);
          TrimIsTrimmed(line);
          StripIsTrimmed(trimmed, 1);
          if content == "" then Ok(p) else OnContent(lib, p, content)
  }

  function Read(lib: Library, p: Parser, lines: seq<string>): Outcome
    decreases |lines|
  {
    if lines == [] then Ok(p)
    else
      match OnLine(lib, p, lines[0])
      case Fail(n, kind) => Fail(n, kind)
      case Ok(q) => Read(lib, q, lines[1..])
  }

  datatype Parsed = Requests(requests: seq<Request>) | Error(line: nat, kind: ErrorKind)

  function Finish(lib: Library, outcome: Outcome): Parsed {
    match outcome
    case Fail(n, kind) => Error(n, kind)
    case Ok(p) =>
      match FinishRequest(lib, p)
      case Fail(n, kind) => Error(n, kind)
      case Ok(q) => Requests(q.requests)
  }

  function ParseLines(lib: Library, lines: seq<string>): Parsed {
    Finish(lib, Read(lib, NEW_PARSER, lines))
  }

  function Parse(lib: Library, script: string): Parsed {
    ParseLines(lib, Lines(script))
  }
}
