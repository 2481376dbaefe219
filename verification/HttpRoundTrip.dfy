/** What the writer prints, the reader reads back, for every list of well-formed requests. */
module HttpRoundTrip {
  import opened Options
  import opened HttpText
  import opened HttpParser
  import opened HttpConcat
  import opened HttpWriter

  // ----- well-formed requests -----

  /** No `{{..}}` reference anywhere. */
  predicate Plain(text: string) {
    forall i :: 0 <= i <= |text| ==> ReferenceAt(text[i..]).None?
  }

  /** No comment starts after white space. */
  predicate CommentFree(line: string) {
    forall i :: 0 < i < |line| ==> !OpensComment(line, i)
  }

  predicate NameOk(name: string) {
    name != "" ==> Trimmed(name) && Lacks(name, '\n') && !HasPrefix(name, "=")
  }

  /** The URL has a scheme and a host, prints without spaces to an absolute form that is not
      taken for anything else, and reads back from it. */
  predicate UrlOk(lib: Library, verb: string, url: Url) {
    var text := lib.render(url);
    && url.scheme != "" && url.host != ""
    && NoSpace(text) && Contains(text, "://") && text[0] != '#' && Plain(text)
    && lib.parse(text) == Some(url) && lib.newRequest(verb, text) == Some(url)
  }

  predicate ValueOk(value: string) {
    Trimmed(value) && Lacks(value, '\n') && Plain(value)
  }

  /** How a header line reads once it is trimmed. */
  function HeaderContent(name: string, value: string): string {
    if value == "" then name + ":" else name + ": " + value
  }

  predicate HeaderNameOk(name: string) {
    && name != "" && Trimmed(name) && Lacks(name, ':') && Lacks(name, '\n')
    && !HasPrefix(name, "#") && !HasPrefix(name, "//") && !HasPrefix(name, "@")
  }

  predicate HeaderOk(name: string, values: seq<string>) {
    && HeaderNameOk(name) && CanonicalKey(name) == name && name != HOST
    && |values| == 1 && ValueOk(values[0]) && CommentFree(name + ": " + values[0])
    && (values[0] == "" ==> !StartsShortFormRequest(name + ":"))
  }

  predicate HostOk(r: Request) {
    r.host == r.url.host || (r.host != "" && ValueOk(r.host) && CommentFree("Host: " + r.host))
  }

  predicate BodyLineOk(line: string) {
    var trimmed := TrimSpace(line);
    && IsLine(line) && Plain(line)
    && !HasPrefix(trimmed, REQUEST_SEPARATOR) && !IsResponseHandler(trimmed) && !IsExternalBodyReference(trimmed)
  }

  predicate BodyOk(body: string) {
    body != "" ==>
      var lines := SplitLines(body);
      && TrimSpace(lines[0]) != "" && TrimSpace(lines[|lines| - 1]) != ""
      && forall i :: 0 <= i < |lines| ==> BodyLineOk(lines[i])
  }

  predicate WellFormed(lib: Library, r: Request) {
    && NameOk(r.name) && IsMethodToken(r.verb) && UrlOk(lib, r.verb, r.url) && HostOk(r)
    && ParseHttpVersion(r.proto) == Some((r.major, r.minor))
    && (forall n :: n in r.headers ==> HeaderOk(n, r.headers[n]))
    && BodyOk(r.body)
  }

  // ----- the lines of what is written -----

  function HeaderLines(headers: Headers, order: seq<string>): (lines: seq<string>)
    requires forall i :: 0 <= i < |order| ==> order[i] in headers
    ensures |lines| == |order|
  {
    seq(|order|, i requires 0 <= i < |order| => order[i] + ": " + Join(headers[order[i]], "; "))
  }

  function NameLines(r: Request): seq<string> {
    if r.name != "" then ["# @name " + r.name] else []
  }

  function RequestLine(lib: Library, r: Request): string {
    r.verb + " " + lib.render(r.url) + " " + r.proto
  }

  function HostLines(r: Request): seq<string> {
    if WritesHost(r) then ["Host: " + r.host] else []
  }

  function BodyLines(r: Request): seq<string> {
    if r.body != "" then [""] + SplitLines(r.body) else []
  }

  function RequestLines(lib: Library, r: Request, order: seq<string>): seq<string>
    requires Orders(r.headers, order)
  {
    NameLines(r) + [RequestLine(lib, r)] + HostLines(r) + HeaderLines(r.headers, order) + BodyLines(r)
  }

  // ----- reading one line -----

  lemma {:induction false} PlainExpands(variables: map<string, string>, text: string)
    requires Plain(text)
    ensures Expand(variables, text) == Expanded(text)
  {
    if text != "" {
      assert text[0..] == text;
      assert forall i :: 0 <= i <= |text| - 1 ==> text[1..][i..] == text[i + 1..];
      PlainExpands(variables, text[1..]);
    }
  }

  lemma {:induction false} CommentFreeStays(line: string, i: nat)
    requires CommentFree(line) && 0 < i
    ensures StripFrom(line, i) == line
    decreases |line| - i
  {
    if i < |line| {
      CommentFreeStays(line, i + 1);
    }
  }

  /** A line that is trimmed to `content` and is no separator or comment is handled as content. */
  lemma ContentLine(lib: Library, p: Parser, line: string, content: string)
    requires !p.inHandler && p.position != AtBody && IsLine(line)
    requires TrimSpace(line) == content != "" && CommentFree(content)
    requires !HasPrefix(content, "#") && !HasPrefix(content, "//")
    ensures !IsSpace(content[|content| - 1])
    ensures OnLine(lib, p, line) == OnContent(lib, p.(lineNo := p.lineNo + 1), content)
  {
    hide OnContent, OnSeparator, OnBodyLine, OnBlankLine;
    TrimIsTrimmed(line);
    CommentFreeStays(content, 1);
    assert !HasPrefix(content, REQUEST_SEPARATOR);
  }

  lemma NameLineRead(lib: Library, p: Parser, name: string)
    requires !p.inHandler && p.position == AtRequestLine && name != "" && NameOk(name)
    ensures OnLine(lib, p, "# @name " + name) == Ok(p.(lineNo := p.lineNo + 1, name := name))
  {
    var line := "# @name " + name;
    assert line[|line| - 1] == name[|name| - 1];
    TrimmedStays(line);
    var text := "@name " + name;
    assert line[1..] == " " + text && text[|text| - 1] == name[|name| - 1];
    TrimmedAfterSpace(text);
    assert CutCommentMarker(line) == Some(text);
    assert text == "@name" + [' '] + name;
    CutAt("@name", ' ', name);
    TrimmedStays(name);
  }

  lemma TrimmedAfterSpace(text: string)
    requires Trimmed(text)
    ensures TrimSpace(" " + text) == text
  {
    assert (" " + text)[1..] == text;
    TrimmedStays(text);
  }

  predicate TokensOk(verb: string, text: string, proto: string) {
    && IsMethodToken(verb) && text != "" && NoSpace(text) && text[0] != '#'
    && proto != "" && NoSpace(proto) && proto[0] != '#'
  }

  lemma WordAppended(line: string, word: string)
    requires CommentFree(line) && word != "" && NoSpace(word) && word[0] != '#'
    ensures CommentFree(line + " " + word)
    ensures Lacks(line, '\n') ==> Lacks(line + " " + word, '\n')
  {
    var whole := line + " " + word;
    var n := |line|;
    forall i | 0 < i < |whole| ensures !OpensComment(whole, i) && (Lacks(line, '\n') ==> whole[i] != '\n') {
      if i < n {
        assert whole[i] == line[i] && whole[i - 1] == line[i - 1];
        assert !OpensComment(line, i);
      } else if i > n {
        assert whole[i] == word[i - n - 1] && (i > n + 1 ==> whole[i - 1] == word[i - n - 2]);
      }
    }
  }

  lemma RequestLineShape(verb: string, text: string, proto: string)
    requires TokensOk(verb, text, proto)
    ensures var line := verb + " " + text + " " + proto;
      && Trimmed(line) && CommentFree(line) && IsLine(line)
      && !HasPrefix(line, "#") && !HasPrefix(line, "//") && !HasPrefix(line, "@")
  {
    var line := verb + " " + text + " " + proto;
    assert NoSpace(verb) && CommentFree(verb);
    WordAppended(verb, text);
    WordAppended(verb + " " + text, proto);
    assert line[0] == verb[0] && line[|line| - 1] == proto[|proto| - 1];
  }

  lemma RequestLineFields(verb: string, text: string, proto: string)
    requires TokensOk(verb, text, proto)
    ensures Fields(verb + " " + text + " " + proto) == [verb, text, proto]
  {
    var rest := text + " " + proto;
    assert verb + " " + text + " " + proto == verb + " " + rest;
    FieldsSpaced(verb, rest);
    FieldsSpaced(text, proto);
    FieldsSpaced(proto, "");
  }

  lemma RequestLineRead(lib: Library, p: Parser, verb: string, text: string, proto: string)
    requires !p.inHandler && p.position == AtRequestLine && TokensOk(verb, text, proto) && Plain(text)
    ensures OnLine(lib, p, verb + " " + text + " " + proto) ==
      Ok(p.(lineNo := p.lineNo + 1, requestLineNo := p.lineNo + 1, position := AtHeaders,
            verb := verb, target := text, protoVersion := proto))
  {
    hide OnLine;
    var line := verb + " " + text + " " + proto;
    RequestLineShape(verb, text, proto);
    RequestLineFields(verb, text, proto);
    TrimmedStays(line);
    ContentLine(lib, p, line, line);
    PlainExpands(p.variables, text);
  }

  lemma {:induction false} FieldsJoin(a: string, b: string)
    ensures Fields(a + " " + b) == Fields(a) + Fields(b)
    decreases |a|
  {
    var s := a + " " + b;
    if a == "" {
      assert s[1..] == b;
    } else if IsSpace(a[0]) {
      assert s[1..] == a[1..] + " " + b;
      FieldsJoin(a[1..], b);
    } else {
      var n := WordLength(a);
      WordLengthStops(a);
      WordEnds(a[..n], a[n..] + " " + b);
      assert s == a[..n] + (a[n..] + " " + b);
      assert s[..n] == a[..n] && s[n..] == a[n..] + " " + b;
      FieldsJoin(a[n..], b);
    }
  }

  lemma {:induction false} WordLengthStops(s: string)
    ensures NoSpace(s[..WordLength(s)])
    ensures WordLength(s) < |s| ==> IsSpace(s[WordLength(s)])
  {
    if s != "" && !IsSpace(s[0]) {
      WordLengthStops(s[1..]);
    }
  }

  /** A header line, however it ends, trims to its content. */
  lemma HeaderLineTrims(name: string, value: string)
    requires HeaderNameOk(name) && ValueOk(value)
    ensures IsLine(name + ": " + value) && TrimSpace(name + ": " + value) == HeaderContent(name, value)
  {
    var line, content := name + ": " + value, HeaderContent(name, value);
    assert line[0] == name[0] && content[0] == name[0];
    TrimmedStays(content);
    if value == "" {
      assert line[..|line| - 1] == content;
    }
  }

  lemma HeaderLineMarkers(name: string, value: string)
    requires HeaderNameOk(name) && CommentFree(name + ": " + value)
    ensures var content := HeaderContent(name, value);
      CommentFree(content) && !HasPrefix(content, "#") && !HasPrefix(content, "//") && !HasPrefix(content, "@")
  {
    var line, content := name + ": " + value, HeaderContent(name, value);
    assert content[0] == name[0];
    assert content[1] == if |name| > 1 then name[1] else ':';
    assert name[0] == '/' && |name| > 1 ==> name[1] != '/';
    forall i | 0 < i < |content| ensures !OpensComment(content, i) {
      assert content[i] == line[i] && content[i - 1] == line[i - 1];
      assert !OpensComment(line, i);
    }
  }

  lemma HeaderLineCuts(name: string, value: string)
    requires HeaderNameOk(name) && ValueOk(value)
    ensures var cut := Cut(HeaderContent(name, value), ':');
      cut.found && cut.before == name && TrimSpace(cut.after) == value
  {
    if value == "" {
      assert HeaderContent(name, value) == name + [':'] + "";
      CutAt(name, ':', "");
    } else {
      assert HeaderContent(name, value) == name + [':'] + (" " + value);
      CutAt(name, ':', " " + value);
      TrimmedAfterSpace(value);
    }
  }

  /** A header with a value has more than one word. */
  lemma HeaderIsNoUrl(name: string, value: string)
    requires Trimmed(value) && value != ""
    ensures !StartsShortFormRequest(name + ": " + value)
  {
    assert name + ": " + value == (name + ":") + " " + value;
    FieldsJoin(name + ":", value);
    WordsExist(name + ":");
    WordsExist(value);
  }

  lemma HeaderLineRead(lib: Library, p: Parser, name: string, value: string)
    requires !p.inHandler && p.position == AtHeaders
    requires HeaderNameOk(name) && ValueOk(value) && CommentFree(name + ": " + value)
    requires value == "" ==> !StartsShortFormRequest(name + ":")
    ensures OnLine(lib, p, name + ": " + value) ==
      Ok(if CanonicalKey(name) == HOST then p.(lineNo := p.lineNo + 1, hostHeader := value)
         else p.(lineNo := p.lineNo + 1, headers := AddHeader(p.headers, name, value)))
  {
    hide OnLine, StartsShortFormRequest, AddHeader, CanonicalKey, CommentFree;
    var line, content := name + ": " + value, HeaderContent(name, value);
    HeaderLineTrims(name, value);
    HeaderLineMarkers(name, value);
    HeaderLineCuts(name, value);
    if value != "" {
      HeaderIsNoUrl(name, value);
    }
    ContentLine(lib, p, line, content);
    TrimmedStays(name);
    PlainExpands(p.variables, value);
  }

  lemma BlankLineRead(lib: Library, p: Parser)
    requires !p.inHandler && p.position == AtHeaders && p.verb != ""
    ensures OnLine(lib, p, "") == Ok(p.(lineNo := p.lineNo + 1, position := AtBody))
  {
    hide OnSeparator, OnContent, StripFrom;
  }

  lemma BodyLineRead(lib: Library, p: Parser, line: string)
    requires !p.inHandler && p.position == AtBody && BodyLineOk(line)
    ensures OnLine(lib, p, line) == Ok(p.(lineNo := p.lineNo + 1, body := p.body + [line]))
  {
    hide OnSeparator, OnContent, StripFrom, OnBlankLine;
    PlainExpands(p.variables, line);
  }

  // ----- reading one entry -----

  lemma ReadOne(lib: Library, p: Parser, line: string)
    ensures Read(lib, p, [line]) == OnLine(lib, p, line)
  {
    hide OnLine;
    match OnLine(lib, p, line) {
      case Fail(_, _) =>
      case Ok(q) => assert [line][1..] == [];
    }
  }

  lemma ReadOn(lib: Library, p: Parser, a: seq<string>, q: Parser, b: seq<string>)
    requires Read(lib, p, a) == Ok(q)
    ensures Read(lib, p, a + b) == Read(lib, q, b)
  {
    hide OnLine;
    ReadAppend(lib, p, a, b);
  }

  function Chosen(headers: Headers, order: seq<string>): Headers
    requires forall i :: 0 <= i < |order| ==> order[i] in headers
  {
    map n | n in order :: headers[n]
  }

  /** A header not seen before is recorded under its own name. */
  lemma OneHeaderRead(lib: Library, p: Parser, name: string, values: seq<string>)
    requires !p.inHandler && p.position == AtHeaders && HeaderOk(name, values) && name !in p.headers
    ensures OnLine(lib, p, name + ": " + Join(values, "; "))
         == Ok(p.(lineNo := p.lineNo + 1, headers := p.headers[name := values]))
  {
    hide OnLine;
    assert values == [values[0]] && Join(values, "; ") == values[0];
    HeaderLineRead(lib, p, name, values[0]);
    assert [] + [values[0]] == values;
  }

  lemma ChosenSplits(before: Headers, headers: Headers, order: seq<string>)
    requires order != [] && forall i :: 0 <= i < |order| ==> order[i] in headers
    ensures before[order[0] := headers[order[0]]] + Chosen(headers, order[1..]) == before + Chosen(headers, order)
  {
    assert forall n :: n in order <==> n == order[0] || n in order[1..];
  }

  lemma NoneChosen(before: Headers, headers: Headers)
    ensures before + Chosen(headers, []) == before
  {
  }

  /** Headers that can be read one after another: well-formed, new, and each once. */
  predicate Readable(p: Parser, headers: Headers, order: seq<string>) {
    && (forall i :: 0 <= i < |order| ==> order[i] in headers && order[i] !in p.headers && HeaderOk(order[i], headers[order[i]]))
    && (forall i, j :: 0 <= i < j < |order| ==> order[i] != order[j])
  }

  lemma {:induction false} HeadersRead(lib: Library, p: Parser, headers: Headers, order: seq<string>)
    requires !p.inHandler && p.position == AtHeaders && Readable(p, headers, order)
    ensures Read(lib, p, HeaderLines(headers, order))
         == Ok(p.(lineNo := p.lineNo + |order|, headers := p.headers + Chosen(headers, order)))
    decreases |order|
  {
    hide OnLine, HeaderOk, Chosen;
    if order == [] {
      NoneChosen(p.headers, headers);
    } else {
      var name, rest := order[0], order[1..];
      OneHeaderRead(lib, p, name, headers[name]);
      ChosenSplits(p.headers, headers, order);
      HeadersRead(lib, p.(lineNo := p.lineNo + 1, headers := p.headers[name := headers[name]]), headers, rest);
      assert HeaderLines(headers, order)[1..] == HeaderLines(headers, rest);
    }
  }

  lemma {:induction false} BodyRead(lib: Library, p: Parser, lines: seq<string>)
    requires !p.inHandler && p.position == AtBody && forall i :: 0 <= i < |lines| ==> BodyLineOk(lines[i])
    ensures Read(lib, p, lines) == Ok(p.(lineNo := p.lineNo + |lines|, body := p.body + lines))
    decreases |lines|
  {
    hide OnLine, BodyLineOk;
    if lines == [] {
      assert p.body + lines == p.body;
    } else {
      BodyLineRead(lib, p, lines[0]);
      BodyRead(lib, p.(lineNo := p.lineNo + 1, body := p.body + [lines[0]]), lines[1..]);
      assert (p.body + [lines[0]]) + lines[1..] == p.body + lines;
    }
  }

  function HostOf(r: Request): string {
    if WritesHost(r) then r.host else ""
  }

  /** The machine has read so much of `r` and nothing else. */
  predicate Holding(lib: Library, p: Parser, r: Request, host: string, headers: Headers, body: seq<string>) {
    && p.requests == [] && !p.inHandler && p.name == r.name && p.verb == r.verb
    && p.target == lib.render(r.url) && p.protoVersion == r.proto
    && p.hostHeader == host && p.headers == headers && p.body == body
  }

  lemma VersionIsWord(proto: string)
    requires ParseHttpVersion(proto).Some?
    ensures proto != "" && proto[0] != '#' && NoSpace(proto)
  {
    var prefix := "HTTP/";
    assert forall i :: 0 <= i < 5 ==> proto[i] == prefix[i];
    forall i | 0 <= i < |proto| ensures !IsSpace(proto[i]) {
      assert i < 5 || i == 5 || i == 6 || i == 7;
    }
  }

  lemma TokensAreOk(lib: Library, r: Request)
    requires WellFormed(lib, r)
    ensures TokensOk(r.verb, lib.render(r.url), r.proto) && Plain(lib.render(r.url))
  {
    VersionIsWord(r.proto);
  }

  lemma NameRead(lib: Library, r: Request)
    requires NameOk(r.name)
    ensures var o := Read(lib, NEW_PARSER, NameLines(r)); o.Ok? && o.parser == NEW_PARSER.(lineNo := |NameLines(r)|, name := r.name)
  {
    hide OnLine, NameOk;
    if r.name != "" {
      NameLineRead(lib, NEW_PARSER, r.name);
      ReadOne(lib, NEW_PARSER, "# @name " + r.name);
    }
  }

  lemma HostIsCanonical()
    ensures CanonicalKey(HOST) == HOST && HeaderNameOk(HOST)
  {
    assert HOST[1..] == "ost" && "ost"[1..] == "st" && "st"[1..] == "t" && "t"[1..] == "";
    assert CanonicalFrom("st", false) == "st";
    assert CanonicalFrom("ost", false) == "ost";
  }

  lemma HostRead(lib: Library, p: Parser, r: Request)
    requires !p.inHandler && p.position == AtHeaders && p.hostHeader == "" && HostOk(r)
    ensures Read(lib, p, HostLines(r)) == Ok(p.(lineNo := p.lineNo + |HostLines(r)|, hostHeader := HostOf(r)))
  {
    hide OnLine, ValueOk, CommentFree, CanonicalKey, HeaderNameOk;
    if WritesHost(r) {
      HostIsCanonical();
      assert HOST + ": " + r.host == "Host: " + r.host;
      HeaderLineRead(lib, p, HOST, r.host);
      ReadOne(lib, p, "Host: " + r.host);
    }
  }

  lemma OpeningRead(lib: Library, r: Request)
    requires WellFormed(lib, r)
    ensures var o := Read(lib, NEW_PARSER, NameLines(r) + [RequestLine(lib, r)] + HostLines(r));
      o.Ok? && o.parser.position == AtHeaders && Holding(lib, o.parser, r, HostOf(r), map[], [])
  {
    hide OnLine, NameLines, HostLines;
    TokensAreOk(lib, r);
    NameRead(lib, r);
    var p := Read(lib, NEW_PARSER, NameLines(r)).parser;
    RequestLineRead(lib, p, r.verb, lib.render(r.url), r.proto);
    ReadOne(lib, p, RequestLine(lib, r));
    var q := OnLine(lib, p, RequestLine(lib, r)).parser;
    ReadOn(lib, NEW_PARSER, NameLines(r), p, [RequestLine(lib, r)]);
    HostRead(lib, q, r);
    ReadOn(lib, NEW_PARSER, NameLines(r) + [RequestLine(lib, r)], q, HostLines(r));
  }

  function BodyOf(r: Request): seq<string> {
    if r.body != "" then SplitLines(r.body) else []
  }

  lemma BodyPartRead(lib: Library, p: Parser, r: Request)
    requires !p.inHandler && p.position == AtHeaders && p.body == [] && p.verb != "" && BodyOk(r.body)
    ensures var o := Read(lib, p, BodyLines(r));
      o.Ok? && o.parser == p.(lineNo := o.parser.lineNo, position := o.parser.position, body := BodyOf(r))
  {
    hide OnLine, BodyLineOk, SplitLines;
    if r.body != "" {
      BlankLineRead(lib, p);
      ReadOne(lib, p, "");
      var q := p.(lineNo := p.lineNo + 1, position := AtBody);
      ReadOn(lib, p, [""], q, SplitLines(r.body));
      BodyRead(lib, q, SplitLines(r.body));
      assert [] + SplitLines(r.body) == SplitLines(r.body);
    }
  }

  lemma EntryRead(lib: Library, r: Request, order: seq<string>)
    requires WellFormed(lib, r) && Orders(r.headers, order)
    ensures var o := Read(lib, NEW_PARSER, RequestLines(lib, r, order));
      o.Ok? && Holding(lib, o.parser, r, HostOf(r), r.headers, BodyOf(r))
  {
    hide OnLine, HeaderOk, UrlOk, NameOk, HostOk, BodyOk, NameLines, RequestLine, HostLines, HostOf, BodyLines, HeaderLines;
    var opening := NameLines(r) + [RequestLine(lib, r)] + HostLines(r);
    OpeningRead(lib, r);
    var p := Read(lib, NEW_PARSER, opening).parser;
    HeadersRead(lib, p, r.headers, order);
    var q := Read(lib, p, HeaderLines(r.headers, order)).parser;
    assert Chosen(r.headers, order) == r.headers && map[] + r.headers == r.headers;
    ReadOn(lib, NEW_PARSER, opening, p, HeaderLines(r.headers, order));
    BodyPartRead(lib, q, r);
    ReadOn(lib, NEW_PARSER, opening + HeaderLines(r.headers, order), q, BodyLines(r));
  }

  // ----- finishing one entry -----

  lemma NothingToTrim(lines: seq<string>)
    requires lines != [] ==> TrimSpace(lines[0]) != "" && TrimSpace(lines[|lines| - 1]) != ""
    ensures TrimBlankLines(lines) == lines
  {
  }

  lemma EntryFinishes(lib: Library, p: Parser, r: Request)
    requires r.verb != "" && UrlOk(lib, r.verb, r.url) && HostOk(r) && BodyOk(r.body)
    requires ParseHttpVersion(r.proto) == Some((r.major, r.minor))
    requires Holding(lib, p, r, HostOf(r), r.headers, BodyOf(r))
    ensures var o := FinishRequest(lib, p); o.Ok? && o.parser.requests == [r]
  {
    hide TrimBlankLines, Join, SplitLines, Plain, HeaderOk, TrimSpace;
    NothingToTrim(BodyOf(r));
    SplitJoins(r.body);
    assert Join([], "\n") == "" by { JoinNothing(); }
    VersionIsWord(r.proto);
  }

  lemma JoinNothing()
    ensures Join([], "\n") == ""
  {
  }

  /** One well-formed request, printed and parsed. */
  lemma EntryRoundTrips(lib: Library, r: Request, order: seq<string>)
    requires WellFormed(lib, r) && Orders(r.headers, order)
    ensures ParseLines(lib, RequestLines(lib, r, order)) == Requests([r])
    ensures EndsOutsideHandler(lib, RequestLines(lib, r, order))
  {
    hide Orders, RequestLines, Read, FinishRequest, UrlOk, HostOk, BodyOk, NameOk, HeaderOk;
    EntryRead(lib, r, order);
    EntryFinishes(lib, Read(lib, NEW_PARSER, RequestLines(lib, r, order)).parser, r);
  }

  // ----- lists -----

  function ScriptLines(lib: Library, entries: seq<Request>, orders: seq<seq<string>>): seq<string>
    requires OrdersAll(entries, orders)
  {
    if entries == [] then []
    else if |entries| == 1 then RequestLines(lib, entries[0], orders[0])
    else RequestLines(lib, entries[0], orders[0]) + [REQUEST_SEPARATOR] + ScriptLines(lib, entries[1..], orders[1..])
  }

  predicate AllWellFormed(lib: Library, entries: seq<Request>) {
    forall i :: 0 <= i < |entries| ==> WellFormed(lib, entries[i])
  }

  lemma {:induction false} EntriesRoundTrip(lib: Library, entries: seq<Request>, orders: seq<seq<string>>)
    requires AllWellFormed(lib, entries) && OrdersAll(entries, orders)
    ensures ParseLines(lib, ScriptLines(lib, entries, orders)) == Requests(entries)
  {
    hide WellFormed, Orders, RequestLines, Read, FinishRequest, EndsOutsideHandler;
    if entries == [] {
      NothingToParse(lib);
    } else {
      EntryRoundTrips(lib, entries[0], orders[0]);
      if |entries| == 1 {
        assert [entries[0]] == entries;
      } else {
        EntriesRoundTrip(lib, entries[1..], orders[1..]);
        Concatenation(lib, RequestLines(lib, entries[0], orders[0]), ScriptLines(lib, entries[1..], orders[1..]));
        assert [entries[0]] + entries[1..] == entries;
      }
    }
  }

  lemma NothingToParse(lib: Library)
    ensures ParseLines(lib, []) == Requests([])
  {
  }

  // ----- text -----

  predicate AllLines(lines: seq<string>) {
    forall i :: 0 <= i < |lines| ==> IsLine(lines[i])
  }

  /** The text printed is these lines, each ended. */
  predicate Prints(text: string, lines: seq<string>) {
    text == Terminate(lines) && AllLines(lines)
  }

  lemma PrintsOne(line: string)
    requires IsLine(line)
    ensures Prints(line + "\n", [line])
  {
    assert [line][1..] == [];
  }

  lemma PrintsBoth(a: string, la: seq<string>, b: string, lb: seq<string>)
    requires Prints(a, la) && Prints(b, lb)
    ensures Prints(a + b, la + lb)
  {
    TerminateJoins(la, lb);
  }

  lemma {:induction false} HeadersPrint(headers: Headers, order: seq<string>)
    requires forall i :: 0 <= i < |order| ==> order[i] in headers && HeaderOk(order[i], headers[order[i]])
    ensures Prints(HeaderText(headers, order), HeaderLines(headers, order))
  {
    if order != [] {
      hide HeaderOk, Prints;
      var n := |order| - 1;
      HeadersPrint(headers, order[..n]);
      HeaderPrints(order[n], headers[order[n]]);
      var line := order[n] + ": " + Join(headers[order[n]], "; ");
      PrintsBoth(HeaderText(headers, order[..n]), HeaderLines(headers, order[..n]), line + "\n", [line]);
      assert HeaderLines(headers, order) == HeaderLines(headers, order[..n]) + [line];
    }
  }

  lemma HeaderPrints(name: string, values: seq<string>)
    requires HeaderOk(name, values)
    ensures name != HOST && Prints(name + ": " + Join(values, "; ") + "\n", [name + ": " + Join(values, "; ")])
  {
    HeaderLineTrims(name, values[0]);
    PrintsOne(name + ": " + Join(values, "; "));
  }

  lemma NamePrints(r: Request)
    requires NameOk(r.name)
    ensures Prints(NameText(r), NameLines(r))
  {
    if r.name != "" {
      PrintsOne("# @name " + r.name);
    }
  }

  lemma RequestLinePrints(lib: Library, r: Request)
    requires WellFormed(lib, r)
    ensures Prints(RequestText(lib, r), [RequestLine(lib, r)])
  {
    hide WellFormed, TokensOk;
    TokensAreOk(lib, r);
    ProtoIsSet(lib, r);
    RequestLineShape(r.verb, lib.render(r.url), r.proto);
    PrintsOne(RequestLine(lib, r));
  }

  lemma ProtoIsSet(lib: Library, r: Request)
    requires WellFormed(lib, r)
    ensures r.proto != ""
  {
  }

  lemma HostPrints(r: Request)
    requires HostOk(r)
    ensures Prints(HostText(r), HostLines(r))
  {
    if WritesHost(r) {
      PrintsOne("Host: " + r.host);
    }
  }

  lemma BodyPrints(r: Request)
    requires BodyOk(r.body)
    ensures Prints(BodyText(r), BodyLines(r))
  {
    hide Plain, IsResponseHandler, IsExternalBodyReference, TrimSpace;
    if r.body != "" {
      SplitJoins(r.body);
      PrintsOne("");
      assert "" + "\n" == "\n";
      PrintsBoth("\n", [""], r.body + "\n", SplitLines(r.body));
    }
  }

  lemma RequestPrints(lib: Library, r: Request, order: seq<string>)
    requires WellFormed(lib, r) && Orders(r.headers, order)
    ensures Prints(RequestScript(lib, r, order), RequestLines(lib, r, order))
  {
    hide Prints, HeaderOk, HeaderText, HeaderLines, BodyText, BodyLines, HostText, HostLines, NameText, NameLines, RequestText, RequestLine;
    NamePrints(r);
    RequestLinePrints(lib, r);
    HostPrints(r);
    HeadersPrint(r.headers, order);
    BodyPrints(r);
    PrintsBoth(NameText(r), NameLines(r), RequestText(lib, r), [RequestLine(lib, r)]);
    PrintsBoth(NameText(r) + RequestText(lib, r), NameLines(r) + [RequestLine(lib, r)], HostText(r), HostLines(r));
    PrintsBoth(NameText(r) + RequestText(lib, r) + HostText(r), NameLines(r) + [RequestLine(lib, r)] + HostLines(r),
               HeaderText(r.headers, order), HeaderLines(r.headers, order));
    PrintsBoth(NameText(r) + RequestText(lib, r) + HostText(r) + HeaderText(r.headers, order),
               NameLines(r) + [RequestLine(lib, r)] + HostLines(r) + HeaderLines(r.headers, order), BodyText(r), BodyLines(r));
  }

  lemma {:induction false} ScriptPrints(lib: Library, entries: seq<Request>, orders: seq<seq<string>>)
    requires AllWellFormed(lib, entries) && OrdersAll(entries, orders)
    ensures Prints(Script(lib, entries, orders), ScriptLines(lib, entries, orders))
  {
    hide WellFormed, RequestScript, RequestLines, Orders;
    if entries != [] {
      var entry, lines := RequestScript(lib, entries[0], orders[0]), RequestLines(lib, entries[0], orders[0]);
      RequestPrints(lib, entries[0], orders[0]);
      if |entries| > 1 {
        ScriptPrints(lib, entries[1..], orders[1..]);
        PrintsOne(REQUEST_SEPARATOR);
        PrintsBoth(entry, lines, "###\n", [REQUEST_SEPARATOR]);
        PrintsBoth(entry + "###\n", lines + [REQUEST_SEPARATOR],
                   Script(lib, entries[1..], orders[1..]), ScriptLines(lib, entries[1..], orders[1..]));
      }
    }
  }

  /** Printing and parsing is the identity on every list of well-formed requests, whatever order
      the headers are written in: names, protocol, an overriding host and bodies included. */
  lemma PrintThenParse(lib: Library, entries: seq<Request>, orders: seq<seq<string>>)
    requires AllWellFormed(lib, entries) && OrdersAll(entries, orders)
    ensures Parse(lib, Script(lib, entries, orders)) == Requests(entries)
  {
    hide Script, ScriptLines, ParseLines, Lines, Terminate, IsLine;
    ScriptPrints(lib, entries, orders);
    LinesReadBack(ScriptLines(lib, entries, orders));
    EntriesRoundTrip(lib, entries, orders);
  }

  // ----- which headers survive -----

  /** The request with the values of each header joined, as the writer joins them. */
  function Collapsed(r: Request): Request {
    r.(headers := map n | n in r.headers :: [Join(r.headers[n], "; ")])
  }

  function CollapsedAll(entries: seq<Request>): (collapsed: seq<Request>)
    ensures |collapsed| == |entries| && forall i :: 0 <= i < |entries| ==> collapsed[i] == Collapsed(entries[i])
  {
    seq(|entries|, i requires 0 <= i < |entries| => Collapsed(entries[i]))
  }

  predicate SingleValued(r: Request) {
    forall n :: n in r.headers ==> |r.headers[n]| == 1
  }

  lemma {:induction false} HeadersCollapse(r: Request, order: seq<string>)
    requires forall i :: 0 <= i < |order| ==> order[i] in r.headers
    ensures HeaderText(Collapsed(r).headers, order) == HeaderText(r.headers, order)
  {
    if order != [] {
      HeadersCollapse(r, order[..|order| - 1]);
    }
  }

  lemma EntryCollapses(lib: Library, r: Request, order: seq<string>)
    requires Orders(r.headers, order)
    ensures Orders(Collapsed(r).headers, order) && RequestScript(lib, Collapsed(r), order) == RequestScript(lib, r, order)
  {
    hide HeaderText;
    HeadersCollapse(r, order);
  }

  lemma {:induction false} ScriptCollapses(lib: Library, entries: seq<Request>, orders: seq<seq<string>>)
    requires OrdersAll(entries, orders)
    ensures OrdersAll(CollapsedAll(entries), orders)
    ensures Script(lib, CollapsedAll(entries), orders) == Script(lib, entries, orders)
  {
    hide Orders, Collapsed, RequestScript;
    forall i | 0 <= i < |entries| ensures Orders(CollapsedAll(entries)[i].headers, orders[i]) {
      EntryCollapses(lib, entries[i], orders[i]);
    }
    if entries != [] {
      EntryCollapses(lib, entries[0], orders[0]);
      ScriptCollapses(lib, entries[1..], orders[1..]);
      assert CollapsedAll(entries)[1..] == CollapsedAll(entries[1..]);
    }
  }

  lemma CollapsesToItself(r: Request)
    ensures Collapsed(r) == r <==> SingleValued(r)
  {
    if SingleValued(r) {
      forall n | n in r.headers ensures Collapsed(r).headers[n] == r.headers[n] {
        assert r.headers[n] == [r.headers[n][0]];
      }
      assert Collapsed(r).headers == r.headers;
    } else {
      var n :| n in r.headers && |r.headers[n]| != 1;
      assert |Collapsed(r).headers[n]| == 1;
    }
  }

  /** A header with several values is written on one line and reads back as one value. So when
      the requests are well-formed but for that, printing and parsing gives each with its values
      joined, and is the identity if and only if every header has a single value. */
  lemma SurvivesIffSingleValued(lib: Library, entries: seq<Request>, orders: seq<seq<string>>)
    requires AllWellFormed(lib, CollapsedAll(entries)) && OrdersAll(entries, orders)
    ensures Parse(lib, Script(lib, entries, orders)) == Requests(CollapsedAll(entries))
    ensures Parse(lib, Script(lib, entries, orders)) == Requests(entries)
       <==> forall i :: 0 <= i < |entries| ==> SingleValued(entries[i])
  {
    hide WellFormed, Orders, Script, Parse, Collapsed, SingleValued;
    ScriptCollapses(lib, entries, orders);
    PrintThenParse(lib, CollapsedAll(entries), orders);
    forall i | 0 <= i < |entries| ensures CollapsedAll(entries)[i] == entries[i] <==> SingleValued(entries[i]) {
      CollapsesToItself(entries[i]);
    }
  }
}
