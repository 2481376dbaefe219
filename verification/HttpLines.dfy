/**
 What each kind of line does to the reader, told by what the line looks like: which characters
 make it a separator, a comment, a declaration, a request line, a header, a handler or payload,
 and what is then remembered or refused. `Expand` is what `HttpExpand` says it is.
 */
module HttpLines {
  import opened Options
  import opened HttpText
  import opened HttpParser
  import opened HttpConcat
  import opened HttpRoundTrip
  import opened HttpExpand

  /** One line further, nothing else. */
  function Next(p: Parser): Parser {
    p.(lineNo := p.lineNo + 1)
  }

  // ----- parts of texts -----

  predicate OccursAt(s: string, part: string, i: nat) {
    i + |part| <= |s| && s[i..i + |part|] == part
  }

  ghost predicate Occurs(s: string, part: string) {
    exists i: nat :: OccursAt(s, part, i)
  }

  lemma OccursFurther(s: string, part: string, i: nat)
    requires s != ""
    ensures OccursAt(s[1..], part, i) <==> OccursAt(s, part, i + 1)
  {
    if i + |part| <= |s| - 1 {
      assert s[1..][i..i + |part|] == s[i + 1..i + 1 + |part|];
    }
  }

  lemma OccursFirst(s: string, part: string)
    ensures OccursAt(s, part, 0) <==> HasPrefix(s, part)
  {
    if |part| <= |s| {
      assert s[0..|part|] == s[..|part|];
    }
  }

  lemma {:induction false} ContainsIff(s: string, part: string)
    ensures Contains(s, part) <==> Occurs(s, part)
  {
    hide OccursAt;
    OccursFirst(s, part);
    if s != "" {
      ContainsIff(s[1..], part);
      forall i: nat ensures OccursAt(s[1..], part, i) <==> OccursAt(s, part, i + 1) {
        OccursFurther(s, part, i);
      }
      assert forall i: nat :: OccursAt(s, part, i) && i > 0 ==> OccursAt(s[1..], part, i - 1);
    } else {
      NothingFurther(part);
    }
  }

  lemma NothingFurther(part: string)
    ensures forall i: nat :: OccursAt("", part, i) ==> i == 0
  {
  }

  predicate AllIn(s: string, chars: set<char>) {
    forall i :: 0 <= i < |s| ==> s[i] in chars
  }

  lemma {:induction false} TrimLeftOfIs(marks: string, rest: string, chars: set<char>)
    requires AllIn(marks, chars) && (rest != "" ==> rest[0] !in chars)
    ensures TrimLeftOf(marks + rest, chars) == rest
  {
    if marks == "" {
      assert marks + rest == rest;
    } else {
      assert (marks + rest)[1..] == marks[1..] + rest;
      TrimLeftOfIs(marks[1..], rest, chars);
    }
  }

  // ----- line ends -----

  /** A carriage return before the line feed is part of the terminator. */
  function TerminateCrlf(lines: seq<string>): string {
    if lines == [] then "" else lines[0] + "\r\n" + TerminateCrlf(lines[1..])
  }

  lemma {:induction false} CrlfReadsBack(lines: seq<string>)
    requires forall i :: 0 <= i < |lines| ==> IsLine(lines[i])
    ensures Lines(TerminateCrlf(lines)) == lines
  {
    if lines != [] {
      var rest := TerminateCrlf(lines[1..]);
      assert lines[0] + "\r\n" + rest == (lines[0] + "\r") + ['\n'] + rest;
      CutAt(lines[0] + "\r", '\n', rest);
      assert (lines[0] + "\r")[..|lines[0]|] == lines[0];
      CrlfReadsBack(lines[1..]);
    }
  }

  /** The last line needs no terminator. */
  lemma {:induction false} LastLineCounts(lines: seq<string>, last: string)
    requires last != "" && IsLine(last) && forall i :: 0 <= i < |lines| ==> IsLine(lines[i])
    ensures Lines(Terminate(lines) + last) == lines + [last]
  {
    if lines == [] {
      CutNone(last, '\n');
      assert Terminate(lines) + last == last;
    } else {
      var rest := Terminate(lines[1..]) + last;
      assert Terminate(lines) + last == lines[0] + ['\n'] + rest;
      CutAt(lines[0], '\n', rest);
      LastLineCounts(lines[1..], last);
    }
  }

  // ----- handlers -----

  /** Inside a response handler nothing counts but the marker that closes it. */
  lemma HandlerLineRead(lib: Library, p: Parser, line: string)
    requires p.inHandler && IsLine(line)
    ensures OnLine(lib, p, line) == Ok(Next(p).(inHandler := !Occurs(line, "%}")))
  {
    ContainsIff(line, "%}");
  }

  // ----- separators and blank lines -----

  /** Three number signs or more end a request, anywhere outside a handler, and what follows them
      titles the next. */
  lemma SeparatorRead(lib: Library, p: Parser, line: string, marks: string, text: string, title: string)
    requires !p.inHandler && IsLine(line) && Surrounds(line, marks + text)
    requires |marks| >= 3 && AllIn(marks, {'#'}) && (text != "" ==> text[0] != '#') && Surrounds(text, title)
    ensures OnLine(lib, p, line) == match FinishRequest(lib, Next(p)) {
      case Fail(n, kind) => Fail(n, kind)
      case Ok(q) => Ok(q.(name := title)) }
  {
    hide FinishRequest, OnContent, StripFrom, OnBlankLine;
    SurroundedIsTrimmed(line, marks + text);
    SurroundedIsTrimmed(text, title);
    assert (marks + text)[..3] == "###";
    TrimLeftOfIs(marks, text, {'#'});
  }

  /** A blank line does nothing before a request line; after one that has a method, a header or a
      host it opens the payload, and after a bare URL it ends the request. */
  lemma BlankRead(lib: Library, p: Parser, line: string)
    requires !p.inHandler && p.position != AtBody && IsLine(line) && AllSpace(line)
    ensures OnLine(lib, p, line) ==
      if p.position == AtRequestLine then Ok(Next(p))
      else if p.verb == "" && p.hostHeader == "" && p.headers == map[] then FinishRequest(lib, Next(p))
      else Ok(Next(p).(position := AtBody))
  {
    hide FinishRequest, OnContent, StripFrom, OnSeparator;
    SpaceIsBlank(line);
  }

  lemma SpaceIsBlank(line: string)
    requires AllSpace(line)
    ensures TrimSpace(line) == ""
  {
    TrimSpaceIs(line, "", "");
    assert line + "" + "" == line;
  }

  // ----- comments -----

  predicate IsComment(whole: string, rest: string) {
    whole == "//" + rest || (whole == "#" + rest && !HasPrefix(rest, "##"))
  }

  lemma CommentCut(lib: Library, p: Parser, line: string, whole: string, rest: string, text: string)
    requires !p.inHandler && p.position != AtBody && IsLine(line) && Surrounds(line, whole)
    requires IsComment(whole, rest) && Surrounds(rest, text)
    ensures OnLine(lib, p, line) == Ok(OnComment(Next(p), text))
  {
    hide OnSeparator, OnContent, StripFrom, OnBlankLine, OnComment, TrimSpace, OnBodyLine, Fields;
    SurroundedIsTrimmed(line, whole);
    SurroundedIsTrimmed(rest, text);
    if whole == "//" + rest {
      assert whole[2..] == rest;
    } else {
      assert whole[1..] == rest;
      ThreeMarks(rest);
    }
  }

  lemma ThreeMarks(rest: string)
    ensures HasPrefix("#" + rest, "###") <==> HasPrefix(rest, "##")
  {
    assert ("#" + rest)[1..] == rest;
    if HasPrefix(rest, "##") {
      assert "#" + rest == "###" + rest[2..];
    }
  }

  /** A comment says nothing unless its first word is the name marker. */
  lemma OtherCommentRead(lib: Library, p: Parser, line: string, whole: string, rest: string, text: string)
    requires !p.inHandler && p.position != AtBody && IsLine(line) && Surrounds(line, whole)
    requires IsComment(whole, rest) && Surrounds(rest, text) && text != "@name" && !HasPrefix(text, "@name ")
    ensures OnLine(lib, p, line) == Ok(Next(p))
  {
    hide OnLine;
    CommentCut(lib, p, line, whole, rest, text);
    var cut := Cut(text, ' ');
    CutSplits(text, ' ');
    assert cut.found ==> HasPrefix(text, cut.before + [' ']);
    assert "@name" + [' '] == "@name ";
  }

  /** With the marker it names the request, with or without an equals sign. */
  lemma NameCommentRead(lib: Library, p: Parser, line: string, whole: string, rest: string, argument: string, given: string, name: string)
    requires !p.inHandler && p.position != AtBody && IsLine(line) && Surrounds(line, whole)
    requires IsComment(whole, rest) && Surrounds(rest, "@name " + argument) && Surrounds(argument, given)
    requires if given != "" && given[0] == '=' then Surrounds(given[1..], name) else name == given
    ensures OnLine(lib, p, line) == Ok(Next(p).(name := name))
  {
    hide OnLine;
    CommentCut(lib, p, line, whole, rest, "@name " + argument);
    assert "@name " + argument == "@name" + [' '] + argument;
    CutAt("@name", ' ', argument);
    SurroundedIsTrimmed(argument, given);
    if given != "" && given[0] == '=' {
      SurroundedIsTrimmed(given[1..], name);
    } else {
      TrimmedStays(given);
    }
  }

  // ----- lines with something to say -----

  /** `whole` is `content` with a comment behind white space. */
  predicate CommentBehind(whole: string, content: string, g: nat) {
    && |content| < g < |whole| && whole[..|content|] == content && AllSpace(whole[|content|..g])
    && whole[g] == '#' && (whole[g - 1] == ' ' || whole[g - 1] == '\t')
  }

  /** No number sign follows a blank or a tab. */
  predicate Commentless(content: string) {
    forall i :: 0 < i < |content| && content[i] == '#' ==> content[i - 1] != ' ' && content[i - 1] != '\t'
  }

  /** The line comes to `content`, white space around it and a trailing comment aside. */
  ghost predicate Says(line: string, content: string) {
    && IsLine(line) && content != "" && Trimmed(content) && Commentless(content)
    && content[0] != '#' && !HasPrefix(content, "//")
    && (Surrounds(line, content) || exists whole, g: nat :: Surrounds(line, whole) && CommentBehind(whole, content, g))
  }

  lemma {:induction false} StripStops(whole: string, i: nat, g: nat)
    requires 0 < i <= g < |whole| && OpensComment(whole, g) && forall j :: i <= j < g ==> !OpensComment(whole, j)
    ensures StripFrom(whole, i) == TrimSpace(whole[..g])
    decreases g - i
  {
    if i < g {
      StripStops(whole, i + 1, g);
    }
  }

  lemma CommentGoes(whole: string, content: string, g: nat)
    requires content != "" && Trimmed(content) && Commentless(content) && content[0] != '#' && !HasPrefix(content, "//")
    requires CommentBehind(whole, content, g)
    ensures StripTrailingComment(whole) == content && !HasPrefix(whole, "#") && !HasPrefix(whole, "//")
  {
    var n := |content|;
    assert forall i :: 0 <= i < n ==> whole[i] == whole[..n][i];
    assert forall i :: n <= i < g ==> whole[i] == whole[n..g][i - n];
    assert whole[n] == whole[n..g][0];
    StripStops(whole, 1, g);
    assert whole[..g] == "" + content + whole[n..g];
    TrimSpaceIs("", content, whole[n..g]);
    assert n == 1 ==> IsSpace(whole[1]);
    assert n > 1 && HasPrefix(whole, "//") ==> HasPrefix(content, "//");
  }

  lemma SaysContent(lib: Library, p: Parser, line: string, content: string)
    requires !p.inHandler && p.position != AtBody && Says(line, content)
    ensures !IsSpace(content[|content| - 1])
    ensures OnLine(lib, p, line) == OnContent(lib, Next(p), content)
  {
    hide OnContent, OnSeparator, OnBodyLine, OnBlankLine;
    if Surrounds(line, content) {
      SurroundedIsTrimmed(line, content);
      CommentFreeStays(content, 1);
    } else {
      var whole, g: nat :| Surrounds(line, whole) && CommentBehind(whole, content, g);
      SurroundedIsTrimmed(line, whole);
      CommentGoes(whole, content, g);
    }
  }

  // ----- declarations -----

  /** The outcome of a line whose text expands: an error of this line, or what becomes of it. */
  ghost predicate Expands(p: Parser, text: string, outcome: Outcome, next: string -> Parser) {
    match Expand(p.variables, text)
    case Unresolved(kind) => outcome == Fail(p.lineNo + 1, kind)
    case Expanded(value) => outcome == Ok(next(value))
  }

  /** Before a request line, a name and a value about an equals sign declare a variable, expanded
      with what is declared already. */
  lemma VariableRead(lib: Library, p: Parser, line: string, left: string, right: string, name: string, text: string)
    requires !p.inHandler && p.position == AtRequestLine && Says(line, "@" + left + "=" + right)
    requires Lacks(left, '=') && Surrounds(left, name) && name != "" && Surrounds(right, text)
    ensures Expands(p, text, OnLine(lib, p, line), value => Next(p).(variables := p.variables[name := value]))
  {
    hide OnLine, Expand, Says, Surrounds, TrimSpace, Fields, StartsShortFormRequest;
    var content := "@" + left + "=" + right;
    SaysContent(lib, p, line, content);
    VariableParts(left, right, name, text);
  }

  lemma VariableParts(left: string, right: string, name: string, text: string)
    requires Lacks(left, '=') && Surrounds(left, name) && Surrounds(right, text)
    ensures var content := "@" + left + "=" + right; var cut := Cut(TrimPrefix(content, "@"), '=');
      HasPrefix(content, "@") && cut.found && TrimSpace(cut.before) == name && TrimSpace(cut.after) == text
  {
    var content := "@" + left + "=" + right;
    assert content[1..] == left + ['='] + right && HasPrefix(content, "@");
    CutAt(left, '=', right);
    hide TrimSpace;
    SurroundedIsTrimmed(left, name);
    SurroundedIsTrimmed(right, text);
  }

  /** Without a name or an equals sign it is malformed; after a request line it is no header. */
  lemma VariableRefused(lib: Library, p: Parser, line: string, rest: string, left: string, right: string)
    requires !p.inHandler && p.position != AtBody && Says(line, "@" + rest)
    requires p.position == AtHeaders || Lacks(rest, '=') || (rest == left + "=" + right && AllSpace(left))
    ensures OnLine(lib, p, line) == Fail(p.lineNo + 1, if p.position == AtHeaders then MalformedHeader else MalformedRequestLine)
  {
    hide OnLine;
    var content := "@" + rest;
    SaysContent(lib, p, line, content);
    assert content[1..] == rest && HasPrefix(content, "@");
    if p.position == AtRequestLine {
      if Lacks(rest, '=') {
        CutNone(rest, '=');
      } else {
        SpaceLacksSign(left);
        assert rest == left + ['='] + right;
        CutAt(left, '=', right);
        SpaceIsBlank(left);
      }
    }
  }

  lemma SpaceLacksSign(left: string)
    requires AllSpace(left)
    ensures Lacks(left, '=')
  {
  }

  // ----- request lines -----

  predicate IsWord(s: string) {
    s != "" && NoSpace(s)
  }

  predicate AreWords(words: seq<string>) {
    words != [] && forall i :: 0 <= i < |words| ==> IsWord(words[i])
  }

  predicate IsVerb(s: string) {
    s != "" && forall i :: 0 <= i < |s| ==> 'A' <= s[i] <= 'Z' || 'a' <= s[i] <= 'z' || s[i] in {'-', '_'}
  }

  lemma {:induction false} WordsRead(words: seq<string>)
    requires AreWords(words)
    ensures Fields(Join(words, " ")) == words
  {
    if |words| == 1 {
      FieldsSpaced(words[0], "");
    } else {
      WordsRead(words[1..]);
      FieldsSpaced(words[0], Join(words[1..], " "));
    }
  }

  lemma FirstIsWord(words: seq<string>)
    requires AreWords(words)
    ensures words[0] != "" && Join(words, " ") != "" && Join(words, " ")[0] == words[0][0]
  {
  }

  /** One word is a URL; two are a method and a URL, three add the protocol; more, or a first word
      that is no method, are malformed. The URL is expanded, and the line remembered. */
  lemma RequestWordsRead(lib: Library, p: Parser, line: string, words: seq<string>)
    requires !p.inHandler && p.position == AtRequestLine && AreWords(words) && words[0][0] != '@' && Says(line, Join(words, " "))
    ensures if |words| > 3 || (|words| > 1 && !IsVerb(words[0])) then OnLine(lib, p, line) == Fail(p.lineNo + 1, MalformedRequestLine)
      else Expands(p, words[if |words| == 1 then 0 else 1], OnLine(lib, p, line), target =>
        Next(p).(requestLineNo := p.lineNo + 1, position := AtHeaders, target := target,
                 verb := if |words| == 1 then p.verb else words[0],
                 protoVersion := if |words| == 3 then words[2] else p.protoVersion))
  {
    hide OnLine, Expand, Fields, StartsShortFormRequest, OnHeaderLine, OnVariable, Says, NoSpace, OnRequestLine, Join;
    var content := Join(words, " ");
    SaysContent(lib, p, line, content);
    WordsRead(words);
    FirstIsWord(words);
    WordsMove(Next(p), content, words);
  }

  lemma WordsMove(p: Parser, content: string, words: seq<string>)
    requires Fields(content) == words != []
    ensures if |words| > 3 || (|words| > 1 && !IsVerb(words[0])) then OnRequestLine(p, content) == Fail(p.lineNo, MalformedRequestLine)
      else match Expand(p.variables, words[if |words| == 1 then 0 else 1]) {
        case Unresolved(kind) => OnRequestLine(p, content) == Fail(p.lineNo, kind)
        case Expanded(target) => OnRequestLine(p, content) ==
          Ok(p.(requestLineNo := p.lineNo, position := AtHeaders, target := target,
                verb := if |words| == 1 then p.verb else words[0],
                protoVersion := if |words| == 3 then words[2] else p.protoVersion)) }
  {
    hide Fields, Expand;
    VerbIsMethod(words[0]);
  }

  lemma VerbIsMethod(word: string)
    ensures IsVerb(word) <==> IsMethodToken(word)
  {
  }

  // ----- headers -----

  /** The same letters, whatever their case. */
  predicate SameLetters(a: string, b: string) {
    |a| == |b| && forall i :: 0 <= i < |a| ==> Lower(a[i]) == Lower(b[i])
  }

  function Lower(c: char): char {
    if 'A' <= c <= 'Z' then c - 'A' + 'a' else c
  }

  function Upper(c: char): char {
    if 'a' <= c <= 'z' then c - 'a' + 'A' else c
  }

  function Cased(c: char, upper: bool): char {
    if upper then Upper(c) else Lower(c)
  }

  /** The canonical form of a header name made of token characters: upper case at the start and
      after each dash, lower case elsewhere; any other name is its own. */
  ghost predicate IsCanonical(name: string, key: string) {
    if IsToken(name) then
      |key| == |name| && forall i :: 0 <= i < |name| ==> HasLetter(name, key, i)
    else key == name
  }

  predicate HasLetter(name: string, key: string, i: nat)
    requires i < |name| == |key|
  {
    key[i] == Cased(name[i], i == 0 || name[i - 1] == '-')
  }

  lemma {:induction false} CanonicalLetters(s: string, upper: bool)
    ensures var t := CanonicalFrom(s, upper);
      |t| == |s| && forall i :: 0 <= i < |s| ==> t[i] == Cased(s[i], if i == 0 then upper else s[i - 1] == '-')
  {
    if s != "" {
      var t, c := CanonicalFrom(s, upper), Cased(s[0], upper);
      assert t == [c] + CanonicalFrom(s[1..], c == '-') && (c == '-' <==> s[0] == '-');
      CanonicalLetters(s[1..], c == '-');
      forall i | 0 <= i < |s| ensures t[i] == Cased(s[i], if i == 0 then upper else s[i - 1] == '-') {
        if i > 0 {
          assert t[i] == CanonicalFrom(s[1..], c == '-')[i - 1] && s[1..][i - 1] == s[i];
        }
      }
    }
  }

  lemma KeyIsCanonical(name: string)
    ensures IsCanonical(name, CanonicalKey(name))
  {
    CanonicalLetters(name, true);
    if IsToken(name) {
      forall i | 0 <= i < |name| ensures HasLetter(name, CanonicalKey(name), i) {
        assert CanonicalKey(name)[i] == Cased(name[i], if i == 0 then true else name[i - 1] == '-');
      }
    }
  }

  lemma CaseIsOnlyCase(c: char, upper: bool)
    ensures Lower(Cased(c, upper)) == Lower(c)
  {
  }

  /** One value more under the canonical name, after those it has. */
  ghost predicate Adds(before: Headers, after: Headers, name: string, value: string) {
    exists key :: IsCanonical(name, key) && after == before[key := (if key in before then before[key] else []) + [value]]
  }

  ghost predicate HeaderExpands(p: Parser, text: string, outcome: Outcome, name: string) {
    match Expand(p.variables, text)
    case Unresolved(kind) => outcome == Fail(p.lineNo + 1, kind)
    case Expanded(value) =>
      && outcome.Ok? && outcome.parser == Next(p).(headers := outcome.parser.headers)
      && Adds(p.headers, outcome.parser.headers, name, value)
  }

  lemma HeaderIsAdded(headers: Headers, name: string, value: string)
    ensures Adds(headers, AddHeader(headers, name, value), name, value)
  {
    KeyIsCanonical(name);
  }

  lemma HostByAnyCase(name: string)
    ensures CanonicalKey(name) == "Host" <==> SameLetters(name, "host")
  {
    KeyIsCanonical(name);
    var key := CanonicalKey(name);
    if SameLetters(name, "host") {
      assert IsToken(name) by {
        forall i | 0 <= i < 4 ensures IsTokenChar(name[i]) {
          assert Lower(name[i]) == Lower("host"[i]);
        }
      }
      forall i | 0 <= i < 4 ensures key[i] == "Host"[i] {
        assert Lower(name[i]) == Lower("host"[i]);
        assert i > 0 ==> Lower(name[i - 1]) == Lower("host"[i - 1]);
        assert HasLetter(name, key, i);
      }
      assert key == "Host";
    } else if key == "Host" {
      HostHasLetters(name, key);
    }
  }

  lemma LetterIsCased(name: string, key: string, i: nat)
    requires IsCanonical(name, key) && IsToken(name) && i < |name|
    ensures |key| == |name| && Lower(key[i]) == Lower(name[i])
  {
    assert HasLetter(name, key, i);
    CaseIsOnlyCase(name[i], i == 0 || name[i - 1] == '-');
  }

  lemma HostHasLetters(name: string, key: string)
    requires IsCanonical(name, key) && key == "Host"
    ensures SameLetters(name, "host")
  {
    assert |key| == |name|;
    forall i | 0 <= i < 4 ensures Lower(name[i]) == Lower("host"[i]) {
      assert key[i] == "Host"[i] && Lower("Host"[i]) == Lower("host"[i]);
      if IsToken(name) {
        LetterIsCased(name, key, i);
      } else {
        assert key[i] == name[i];
      }
    }
  }

  /** A single word that reads as a URL: no colon, or before the first one a dot, a slash or the
      name of a web scheme. */
  predicate LooksLikeUrl(content: string, before: string) {
    NoSpace(content)
    && (before == content
        || (exists i :: 0 <= i < |before| && (before[i] == '.' || before[i] == '/'))
        || SameLetters(before, "http") || SchemeWithS(before))
  }

  /** "https" in any case; case folding also takes the long s for an s. */
  predicate SchemeWithS(before: string) {
    |before| == 5 && SameLetters(before[..4], "http") && before[4] in {'s', 'S', '\U{17F}'}
  }

  /** `before` is what stands before the first colon, all of it when there is none. */
  predicate BeforeColon(content: string, before: string) {
    Lacks(before, ':') && (content == before || HasPrefix(content, before + ":"))
  }

  lemma WordIsAlone(content: string)
    requires content != "" && Trimmed(content)
    ensures |Fields(content)| == 1 <==> NoSpace(content)
  {
    if NoSpace(content) {
      FieldsSpaced(content, "");
    } else {
      WordLengthStops(content);
      var n := WordLength(content);
      assert content[..|content|] == content;
      WordsExist(content[n..]);
    }
  }

  lemma {:induction false} ColonCuts(content: string, before: string)
    requires BeforeColon(content, before)
    ensures var cut := Cut(content, ':'); cut.before == before && (cut.found <==> content != before)
  {
    if content == before {
      CutNone(content, ':');
    } else {
      assert content == before + [':'] + content[|before| + 1..];
      CutAt(before, ':', content[|before| + 1..]);
    }
  }

  lemma FoldsToWeb(before: string)
    ensures EqualFold(before, "http") || EqualFold(before, "https") <==> SameLetters(before, "http") || SchemeWithS(before)
  {
    assert forall c: char :: Fold(c) == Lower(c) || (c == '\U{17F}' && Fold(c) == 's');
    if |before| == 5 {
      assert forall i :: 0 <= i < 4 ==> before[..4][i] == before[i];
    }
  }

  lemma UrlStartsRequest(content: string, before: string)
    requires content != "" && Trimmed(content) && BeforeColon(content, before)
    ensures StartsShortFormRequest(content) <==> LooksLikeUrl(content, before)
  {
    WordIsAlone(content);
    ColonCuts(content, before);
    FoldsToWeb(before);
  }

  /** After a request line a name and a value about the first colon are a header, the value expanded;
      a Host header is kept aside, the others are added; no name is no header. */
  lemma HeaderRead(lib: Library, p: Parser, line: string, left: string, right: string, name: string, text: string)
    requires !p.inHandler && p.position == AtHeaders && Says(line, left + ":" + right)
    requires Lacks(left, ':') && Surrounds(left, name) && Surrounds(right, text)
    requires !HasPrefix(left + ":" + right, "@") && !LooksLikeUrl(left + ":" + right, left)
    ensures name == "" ==> OnLine(lib, p, line) == Fail(p.lineNo + 1, MalformedHeader)
    ensures name != "" && SameLetters(name, "host") ==>
      Expands(p, text, OnLine(lib, p, line), value => Next(p).(hostHeader := value))
    ensures name != "" && !SameLetters(name, "host") ==> HeaderExpands(p, text, OnLine(lib, p, line), name)
  {
    hide OnLine, Expand, CanonicalKey, StartsShortFormRequest, LooksLikeUrl, AddHeader, Adds;
    var content := left + ":" + right;
    SaysContent(lib, p, line, content);
    UrlStartsRequest(content, left);
    SurroundedIsTrimmed(left, name);
    SurroundedIsTrimmed(right, text);
    assert content == left + [':'] + right;
    CutAt(left, ':', right);
    HostByAnyCase(name);
    match Expand(p.variables, text) {
      case Unresolved(_) =>
      case Expanded(value) => HeaderIsAdded(p.headers, name, value);
    }
  }

  /** Words without a colon are no header. */
  lemma HeaderRefused(lib: Library, p: Parser, line: string, content: string)
    requires !p.inHandler && p.position == AtHeaders && Says(line, content) && Lacks(content, ':')
    requires !HasPrefix(content, "@") && !NoSpace(content)
    ensures OnLine(lib, p, line) == Fail(p.lineNo + 1, MalformedHeader)
  {
    hide OnLine, Expand, StartsShortFormRequest;
    SaysContent(lib, p, line, content);
    UrlStartsRequest(content, content);
    CutNone(content, ':');
  }

  ghost predicate Begins(q: Parser, content: string, outcome: Outcome) {
    match Expand(q.variables, content)
    case Unresolved(kind) => outcome == Fail(q.lineNo, kind)
    case Expanded(target) => outcome == Ok(q.(requestLineNo := q.lineNo, position := AtHeaders, target := target))
  }

  /** A bare URL where a header might be ends the request and starts the next. */
  lemma ShortFormRead(lib: Library, p: Parser, line: string, content: string, before: string)
    requires !p.inHandler && p.position == AtHeaders && Says(line, content) && !HasPrefix(content, "@")
    requires BeforeColon(content, before) && LooksLikeUrl(content, before)
    ensures var finished := FinishRequest(lib, Next(p));
      if finished.Fail? then OnLine(lib, p, line) == finished else Begins(finished.parser, content, OnLine(lib, p, line))
  {
    hide OnLine, Expand, StartsShortFormRequest, FinishRequest, LooksLikeUrl;
    SaysContent(lib, p, line, content);
    UrlStartsRequest(content, before);
    UrlIsWord(content, before);
    FieldsSpaced(content, "");
  }

  lemma UrlIsWord(content: string, before: string)
    requires LooksLikeUrl(content, before)
    ensures NoSpace(content)
  {
  }

  // ----- payload -----

  /** A handler reference: a greater-than sign with more of them or exclamation marks, and then
      nothing, a blank, a tab or an opening marker. */
  predicate IsHandler(text: string, marks: string, rest: string) {
    && text == ">" + marks + rest && AllIn(marks, {'>', '!'}) && (rest != "" ==> rest[0] !in {'>', '!'})
    && (rest == "" || rest[0] == ' ' || rest[0] == '\t' || HasPrefix(rest, "{%"))
  }

  predicate IsFileReference(text: string) {
    |text| > 1 && text[0] == '<' && text[1] in {'@', ' ', '\t'}
  }

  lemma HandlerIff(text: string, marks: string, rest: string)
    requires text == ">" + marks + rest && AllIn(marks, {'>', '!'}) && (rest != "" ==> rest[0] !in {'>', '!'})
    ensures IsResponseHandler(text) <==> IsHandler(text, marks, rest)
  {
    assert text[1..] == marks + rest;
    TrimLeftOfIs(marks, rest, {'>', '!'});
  }

  lemma {:induction false} MarksSplit(s: string) returns (k: nat)
    ensures k <= |s| && AllIn(s[..k], {'>', '!'}) && (k < |s| ==> s[k] !in {'>', '!'})
  {
    k := 0;
    if s != "" && s[0] in {'>', '!'} {
      var n := MarksSplit(s[1..]);
      k := n + 1;
      assert s[..k] == [s[0]] + s[1..][..n];
    }
  }

  lemma FileReferenceIff(text: string)
    ensures IsExternalBodyReference(text) <==> IsFileReference(text)
  {
    if |text| > 1 {
      assert text[1..][0] == text[1];
    }
  }

  /** A handler reference is no payload; it opens a block unless it closes it on the same line. */
  lemma HandlerStarts(lib: Library, p: Parser, line: string, text: string, marks: string, rest: string)
    requires !p.inHandler && p.position == AtBody && IsLine(line) && Surrounds(line, text) && IsHandler(text, marks, rest)
    ensures OnLine(lib, p, line) == Ok(Next(p).(inHandler := Occurs(text, "{%") && !Occurs(text, "%}")))
  {
    hide Contains, IsResponseHandler, OnSeparator, Expand, IsExternalBodyReference;
    SurroundedIsTrimmed(line, text);
    HandlerIff(text, marks, rest);
    ContainsIff(text, "{%");
    ContainsIff(text, "%}");
  }

  /** A payload from a file is not supported. */
  lemma FileReferenceRefused(lib: Library, p: Parser, line: string, text: string)
    requires !p.inHandler && p.position == AtBody && IsLine(line) && Surrounds(line, text) && IsFileReference(text)
    ensures OnLine(lib, p, line) == Fail(p.lineNo + 1, Unsupported)
  {
    hide OnSeparator, Expand, IsExternalBodyReference;
    SurroundedIsTrimmed(line, text);
    FileReferenceIff(text);
  }

  /** Any other line is payload, white space and all, expanded. */
  lemma PayloadRead(lib: Library, p: Parser, line: string, text: string)
    requires !p.inHandler && p.position == AtBody && IsLine(line) && Surrounds(line, text)
    requires !HasPrefix(text, "###") && !IsFileReference(text)
    requires forall marks, rest :: !IsHandler(text, marks, rest)
    ensures Expands(p, line, OnLine(lib, p, line), value => Next(p).(body := p.body + [value]))
  {
    hide OnSeparator, Expand, IsExternalBodyReference, IsResponseHandler, Contains;
    SurroundedIsTrimmed(line, text);
    FileReferenceIff(text);
    NoHandler(text);
  }

  lemma NoHandler(text: string)
    requires forall marks, rest :: !IsHandler(text, marks, rest)
    ensures !IsResponseHandler(text)
  {
    if HasPrefix(text, ">") {
      var k := MarksSplit(text[1..]);
      var marks, rest := text[1..][..k], text[1..][k..];
      assert text == ">" + marks + rest;
      HandlerIff(text, marks, rest);
    }
  }

  // ----- the end of a request -----

  /** What a target says, once a target that is neither absolute nor rooted is read as an authority. */
  function Addressed(target: string, absolute: bool): string {
    if absolute || (target != "" && target[0] == '/') then target else "//" + target
  }

  /** The URL asked for: the parsed one, with the Host header for want of a host, and for want of a
      scheme plain when the port is 80 and secure otherwise. */
  ghost predicate AsksFor(lib: Library, parsed: Url, hostHeader: string, target: Url) {
    && target.rest == parsed.rest
    && target.host == (if parsed.host != "" then parsed.host else hostHeader)
    && target.scheme == (if parsed.scheme != "" then parsed.scheme else if lib.port(target.host) == "80" then "http" else "https")
  }

  predicate IsVersion(proto: string, major: nat, minor: nat) {
    && |proto| == 8 && proto[..5] == "HTTP/" && proto[6] == '.'
    && '0' <= proto[5] <= '9' && '0' <= proto[7] <= '9'
    && major == proto[5] as nat - '0' as nat && minor == proto[7] as nat - '0' as nat
  }

  /** The payload is the lines from the first to the last that is not blank. */
  ghost predicate IsPayload(lines: seq<string>, body: string) {
    exists i, j :: 0 <= i <= j <= |lines| && body == Join(lines[i..j], "\n") && OnlyBlank(lines[..i]) && OnlyBlank(lines[j..])
      && (i < j ==> !AllSpace(lines[i]) && !AllSpace(lines[j - 1]))
  }

  predicate OnlyBlank(lines: seq<string>) {
    forall i :: 0 <= i < |lines| ==> AllSpace(lines[i])
  }

  /** Every field of the request a block describes. */
  ghost predicate Describes(lib: Library, p: Parser, target: Url, r: Request) {
    && r.name == p.name && r.verb == (if p.verb == "" then "GET" else p.verb)
    && lib.newRequest(r.verb, lib.render(target)) == Some(r.url)
    && r.host == (if p.hostHeader != "" && p.hostHeader != target.host then p.hostHeader else r.url.host)
    && (if p.protoVersion == "" then r.proto == "HTTP/1.1" && r.major == 1 && r.minor == 1
        else r.proto == p.protoVersion && IsVersion(r.proto, r.major, r.minor))
    && r.headers == p.headers && IsPayload(p.body, r.body)
  }

  /** The block is forgotten; requests, variables and the place in the script are kept. */
  predicate Cleared(p: Parser, q: Parser) {
    && q.variables == p.variables && q.lineNo == p.lineNo && q.inHandler == p.inHandler
    && q.position == AtRequestLine && q.requestLineNo == 0 && q.name == "" && q.verb == "" && q.target == ""
    && q.protoVersion == "" && q.headers == map[] && q.hostHeader == "" && q.body == []
  }

  lemma BlankIffSpace(line: string)
    ensures TrimSpace(line) == "" <==> AllSpace(line)
  {
    if AllSpace(line) {
      SpaceIsBlank(line);
    }
    if TrimSpace(line) == "" {
      SomethingIsNamed(line);
      var k, m :| 0 <= k <= m <= |line| && line[k..m] == "" && AllSpace(line[..k]) && AllSpace(line[m..]);
      assert forall i :: 0 <= i < k ==> line[i] == line[..k][i];
      assert forall i :: m <= i < |line| ==> line[i] == line[m..][i - m];
    }
  }

  lemma {:induction false} BlankEndsGo(lines: seq<string>) returns (i: nat, j: nat)
    ensures i <= j <= |lines| && TrimBlankLines(lines) == lines[i..j] && OnlyBlank(lines[..i]) && OnlyBlank(lines[j..])
    ensures i < j ==> !AllSpace(lines[i]) && !AllSpace(lines[j - 1])
    decreases |lines|
  {
    hide AllSpace, TrimSpace;
    i, j := 0, |lines|;
    if lines != [] {
      BlankIffSpace(lines[0]);
      BlankIffSpace(lines[|lines| - 1]);
      if AllSpace(lines[0]) {
        var a, b := BlankEndsGo(lines[1..]);
        i, j := a + 1, b + 1;
        assert lines[1..][a..b] == lines[i..j] && lines[1..][b..] == lines[j..];
        assert lines[..i] == [lines[0]] + lines[1..][..a];
      } else if AllSpace(lines[|lines| - 1]) {
        var n := |lines| - 1;
        i, j := BlankEndsGo(lines[..n]);
        assert lines[..n][i..j] == lines[i..j] && lines[..n][..i] == lines[..i];
        assert lines[j..] == lines[..n][j..] + [lines[n]];
      } else {
        assert lines[0..|lines|] == lines;
      }
    }
  }

  lemma PayloadIsTrimmed(lines: seq<string>)
    ensures IsPayload(lines, Join(TrimBlankLines(lines), "\n"))
  {
    var i, j := BlankEndsGo(lines);
    assert Join(TrimBlankLines(lines), "\n") == Join(lines[i..j], "\n");
  }

  lemma VersionIff(proto: string)
    ensures ParseHttpVersion(proto).Some? ==> IsVersion(proto, ParseHttpVersion(proto).value.0, ParseHttpVersion(proto).value.1)
    ensures forall major: nat, minor: nat :: IsVersion(proto, major, minor) ==> ParseHttpVersion(proto) == Some((major, minor))
  {
    if |proto| == 8 {
      assert HasPrefix(proto, "HTTP/") <==> proto[..5] == "HTTP/";
    }
  }

  lemma TargetResolves(lib: Library, target: string, hostHeader: string)
    requires target != ""
    ensures var parsed := lib.parse(Addressed(target, Occurs(target, "://"))); var t := TargetUrl(lib, target, hostHeader);
      && (parsed.None? ==> t == Unresolvable(MalformedRequestLine))
      && (parsed.Some? && parsed.value.host == "" == hostHeader ==> t == Unresolvable(NoTargetHost))
      && (parsed.Some? && (parsed.value.host != "" || hostHeader != "") ==>
            t.Resolved? && AsksFor(lib, parsed.value, hostHeader, t.url))
  {
    hide Contains;
    ContainsIff(target, "://");
    assert HasPrefix(target, "/") <==> target[0] == '/';
  }

  /** Without a target there is no request. */
  lemma NothingFinishes(lib: Library, p: Parser)
    requires p.target == ""
    ensures FinishRequest(lib, p).Ok?
    ensures Cleared(p, FinishRequest(lib, p).parser) && FinishRequest(lib, p).parser.requests == p.requests
  {
  }

  /** A block with a target becomes exactly the request it describes, behind those before it; it is
      refused, at its request line, if and only if the target does not parse, names no host, or the
      method, the URL or the protocol is not acceptable. */
  lemma BlockFinishes(lib: Library, p: Parser, target: Url)
    requires p.target != "" && lib.parse(Addressed(p.target, Occurs(p.target, "://"))).Some?
    requires var parsed := lib.parse(Addressed(p.target, Occurs(p.target, "://"))).value;
      (parsed.host != "" || p.hostHeader != "") && AsksFor(lib, parsed, p.hostHeader, target)
    ensures var finished := FinishRequest(lib, p); var verb := if p.verb == "" then "GET" else p.verb;
      if lib.newRequest(verb, lib.render(target)).Some?
         && (p.protoVersion == "" || exists major: nat, minor: nat :: IsVersion(p.protoVersion, major, minor)) then
        && finished.Ok? && Cleared(p, finished.parser)
        && |finished.parser.requests| == |p.requests| + 1 && finished.parser.requests[..|p.requests|] == p.requests
        && Describes(lib, p, target, finished.parser.requests[|p.requests|])
      else finished == Fail(p.requestLineNo, MalformedRequestLine)
  {
    hide TargetUrl, Occurs, ParseHttpVersion, IsPayload, TrimBlankLines, Join;
    TargetResolves(lib, p.target, p.hostHeader);
    SameTarget(lib, lib.parse(Addressed(p.target, Occurs(p.target, "://"))).value, p.hostHeader, target, TargetUrl(lib, p.target, p.hostHeader).url);
    VersionIff(p.protoVersion);
    PayloadIsTrimmed(p.body);
  }

  lemma SameTarget(lib: Library, parsed: Url, hostHeader: string, a: Url, b: Url)
    requires AsksFor(lib, parsed, hostHeader, a) && AsksFor(lib, parsed, hostHeader, b)
    ensures a == b
  {
  }

  lemma BlockRefused(lib: Library, p: Parser)
    requires p.target != ""
    ensures var parsed := lib.parse(Addressed(p.target, Occurs(p.target, "://")));
      && (parsed.None? ==> FinishRequest(lib, p) == Fail(p.requestLineNo, MalformedRequestLine))
      && (parsed.Some? && parsed.value.host == "" == p.hostHeader ==> FinishRequest(lib, p) == Fail(p.requestLineNo, NoTargetHost))
  {
    hide TargetUrl, Occurs, ParseHttpVersion, TrimBlankLines, Join;
    TargetResolves(lib, p.target, p.hostHeader);
  }
}
