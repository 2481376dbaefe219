/**
 What expansion does, told without the function that does it: a text is plain stretches and
 references `{{name}}`, and each reference gives way to the value declared for its name. Then what
 that means for a script that declares a variable and uses it.
 */
module HttpExpand {
  import opened Options
  import opened HttpText
  import opened HttpParser
  import opened HttpConcat
  import opened HttpRoundTrip

  // ----- texts in pieces -----

  /** A plain stretch, or a reference with what stands between its braces. */
  datatype Piece = Stretch(text: string) | Reference(inside: string)

  predicate IsBrace(c: char) {
    c == '{' || c == '}'
  }

  predicate Braceless(s: string) {
    forall i :: 0 <= i < |s| ==> !IsBrace(s[i])
  }

  /** A reference opens here: two braces, no brace until two closing ones. */
  ghost predicate OpensReference(s: string) {
    exists n: nat :: IsReference(s, n)
  }

  predicate IsReference(s: string, n: nat) {
    4 + n <= |s| && s[..2] == "{{" && Braceless(s[2..2 + n]) && s[2 + n..4 + n] == "}}"
  }

  ghost predicate HasReference(s: string) {
    exists i :: 0 <= i <= |s| && OpensReference(s[i..])
  }

  /** Stretches hold no reference and do not touch one another; references hold no brace. */
  ghost predicate InPieces(pieces: seq<Piece>) {
    && (forall i :: 0 <= i < |pieces| ==>
          match pieces[i] case Stretch(text) => !HasReference(text) case Reference(inside) => Braceless(inside))
    && forall i :: 0 < i < |pieces| ==> pieces[i - 1].Reference? || pieces[i].Reference?
  }

  function TextOf(pieces: seq<Piece>): string {
    if pieces == [] then ""
    else (match pieces[0] case Stretch(text) => text case Reference(inside) => "{{" + inside + "}}") + TextOf(pieces[1..])
  }

  /** `inside` is the name with white space around it. */
  ghost predicate Surrounds(inside: string, name: string) {
    Trimmed(name) && exists k, m :: 0 <= k <= m <= |inside| && inside[k..m] == name && AllSpace(inside[..k]) && AllSpace(inside[m..])
  }

  predicate AllSpace(s: string) {
    forall i :: 0 <= i < |s| ==> IsSpace(s[i])
  }

  // ----- the name of a reference -----

  lemma {:induction false} LeftSpaceGoes(space: string, s: string)
    requires AllSpace(space) && (s != "" ==> !IsSpace(s[0]))
    ensures TrimLeftSpace(space + s) == s
  {
    if space == "" {
      assert space + s == s;
    } else {
      assert (space + s)[1..] == space[1..] + s;
      LeftSpaceGoes(space[1..], s);
    }
  }

  lemma {:induction false} RightSpaceGoes(s: string, space: string)
    requires AllSpace(space) && (s != "" ==> !IsSpace(s[|s| - 1]))
    ensures TrimRightSpace(s + space) == s
    decreases |space|
  {
    if space == "" {
      assert s + space == s;
    } else {
      var n := |space| - 1;
      assert (s + space)[..|s + space| - 1] == s + space[..n];
      RightSpaceGoes(s, space[..n]);
    }
  }

  /** Trimming takes the white space at both ends and nothing else. */
  lemma TrimSpaceIs(before: string, name: string, after: string)
    requires AllSpace(before) && AllSpace(after) && Trimmed(name)
    ensures TrimSpace(before + name + after) == name
  {
    if name == "" {
      assert before + name + after == (before + after) + "";
      LeftSpaceGoes(before + after, "");
    } else {
      assert before + name + after == before + (name + after);
      LeftSpaceGoes(before, name + after);
      RightSpaceGoes(name, after);
    }
  }

  lemma SurroundedIsTrimmed(inside: string, name: string)
    requires Surrounds(inside, name)
    ensures TrimSpace(inside) == name
  {
    var k, m :| 0 <= k <= m <= |inside| && inside[k..m] == name && AllSpace(inside[..k]) && AllSpace(inside[m..]);
    assert inside == inside[..k] + name + inside[m..];
    TrimSpaceIs(inside[..k], name, inside[m..]);
  }

  lemma {:induction false} TrimLeftSplits(s: string) returns (k: nat)
    ensures k <= |s| && TrimLeftSpace(s) == s[k..] && AllSpace(s[..k])
  {
    k := 0;
    if s != "" && IsSpace(s[0]) {
      var n := TrimLeftSplits(s[1..]);
      k := n + 1;
      assert s[1..][n..] == s[k..];
      assert s[..k] == [s[0]] + s[1..][..n];
    }
  }

  lemma {:induction false} TrimRightSplits(s: string) returns (m: nat)
    ensures m <= |s| && TrimRightSpace(s) == s[..m] && AllSpace(s[m..])
    decreases |s|
  {
    m := |s|;
    if s != "" && IsSpace(s[|s| - 1]) {
      m := TrimRightSplits(s[..|s| - 1]);
      assert s[..|s| - 1][..m] == s[..m];
      assert s[m..] == s[..|s| - 1][m..] + [s[|s| - 1]];
    }
  }

  /** Whatever stands between the braces names something. */
  lemma SomethingIsNamed(inside: string)
    ensures Surrounds(inside, TrimSpace(inside))
  {
    var k := TrimLeftSplits(inside);
    var m := TrimRightSplits(inside[k..]);
    TrimIsTrimmed(inside);
    assert inside[k..][..m] == inside[k..k + m] && inside[k..][m..] == inside[k + m..];
  }

  // ----- where references are -----

  lemma {:induction false} NameLengthIs(inside: string, rest: string)
    requires Braceless(inside) && (rest != "" ==> IsBrace(rest[0]))
    ensures NameLength(inside + rest) == |inside|
  {
    if inside == "" {
      assert inside + rest == rest;
    } else {
      assert (inside + rest)[1..] == inside[1..] + rest;
      NameLengthIs(inside[1..], rest);
    }
  }

  lemma {:induction false} NameLengthStops(s: string)
    ensures var n := NameLength(s); Braceless(s[..n]) && (n < |s| ==> IsBrace(s[n]))
  {
    if s != "" && !IsBrace(s[0]) {
      NameLengthStops(s[1..]);
    }
  }

  lemma ReferenceFound(inside: string, rest: string)
    requires Braceless(inside)
    ensures ReferenceAt("{{" + inside + "}}" + rest) == Some(|inside| + 4)
  {
    var s := "{{" + inside + "}}" + rest;
    assert s[2..] == inside + ("}}" + rest);
    NameLengthIs(inside, "}}" + rest);
    assert s[2 + |inside|..] == "}}" + rest;
  }

  lemma ReferenceAtIff(s: string)
    ensures ReferenceAt(s).Some? <==> OpensReference(s)
  {
    if ReferenceAt(s).Some? {
      var n := ReferenceAt(s).value - 4;
      NameLengthStops(s[2..]);
      assert s[2..][..n] == s[2..2 + n];
      assert HasPrefix(s[2 + n..], "}}") && s[2 + n..4 + n] == "}}";
      assert IsReference(s, n);
    }
    if n: nat :| IsReference(s, n) {
      assert s == "{{" + s[2..2 + n] + "}}" + s[4 + n..];
      ReferenceFound(s[2..2 + n], s[4 + n..]);
    }
  }

  /** What opens at the start of a stretch opens within it, whatever comes after, when what comes
      after is nothing or another reference. */
  lemma OpensWithin(s: string, rest: string)
    requires s != "" && (rest == "" || HasPrefix(rest, "{{")) && OpensReference(s + rest)
    ensures OpensReference(s)
  {
    var t := s + rest;
    var n: nat :| IsReference(t, n);
    ReferenceInside(t, n);
    assert |s| < |t| ==> t[|s|] == '{' && t[|s| + 1] == '{';
    assert t[..2] == s[..2] && t[2..2 + n] == s[2..2 + n] && t[2 + n..4 + n] == s[2 + n..4 + n];
    assert IsReference(s, n);
  }

  lemma ReferenceInside(t: string, n: nat)
    requires IsReference(t, n)
    ensures t[0] == '{' && forall k :: 2 <= k < 4 + n ==> t[k] != '{'
  {
    assert t[0] == t[..2][0];
    forall k | 2 <= k < 4 + n ensures t[k] != '{' {
      if k < 2 + n {
        assert t[k] == t[2..2 + n][k - 2];
      } else {
        assert t[k] == t[2 + n..4 + n][k - 2 - n];
      }
    }
  }

  lemma OpensWithBrace(s: string)
    requires OpensReference(s)
    ensures s != "" && s[0] == '{'
  {
    var n: nat :| IsReference(s, n);
    ReferenceInside(s, n);
  }

  lemma StillOpens(s: string, rest: string)
    requires OpensReference(s)
    ensures OpensReference(s + rest)
  {
    var n: nat :| IsReference(s, n);
    var t := s + rest;
    assert t[..2] == s[..2] && t[2..2 + n] == s[2..2 + n] && t[2 + n..4 + n] == s[2 + n..4 + n];
    assert IsReference(t, n);
  }

  // ----- expansion, piece by piece -----

  function Before(text: string, rest: Expansion): Expansion {
    match rest case Expanded(more) => Expanded(text + more) case Unresolved(kind) => Unresolved(kind)
  }

  lemma ExpandSteps(variables: map<string, string>, s: string)
    requires s != "" && !OpensReference(s)
    ensures Expand(variables, s) == Before([s[0]], Expand(variables, s[1..]))
  {
    ReferenceAtIff(s);
  }

  lemma StretchShortens(text: string, rest: string)
    requires text != "" && !HasReference(text) && (rest == "" || HasPrefix(rest, "{{"))
    ensures !OpensReference(text + rest) && !HasReference(text[1..])
  {
    hide OpensReference;
    assert text[0..] == text;
    if OpensReference(text + rest) {
      OpensWithin(text, rest);
    }
    forall i | 0 <= i <= |text| - 1 ensures !OpensReference(text[1..][i..]) {
      assert text[1..][i..] == text[i + 1..];
    }
  }

  lemma {:induction false} StretchExpands(variables: map<string, string>, text: string, rest: string)
    requires !HasReference(text) && (rest == "" || HasPrefix(rest, "{{"))
    ensures Expand(variables, text + rest) == Before(text, Expand(variables, rest))
  {
    hide Expand, HasReference, OpensReference;
    if text == "" {
      assert text + rest == rest;
      assert forall more: string :: "" + more == more;
    } else {
      var s := text + rest;
      StretchShortens(text, rest);
      ExpandSteps(variables, s);
      assert s[1..] == text[1..] + rest && s[0] == text[0];
      StretchExpands(variables, text[1..], rest);
      assert forall more: string :: [text[0]] + (text[1..] + more) == text + more;
    }
  }

  lemma ReferenceExpands(variables: map<string, string>, inside: string, name: string, rest: string)
    requires Braceless(inside) && Surrounds(inside, name)
    ensures Expand(variables, "{{" + inside + "}}" + rest) ==
      if name in variables then Before(variables[name], Expand(variables, rest))
      else Unresolved(if name != "" && name[0] == '$' then Unsupported else UndefinedVariable)
  {
    var s := "{{" + inside + "}}" + rest;
    ReferenceFound(inside, rest);
    SurroundedIsTrimmed(inside, name);
    assert s[2..|inside| + 2] == inside && s[|inside| + 4..] == rest;
  }

  ghost predicate Named(pieces: seq<Piece>, names: seq<string>) {
    |names| == |pieces| && forall i :: 0 <= i < |pieces| && pieces[i].Reference? ==> Surrounds(pieces[i].inside, names[i])
  }

  /** Every name the first `n` pieces refer to is declared. */
  ghost predicate DeclaredUpTo(variables: map<string, string>, pieces: seq<Piece>, names: seq<string>, n: nat)
    requires |names| == |pieces|
  {
    forall i :: 0 <= i < n && i < |pieces| && pieces[i].Reference? ==> names[i] in variables
  }

  function Replaced(variables: map<string, string>, pieces: seq<Piece>, names: seq<string>): string
    requires |names| == |pieces| && forall i :: 0 <= i < |pieces| && pieces[i].Reference? ==> names[i] in variables
  {
    if pieces == [] then ""
    else (match pieces[0] case Stretch(text) => text case Reference(_) => variables[names[0]])
         + Replaced(variables, pieces[1..], names[1..])
  }

  ghost predicate ExpandsTo(variables: map<string, string>, pieces: seq<Piece>, names: seq<string>, result: Expansion)
    requires |names| == |pieces|
  {
    && (result.Expanded? <==> DeclaredUpTo(variables, pieces, names, |pieces|))
    && (result.Expanded? ==> result.text == Replaced(variables, pieces, names))
    && forall i :: 0 <= i < |pieces| && pieces[i].Reference? && names[i] !in variables && DeclaredUpTo(variables, pieces, names, i) ==>
         result == Unresolved(if names[i] != "" && names[i][0] == '$' then Unsupported else UndefinedVariable)
  }

  /** Expansion puts the declared value in place of every reference and keeps the rest; it fails if
      and only if some name is not declared, as the first such name says. */
  lemma {:induction false} ExpandReplaces(variables: map<string, string>, pieces: seq<Piece>, names: seq<string>)
    requires InPieces(pieces) && Named(pieces, names)
    ensures ExpandsTo(variables, pieces, names, Expand(variables, TextOf(pieces)))
  {
    if pieces != [] {
      var rest := pieces[1..];
      assert Named(rest, names[1..]) && InPieces(rest);
      ExpandReplaces(variables, rest, names[1..]);
      match pieces[0] {
        case Stretch(text) =>
          RestOpens(pieces);
          StretchExpands(variables, text, TextOf(rest));
        case Reference(inside) =>
          ReferenceExpands(variables, inside, names[0], TextOf(rest));
      }
      OnePieceMore(variables, pieces, names, Expand(variables, TextOf(rest)), Expand(variables, TextOf(pieces)));
    }
  }

  lemma RestOpens(pieces: seq<Piece>)
    requires InPieces(pieces) && pieces != [] && pieces[0].Stretch?
    ensures TextOf(pieces[1..]) == "" || HasPrefix(TextOf(pieces[1..]), "{{")
  {
    if |pieces| > 1 {
      assert pieces[1..][0] == pieces[1] && pieces[1].Reference?;
    }
  }

  lemma OnePieceMore(variables: map<string, string>, pieces: seq<Piece>, names: seq<string>, rest: Expansion, whole: Expansion)
    requires pieces != [] && |names| == |pieces| && ExpandsTo(variables, pieces[1..], names[1..], rest)
    requires whole == match pieces[0] {
      case Stretch(text) => Before(text, rest)
      case Reference(_) =>
        if names[0] in variables then Before(variables[names[0]], rest)
        else Unresolved(if names[0] != "" && names[0][0] == '$' then Unsupported else UndefinedVariable) }
    ensures ExpandsTo(variables, pieces, names, whole)
  {
    var more, others := pieces[1..], names[1..];
    assert forall i :: 0 < i < |pieces| ==> more[i - 1] == pieces[i] && others[i - 1] == names[i];
    forall i | 0 < i <= |pieces| ensures DeclaredUpTo(variables, pieces, names, i) <==>
      DeclaredUpTo(variables, more, others, i - 1) && (pieces[0].Reference? ==> names[0] in variables)
    {
      assert forall j :: 0 <= j < |more| ==> more[j] == pieces[j + 1] && others[j] == names[j + 1];
    }
  }

  // ----- every text is such a text -----

  lemma {:induction false} EveryTextInPieces(text: string) returns (pieces: seq<Piece>)
    ensures InPieces(pieces) && TextOf(pieces) == text
    decreases |text|
  {
    if text == "" {
      pieces := [];
    } else if n: nat :| IsReference(text, n) {
      var rest := EveryTextInPieces(text[4 + n..]);
      pieces := [Reference(text[2..2 + n])] + rest;
      assert pieces[1..] == rest && text == "{{" + text[2..2 + n] + "}}" + text[4 + n..];
    } else {
      var rest := EveryTextInPieces(text[1..]);
      pieces := LongerByOne(text, rest);
    }
  }

  lemma TailInPieces(pieces: seq<Piece>)
    requires InPieces(pieces) && pieces != []
    ensures InPieces(pieces[1..]) && (pieces[0].Stretch? && |pieces| > 1 ==> pieces[1..][0].Reference?)
  {
    assert forall i :: 0 <= i < |pieces| - 1 ==> pieces[1..][i] == pieces[i + 1];
    hide HasReference, Braceless;
  }

  lemma InFront(stretch: string, tail: seq<Piece>)
    requires !HasReference(stretch) && InPieces(tail) && (tail != [] ==> tail[0].Reference?)
    ensures InPieces([Stretch(stretch)] + tail) && TextOf([Stretch(stretch)] + tail) == stretch + TextOf(tail)
  {
    hide HasReference, Braceless;
    assert ([Stretch(stretch)] + tail)[1..] == tail;
  }

  /** A character at which no reference opens joins the stretch behind it, or is one. */
  lemma LongerByOne(text: string, rest: seq<Piece>) returns (pieces: seq<Piece>)
    requires text != "" && !OpensReference(text) && InPieces(rest) && TextOf(rest) == text[1..]
    ensures InPieces(pieces) && TextOf(pieces) == text
  {
    var more, tail := "", rest;
    if rest != [] && rest[0].Stretch? {
      more, tail := rest[0].text, rest[1..];
      TailInPieces(rest);
    } else {
      NothingOpens();
      assert "" + TextOf(rest) == TextOf(rest);
    }
    hide OpensReference, HasReference, InPieces;
    var stretch := [text[0]] + more;
    assert text == stretch + TextOf(tail);
    StretchStarts(text, more, TextOf(tail));
    InFront(stretch, tail);
    pieces := [Stretch(stretch)] + tail;
  }

  lemma NothingOpens()
    ensures !HasReference("")
  {
  }

  lemma StretchStarts(text: string, more: string, rest: string)
    requires text != "" && text == ([text[0]] + more) + rest && !OpensReference(text) && !HasReference(more)
    ensures !HasReference([text[0]] + more)
  {
    var stretch := [text[0]] + more;
    forall i | 0 <= i <= |stretch| ensures !OpensReference(stretch[i..]) {
      if i == 0 {
        assert stretch[0..] == stretch;
        if OpensReference(stretch) {
          StillOpens(stretch, rest);
        }
      } else {
        assert stretch[i..] == more[i - 1..];
      }
    }
  }

  /** So expansion is this for every text there is. */
  lemma EveryTextExpands(variables: map<string, string>, text: string)
    ensures exists pieces, names ::
      InPieces(pieces) && TextOf(pieces) == text && Named(pieces, names) && ExpandsTo(variables, pieces, names, Expand(variables, text))
  {
    var pieces := EveryTextInPieces(text);
    var names := seq(|pieces|, i requires 0 <= i < |pieces| =>
      match pieces[i] case Stretch(_) => "" case Reference(inside) => TrimSpace(inside));
    forall i | 0 <= i < |pieces| && pieces[i].Reference? ensures Surrounds(pieces[i].inside, names[i]) {
      SomethingIsNamed(pieces[i].inside);
    }
    assert Named(pieces, names);
    ExpandReplaces(variables, pieces, names);
  }

  // ----- a variable declared and used -----

  predicate VariableOk(name: string, value: string) {
    && name != "" && NoSpace(name) && Braceless(name) && Lacks(name, '=')
    && value != "" && Trimmed(value) && Lacks(value, '\n') && Plain(value)
  }

  lemma NameAlone(name: string)
    requires NoSpace(name)
    ensures Surrounds(name, name)
  {
    assert name[0..|name|] == name && AllSpace(name[..0]) && AllSpace(name[|name|..]);
  }

  lemma BracelessIsPlain(text: string)
    requires Braceless(text)
    ensures !HasReference(text)
  {
    forall i | 0 <= i <= |text| ensures !OpensReference(text[i..]) {
      if OpensReference(text[i..]) {
        OpensWithBrace(text[i..]);
      }
    }
  }

  /** A reference between two stretches without braces. */
  lemma UseExpands(variables: map<string, string>, before: string, name: string, after: string)
    requires Braceless(before) && Braceless(after) && Braceless(name) && NoSpace(name) && name in variables
    ensures Expand(variables, before + "{{" + name + "}}" + after) == Expanded(before + variables[name] + after)
  {
    hide Expand, HasReference, Surrounds, Braceless;
    var rest := "{{" + name + "}}" + after;
    BracelessIsPlain(before);
    BracelessIsPlain(after);
    NameAlone(name);
    NothingExpands(variables);
    StretchExpands(variables, after, "");
    assert after + "" == after;
    ReferenceExpands(variables, name, name, after);
    StretchExpands(variables, before, rest);
    assert before + rest == before + "{{" + name + "}}" + after;
    assert before + (variables[name] + after) == before + variables[name] + after;
  }

  lemma NothingExpands(variables: map<string, string>)
    ensures Expand(variables, "") == Expanded("")
  {
  }

  lemma DeclarationRead(lib: Library, p: Parser, name: string, value: string)
    requires !p.inHandler && p.position == AtRequestLine && VariableOk(name, value)
    requires CommentFree("@" + name + " = " + value)
    ensures OnLine(lib, p, "@" + name + " = " + value)
         == Ok(p.(lineNo := p.lineNo + 1, variables := p.variables[name := value]))
  {
    hide OnLine;
    var line := "@" + name + " = " + value;
    assert line[|line| - 1] == value[|value| - 1];
    forall i | 0 <= i < |line| ensures line[i] != '\n' {
      if 0 < i <= |name| {
        assert line[i] == name[i - 1];
      } else if i > |name| + 3 {
        assert line[i] == value[i - |name| - 4];
      }
    }
    TrimmedStays(line);
    ContentLine(lib, p, line, line);
    DeclarationParts(name, value);
    PlainExpands(p.variables, value);
  }

  lemma DeclarationParts(name: string, value: string)
    requires VariableOk(name, value)
    ensures var cut := Cut(TrimPrefix("@" + name + " = " + value, "@"), '=');
      cut.found && TrimSpace(cut.before) == name && TrimSpace(cut.after) == value
  {
    var text := name + " = " + value;
    assert "@" + name + " = " + value == "@" + text && ("@" + text)[1..] == text;
    assert text == (name + " ") + ['='] + (" " + value);
    CutAt(name + " ", '=', " " + value);
    TrimSpaceIs("", name, " ");
    assert "" + name + " " == name + " ";
    TrimmedAfterSpace(value);
  }

  predicate UseOk(verb: string, before: string, name: string, after: string) {
    && IsMethodToken(verb) && NoSpace(before) && NoSpace(after) && Braceless(before) && Braceless(after)
    && NoSpace(name) && Braceless(name) && (before != "" ==> before[0] != '#')
  }

  lemma UseRead(lib: Library, p: Parser, verb: string, before: string, name: string, after: string)
    requires !p.inHandler && p.position == AtRequestLine && UseOk(verb, before, name, after) && name in p.variables
    ensures OnLine(lib, p, verb + " " + before + "{{" + name + "}}" + after) ==
      Ok(p.(lineNo := p.lineNo + 1, requestLineNo := p.lineNo + 1, position := AtHeaders,
            verb := verb, target := before + p.variables[name] + after))
  {
    hide OnLine, Expand, Fields, IsMethodToken, NoSpace, Braceless, OnHeaderLine, OnVariable, StartsShortFormRequest;
    var target := before + "{{" + name + "}}" + after;
    var line := verb + " " + target;
    assert line == verb + " " + before + "{{" + name + "}}" + after;
    TargetIsWord(before, name, after);
    UseIsContent(verb, target);
    ContentLine(lib, p, line, line);
    UseExpands(p.variables, before, name, after);
  }

  /** A method and a word are a line of two words. */
  lemma UseIsContent(verb: string, target: string)
    requires IsMethodToken(verb) && target != "" && NoSpace(target) && target[0] != '#'
    ensures var line := verb + " " + target;
      && IsLine(line) && TrimSpace(line) == line != "" && CommentFree(line) && Fields(line) == [verb, target]
      && !HasPrefix(line, "#") && !HasPrefix(line, "//") && !HasPrefix(line, "@")
  {
    var line := verb + " " + target;
    assert NoSpace(verb) && CommentFree(verb);
    WordAppended(verb, target);
    assert line[0] == verb[0] && line[|line| - 1] == target[|target| - 1];
    hide Fields;
    FieldsSpaced(verb, target);
    FieldsSpaced(target, "");
    TrimmedStays(line);
  }

  lemma TargetIsWord(before: string, name: string, after: string)
    requires NoSpace(before) && NoSpace(after) && NoSpace(name) && (before != "" ==> before[0] != '#')
    ensures var target := before + "{{" + name + "}}" + after; target != "" && NoSpace(target) && target[0] != '#'
  {
    var target := before + "{{" + name + "}}" + after;
    forall i | 0 <= i < |target| ensures !IsSpace(target[i]) {
      if i < |before| {
        assert target[i] == before[i];
      } else if |before| + 2 <= i < |before| + 2 + |name| {
        assert target[i] == name[i - |before| - 2];
      } else if i >= |before| + |name| + 4 {
        assert target[i] == after[i - |before| - |name| - 4];
      }
    }
  }

  /** A script that declares a variable and then uses it in a request line asks for the URL that has
      the declared value in its place. */
  lemma DeclaredValueIsUsed(lib: Library, name: string, value: string, verb: string, before: string, after: string, url: Url, sent: Url)
    requires VariableOk(name, value) && CommentFree("@" + name + " = " + value) && UseOk(verb, before, name, after)
    requires var target := before + value + after;
      && Contains(target, "://") && lib.parse(target) == Some(url) && url.scheme != "" && url.host != ""
      && lib.newRequest(verb, lib.render(url)) == Some(sent)
    ensures ParseLines(lib, ["@" + name + " = " + value, verb + " " + before + "{{" + name + "}}" + after])
         == Requests([Request("", verb, sent, sent.host, "HTTP/1.1", 1, 1, map[], "")])
  {
    hide OnLine, FinishRequest;
    var declaration, use := "@" + name + " = " + value, verb + " " + before + "{{" + name + "}}" + after;
    DeclarationRead(lib, NEW_PARSER, name, value);
    var p := NEW_PARSER.(lineNo := 1, variables := map[name := value]);
    UseRead(lib, p, verb, before, name, after);
    var q := p.(lineNo := 2, requestLineNo := 2, position := AtHeaders, verb := verb, target := before + value + after);
    ReadTwo(lib, NEW_PARSER, declaration, use, p, q);
    FinishesTo(lib, q, verb, url, sent);
  }

  lemma ReadTwo(lib: Library, p: Parser, a: string, b: string, p1: Parser, p2: Parser)
    requires OnLine(lib, p, a) == Ok(p1) && OnLine(lib, p1, b) == Ok(p2)
    ensures Read(lib, p, [a, b]) == Ok(p2)
  {
    hide OnLine;
    assert [a, b][1..] == [b] && [b][1..] == [];
    assert Read(lib, p1, [b]) == Ok(p2);
  }

  lemma FinishesTo(lib: Library, q: Parser, verb: string, url: Url, sent: Url)
    requires q.requests == [] && q.name == "" && q.verb == verb != "" && q.protoVersion == "" && q.hostHeader == "" && q.headers == map[] && q.body == []
    requires Contains(q.target, "://") && lib.parse(q.target) == Some(url) && url.scheme != "" && url.host != ""
    requires lib.newRequest(verb, lib.render(url)) == Some(sent)
    ensures FinishRequest(lib, q).Ok?
    ensures FinishRequest(lib, q).parser.requests == [Request("", verb, sent, sent.host, "HTTP/1.1", 1, 1, map[], "")]
  {
    assert q.target != "";
    assert Join([], "\n") == "" && TrimBlankLines([]) == [];
  }
}
