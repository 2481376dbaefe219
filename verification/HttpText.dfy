/** The string operations the `.http` reader is made of, as its standard library defines them. */
module HttpText {

  /** Unicode white space. */
  predicate IsSpace(c: char) {
    || c in {'\t', '\n', '\U{B}', '\U{C}', '\r', ' ', '\U{85}', '\U{A0}', '\U{1680}'}
    || '\U{2000}' <= c <= '\U{200A}'
    || c in {'\U{2028}', '\U{2029}', '\U{202F}', '\U{205F}', '\U{3000}'}
  }

  function TrimLeftSpace(s: string): string {
    if s == "" || !IsSpace(s[0]) then s else TrimLeftSpace(s[1..])
  }

  function TrimRightSpace(s: string): string {
    if s == "" || !IsSpace(s[|s| - 1]) then s else TrimRightSpace(s[..|s| - 1])
  }

  function TrimSpace(s: string): string {
    TrimRightSpace(TrimLeftSpace(s))
  }

  predicate HasPrefix(s: string, prefix: string) {
    prefix <= s
  }

  function TrimPrefix(s: string, prefix: string): string {
    if HasPrefix(s, prefix) then s[|prefix|..] else s
  }

  function TrimLeftOf(s: string, cutset: set<char>): string {
    if s == "" || s[0] !in cutset then s else TrimLeftOf(s[1..], cutset)
  }

  predicate Contains(s: string, part: string) {
    HasPrefix(s, part) || (s != "" && Contains(s[1..], part))
  }

  predicate ContainsAny(s: string, chars: set<char>) {
    exists i :: 0 <= i < |s| && s[i] in chars
  }

  /** What comes before and after the first `sep`, and whether there is one. */
  datatype Pieces = Pieces(before: string, after: string, found: bool)

  function Cut(s: string, sep: char): Pieces {
    if s == "" then Pieces("", "", false)
    else if s[0] == sep then Pieces("", s[1..], true)
    else
      var rest := Cut(s[1..], sep);
      Pieces([s[0]] + rest.before, rest.after, rest.found)
  }

  function WordLength(s: string): (n: nat)
    ensures n <= |s|
    ensures s != "" && !IsSpace(s[0]) ==> n > 0
  {
    if s == "" || IsSpace(s[0]) then 0 else 1 + WordLength(s[1..])
  }

  /** The words of a line: its maximal stretches without white space. */
  function Fields(s: string): seq<string>
    decreases |s|
  {
    if s == "" then []
    else if IsSpace(s[0]) then Fields(s[1..])
    else
      var n := WordLength(s);
      [s[..n]] + Fields(s[n..])
  }

  /** Lower case over ASCII, and the one other letter that folds to one in "https". */
  function Fold(c: char): char {
    if 'A' <= c <= 'Z' then c - 'A' + 'a' else if c == '\U{17F}' then 's' else c
  }

  predicate EqualFold(s: string, t: string) {
    |s| == |t| && forall i :: 0 <= i < |s| ==> Fold(s[i]) == Fold(t[i])
  }

  function Join(parts: seq<string>, sep: string): string {
    if parts == [] then ""
    else if |parts| == 1 then parts[0]
    else parts[0] + sep + Join(parts[1..], sep)
  }

  // ----- lines -----

  function DropCR(line: string): string {
    if line != "" && line[|line| - 1] == '\r' then line[..|line| - 1] else line
  }

  /** The lines of a script, without their terminators; the last need not have one. */
  function Lines(text: string): seq<string>
    decreases |text|
  {
    if text == "" then []
    else
      var cut := Cut(text, '\n');
      CutIsShorter(text, '\n');
      [DropCR(cut.before)] + if cut.found then Lines(cut.after) else []
  }

  lemma {:induction false} CutIsShorter(s: string, sep: char)
    ensures Cut(s, sep).found ==> |Cut(s, sep).after| < |s|
  {
    if s != "" && s[0] != sep {
      CutIsShorter(s[1..], sep);
    }
  }

  predicate Lacks(s: string, c: char) {
    forall i :: 0 <= i < |s| ==> s[i] != c
  }

  /** Cutting finds the first separator, and loses nothing. */
  lemma {:induction false} CutSplits(s: string, sep: char)
    ensures var cut := Cut(s, sep);
      && Lacks(cut.before, sep)
      && (cut.found ==> s == cut.before + [sep] + cut.after)
      && (!cut.found ==> s == cut.before && cut.after == "")
  {
    if s != "" && s[0] != sep {
      CutSplits(s[1..], sep);
    }
  }

  lemma {:induction false} CutAt(before: string, sep: char, after: string)
    requires Lacks(before, sep)
    ensures Cut(before + [sep] + after, sep) == Pieces(before, after, true)
  {
    var s := before + [sep] + after;
    if before != "" {
      assert s[1..] == before[1..] + [sep] + after;
      CutAt(before[1..], sep, after);
    } else {
      assert s[1..] == after;
    }
  }

  lemma {:induction false} CutNone(s: string, sep: char)
    requires Lacks(s, sep)
    ensures Cut(s, sep) == Pieces(s, "", false)
  {
    if s != "" {
      CutNone(s[1..], sep);
    }
  }

  /** A line as a writer may produce it and get it back. */
  predicate IsLine(s: string) {
    Lacks(s, '\n') && (s != "" ==> s[|s| - 1] != '\r')
  }

  function Terminate(lines: seq<string>): string {
    if lines == [] then "" else lines[0] + "\n" + Terminate(lines[1..])
  }

  lemma {:induction false} TerminateJoins(a: seq<string>, b: seq<string>)
    ensures Terminate(a + b) == Terminate(a) + Terminate(b)
  {
    if a != [] {
      assert (a + b)[1..] == a[1..] + b;
      TerminateJoins(a[1..], b);
    } else {
      assert a + b == b;
    }
  }

  /** Lines written out come back as they were. */
  lemma {:induction false} LinesReadBack(lines: seq<string>)
    requires forall i :: 0 <= i < |lines| ==> IsLine(lines[i])
    ensures Lines(Terminate(lines)) == lines
  {
    if lines != [] {
      var rest := Terminate(lines[1..]);
      assert lines[0] + "\n" + rest == lines[0] + ['\n'] + rest;
      CutAt(lines[0], '\n', rest);
      LinesReadBack(lines[1..]);
    }
  }

  /** A text that ends a line, or is empty, has its lines followed by those of what comes next. */
  lemma {:induction false} LinesConcatenate(a: string, b: string)
    requires a == "" || a[|a| - 1] == '\n'
    ensures Lines(a + b) == Lines(a) + Lines(b)
    decreases |a|
  {
    if a == "" {
      assert a + b == b;
    } else {
      var cut := Cut(a, '\n');
      CutSplits(a, '\n');
      assert cut.found;
      CutIsShorter(a, '\n');
      assert a + b == cut.before + ['\n'] + (cut.after + b);
      CutAt(cut.before, '\n', cut.after + b);
      LinesConcatenate(cut.after, b);
    }
  }

  /** Splits at every line feed, keeping carriage returns: the lines of a payload. */
  function SplitLines(s: string): (lines: seq<string>)
    ensures |lines| > 0
    decreases |s|
  {
    var cut := Cut(s, '\n');
    CutIsShorter(s, '\n');
    if cut.found then [cut.before] + SplitLines(cut.after) else [s]
  }

  lemma {:induction false} SplitJoins(s: string)
    ensures Join(SplitLines(s), "\n") == s
    ensures s + "\n" == Terminate(SplitLines(s))
    ensures forall i :: 0 <= i < |SplitLines(s)| ==> Lacks(SplitLines(s)[i], '\n')
    decreases |s|
  {
    var cut := Cut(s, '\n');
    CutSplits(s, '\n');
    CutIsShorter(s, '\n');
    if cut.found {
      SplitJoins(cut.after);
      assert SplitLines(s)[1..] == SplitLines(cut.after);
      assert cut.before + ['\n'] + cut.after == cut.before + "\n" + cut.after;
    } else {
      assert SplitLines(s)[1..] == [];
    }
  }

  // ----- facts about trimming and words -----

  predicate Trimmed(s: string) {
    s != "" ==> !IsSpace(s[0]) && !IsSpace(s[|s| - 1])
  }

  lemma TrimmedStays(s: string)
    requires Trimmed(s)
    ensures TrimSpace(s) == s
  {
  }

  predicate NoSpace(s: string) {
    forall i :: 0 <= i < |s| ==> !IsSpace(s[i])
  }

  lemma {:induction false} WordEnds(word: string, rest: string)
    requires NoSpace(word) && (rest != "" ==> IsSpace(rest[0]))
    ensures WordLength(word + rest) == |word|
  {
    if word == "" {
      assert word + rest == rest;
    } else {
      assert (word + rest)[1..] == word[1..] + rest;
      WordEnds(word[1..], rest);
    }
  }

  /** Words written with a space between them are read as those words. */
  lemma FieldsSpaced(word: string, rest: string)
    requires word != "" && NoSpace(word)
    ensures Fields(word + " " + rest) == [word] + Fields(rest)
    ensures Fields(word) == [word]
  {
    var s := word + " " + rest;
    assert s == word + (" " + rest);
    WordEnds(word, " " + rest);
    assert s[..|word|] == word && s[|word|..] == " " + rest;
    assert (" " + rest)[1..] == rest;
    assert word + "" == word;
    WordEnds(word, "");
    assert word[..|word|] == word && word[|word|..] == "";
  }

  lemma {:induction false} WordsExist(s: string)
    requires s != "" && !IsSpace(s[|s| - 1])
    ensures |Fields(s)| >= 1
    decreases |s|
  {
    if IsSpace(s[0]) {
      WordsExist(s[1..]);
    }
  }
}
