/**
 Label-safe values and the names derived from them. The rest of the model speaks of a dispatch
 and of a failure by their components (`EventId`, `FailureKey`); the injectivity proved here is
 what makes the strings the program stores stand for exactly those components.
 */
module Labels {
  import opened Domain

  predicate IsAlphanumeric(c: char) {
    'a' <= c <= 'z' || 'A' <= c <= 'Z' || '0' <= c <= '9'
  }

  predicate IsLabelChar(c: char) {
    IsAlphanumeric(c) || c == '_' || c == '.' || c == '-'
  }

  predicate InAlphabet(s: string) {
    forall i :: 0 <= i < |s| ==> IsLabelChar(s[i])
  }

  /** The label grammar: the alphabet, with alphanumeric ends. */
  predicate IsLabelValue(s: string) {
    s != "" && InAlphabet(s) && IsAlphanumeric(s[0]) && IsAlphanumeric(s[|s| - 1])
  }

  function SafeChar(c: char): char {
    if IsLabelChar(c) then c else '-'
  }

  function Mapped(s: string): (m: string)
    ensures |m| == |s| && forall i :: 0 <= i < |s| ==> m[i] == SafeChar(s[i])
  {
    if s == "" then "" else [SafeChar(s[0])] + Mapped(s[1..])
  }

  function TrimLeft(s: string): string {
    if s != "" && !IsAlphanumeric(s[0]) then TrimLeft(s[1..]) else s
  }

  function TrimRight(s: string): string {
    if s != "" && !IsAlphanumeric(s[|s| - 1]) then TrimRight(s[..|s| - 1]) else s
  }

  function LabelSafeValue(value: string): string {
    TrimRight(TrimLeft(Mapped(value)))
  }

  lemma {:induction false} TrimLeftEnds(s: string)
    requires InAlphabet(s)
    ensures var t := TrimLeft(s); InAlphabet(t) && (t == "" || IsAlphanumeric(t[0]))
  {
    if s != "" && !IsAlphanumeric(s[0]) {
      TrimLeftEnds(s[1..]);
    }
  }

  lemma {:induction false} TrimRightEnds(s: string)
    requires InAlphabet(s) && (s == "" || IsAlphanumeric(s[0]))
    ensures var t := TrimRight(s); t == "" || IsLabelValue(t)
  {
    if s != "" && !IsAlphanumeric(s[|s| - 1]) {
      TrimRightEnds(s[..|s| - 1]);
    }
  }

  lemma MappedInAlphabet(s: string)
    ensures InAlphabet(Mapped(s))
    ensures InAlphabet(s) ==> Mapped(s) == s
  {
    assert InAlphabet(s) ==> Mapped(s) == s;
  }

  /** Whatever goes in, what comes out is a label value or nothing; and label values come out
      unchanged. */
  lemma SafeValueIsLabel(value: string)
    ensures LabelSafeValue(value) == "" || IsLabelValue(LabelSafeValue(value))
    ensures IsLabelValue(value) ==> LabelSafeValue(value) == value
  {
    MappedInAlphabet(value);
    TrimLeftEnds(Mapped(value));
    TrimRightEnds(TrimLeft(Mapped(value)));
  }

  lemma SafeValueIsIdempotent(value: string)
    ensures LabelSafeValue(LabelSafeValue(value)) == LabelSafeValue(value)
  {
    SafeValueIsLabel(value);
    SafeValueIsLabel(LabelSafeValue(value));
  }

  // ----- names -----

  function Digit(n: nat): char
    requires n < 10
  {
    "0123456789"[n]
  }

  function Decimal(n: nat): string {
    if n < 10 then [Digit(n)] else Decimal(n / 10) + [Digit(n % 10)]
  }

  function DigitValue(c: char): nat {
    if '0' <= c <= '9' then (c - '0') as nat else 0
  }

  function DecimalValue(s: string): nat {
    if s == "" then 0 else DecimalValue(s[..|s| - 1]) * 10 + DigitValue(s[|s| - 1])
  }

  lemma DigitReadsBack(n: nat)
    requires n < 10
    ensures '0' <= Digit(n) <= '9' && DigitValue(Digit(n)) == n
  {
  }

  lemma {:induction false} DecimalReadsBack(n: nat)
    ensures DecimalValue(Decimal(n)) == n
    ensures Decimal(n) != "" && forall c :: c in Decimal(n) ==> '0' <= c <= '9'
  {
    hide Digit, DigitValue;
    DigitReadsBack(n % 10);
    if n < 10 {
      assert Decimal(n)[..0] == "";
    } else {
      DecimalReadsBack(n / 10);
      assert Decimal(n)[..|Decimal(n)| - 1] == Decimal(n / 10);
    }
  }

  function ReasonText(r: Reason): string {
    match r
    case MalformedEnvelope => "malformed-envelope"
    case MisroutedDispatch => "misrouted-dispatch"
    case PolicyRefused => "policy-refused"
    case MaxDeliveryExhausted => "max-delivery-exhausted"
    case UndeliverableDispatch => "undeliverable-dispatch"
  }

  predicate IsSlug(s: string) {
    s != "" && forall i :: 0 <= i < |s| ==> 'a' <= s[i] <= 'z' || s[i] == '-'
  }

  lemma SlugIsLabel(s: string)
    requires IsSlug(s) && s[0] != '-' && s[|s| - 1] != '-'
    ensures IsLabelValue(s) && '.' !in s
  {
  }

  lemma ReasonTextFacts(r: Reason)
    ensures IsLabelValue(ReasonText(r)) && '.' !in ReasonText(r)
  {
    hide IsLabelValue;
    SlugIsLabel(ReasonText(r));
  }

  lemma ReasonTextInjective(r: Reason, q: Reason)
    requires ReasonText(r) == ReasonText(q)
    ensures r == q
  {
    assert |ReasonText(r)| == |ReasonText(q)| && ReasonText(r)[4] == ReasonText(q)[4];
  }

  function EventName(e: EventId): string {
    e.uid + "." + Decimal(e.version)
  }

  /** The name a report's event and reason give its record: one record per name. */
  function RecordName(event: string, reason: Reason): string {
    LabelSafeValue(event + "." + ReasonText(reason))
  }

  function FailureName(k: FailureKey): string {
    RecordName(EventName(k.event), k.reason)
  }

  function AfterLastDot(s: string): string {
    if s == "" || s[|s| - 1] == '.' then "" else AfterLastDot(s[..|s| - 1]) + [s[|s| - 1]]
  }

  lemma {:induction false} TailAfterLastDot(a: string, b: string)
    requires '.' !in b
    ensures AfterLastDot(a + "." + b) == b
  {
    var s := a + "." + b;
    if b == "" {
      assert s[|s| - 1] == '.';
    } else {
      TailAfterLastDot(a, b[..|b| - 1]);
      assert s[..|s| - 1] == a + "." + b[..|b| - 1];
    }
  }

  /** Two strings split at their last dot the same way. */
  lemma LastDotSplits(a: string, b: string, x: string, y: string)
    requires a + "." + b == x + "." + y && '.' !in b && '.' !in y
    ensures a == x && b == y
  {
    TailAfterLastDot(a, b);
    TailAfterLastDot(x, y);
    assert a == (a + "." + b)[..|a|] && x == (x + "." + y)[..|x|];
  }

  lemma EventNameInjective(e: EventId, d: EventId)
    requires EventName(e) == EventName(d)
    ensures e == d
  {
    DecimalReadsBack(e.version);
    DecimalReadsBack(d.version);
    LastDotSplits(e.uid, Decimal(e.version), d.uid, Decimal(d.version));
  }

  predicate IsLabelUid(uid: string) {
    uid != "" && InAlphabet(uid) && IsAlphanumeric(uid[0])
  }

  lemma DecimalInAlphabet(n: nat)
    ensures InAlphabet(Decimal(n))
  {
    DecimalReadsBack(n);
    forall i | 0 <= i < |Decimal(n)| ensures IsLabelChar(Decimal(n)[i]) {
      assert Decimal(n)[i] in Decimal(n);
    }
  }

  /** A label value behind anything in the alphabet that starts as a label does. */
  lemma LabelExtends(front: string, value: string)
    requires IsLabelUid(front) && IsLabelValue(value)
    ensures IsLabelValue(front + "." + value)
  {
  }

  lemma UidExtends(uid: string, tail: string)
    requires IsLabelUid(uid) && InAlphabet(tail)
    ensures IsLabelUid(uid + "." + tail)
  {
  }

  /** For UIDs in the label alphabet the sanitiser leaves the derived name as it is. */
  lemma FailureNameIsVerbatim(k: FailureKey)
    requires IsLabelUid(k.event.uid)
    ensures FailureName(k) == EventName(k.event) + "." + ReasonText(k.reason)
  {
    hide LabelSafeValue, IsLabelUid, IsLabelValue, InAlphabet, ReasonText, Decimal;
    DecimalInAlphabet(k.event.version);
    ReasonTextFacts(k.reason);
    UidExtends(k.event.uid, Decimal(k.event.version));
    LabelExtends(EventName(k.event), ReasonText(k.reason));
    SafeValueIsLabel(EventName(k.event) + "." + ReasonText(k.reason));
  }

  /** Failure keys do not collide: the record name determines run, version and reason. */
  lemma FailureNameInjective(k: FailureKey, j: FailureKey)
    requires IsLabelUid(k.event.uid) && IsLabelUid(j.event.uid) && FailureName(k) == FailureName(j)
    ensures k == j
  {
    FailureNameIsVerbatim(k);
    FailureNameIsVerbatim(j);
    ReasonTextFacts(k.reason);
    ReasonTextFacts(j.reason);
    LastDotSplits(EventName(k.event), ReasonText(k.reason), EventName(j.event), ReasonText(j.reason));
    EventNameInjective(k.event, j.event);
    ReasonTextInjective(k.reason, j.reason);
  }

  // ----- UIDs outside the alphabet -----

  lemma MappedJoins(a: string, b: string)
    ensures Mapped(a + b) == Mapped(a) + Mapped(b)
  {
    hide SafeChar;
  }

  lemma {:induction false} TrimLeftJoins(a: string, b: string)
    ensures TrimLeft(a + b) == if TrimLeft(a) != "" then TrimLeft(a) + b else TrimLeft(b)
  {
    if a == "" {
      assert a + b == b;
    } else if !IsAlphanumeric(a[0]) {
      assert (a + b)[1..] == a[1..] + b;
      TrimLeftJoins(a[1..], b);
    }
  }

  /** What is left of a UID once it is mapped into the alphabet and trimmed at the front. */
  function Residue(uid: string): string {
    TrimLeft(Mapped(uid))
  }

  lemma ResidueIsLabelUid(uid: string)
    ensures Residue(uid) == "" || IsLabelUid(Residue(uid))
    ensures IsLabelUid(uid) ==> Residue(uid) == uid
  {
    MappedInAlphabet(uid);
    TrimLeftEnds(Mapped(uid));
  }

  function NameTail(k: FailureKey): string {
    Decimal(k.event.version) + "." + ReasonText(k.reason)
  }

  lemma NameTailIsLabel(k: FailureKey)
    ensures IsLabelValue(NameTail(k))
  {
    hide ReasonText;
    DecimalInAlphabet(k.event.version);
    DecimalReadsBack(k.event.version);
    ReasonTextFacts(k.reason);
    assert Decimal(k.event.version)[0] in Decimal(k.event.version);
    LabelExtends(Decimal(k.event.version), ReasonText(k.reason));
  }

  /** The record name, for any UID at all: the UID enters only through its residue, and when
      nothing is left of it the name begins at the version. */
  lemma FailureNameForm(k: FailureKey)
    ensures FailureName(k) == if Residue(k.event.uid) != "" then Residue(k.event.uid) + "." + NameTail(k) else NameTail(k)
  {
    hide ReasonText, Decimal, Mapped, TrimLeft, IsLabelValue, IsLabelUid;
    var uid, tail := k.event.uid, "." + NameTail(k);
    assert EventName(k.event) + "." + ReasonText(k.reason) == uid + tail;
    NameTailIsLabel(k);
    TailIsKept(NameTail(k));
    MappedJoins(uid, tail);
    TrimLeftJoins(Mapped(uid), tail);
    ResidueIsLabelUid(uid);
    if Residue(uid) != "" {
      LabelExtends(Residue(uid), NameTail(k));
      assert Residue(uid) + tail == Residue(uid) + "." + NameTail(k);
      LabelKept(Residue(uid) + tail);
    } else {
      LabelKept(NameTail(k));
    }
  }

  lemma TailIsKept(tail: string)
    requires IsLabelValue(tail)
    ensures Mapped("." + tail) == "." + tail && TrimLeft("." + tail) == tail
  {
    MappedInAlphabet("." + tail);
    assert ("." + tail)[1..] == tail;
  }

  lemma LabelKept(value: string)
    requires IsLabelValue(value)
    ensures TrimRight(value) == value
  {
  }

  /** Exactly when a failure's name is also the name of a failure of some UID in the alphabet other
      than its own: its UID is outside the alphabet and something is left of it. */
  lemma SharesNameIff(k: FailureKey)
    ensures (exists j :: j != k && IsLabelUid(j.event.uid) && FailureName(j) == FailureName(k))
       <==> !IsLabelUid(k.event.uid) && Residue(k.event.uid) != ""
  {
    hide FailureName, IsLabelUid, Residue;
    ResidueIsLabelUid(k.event.uid);
    if !IsLabelUid(k.event.uid) && Residue(k.event.uid) != "" {
      var j := FailureKey(EventId(Residue(k.event.uid), k.event.version), k.reason);
      ResidueSharesName(k, j);
      assert j != k;
    }
    forall j | j != k && IsLabelUid(j.event.uid) && FailureName(j) == FailureName(k)
      ensures !IsLabelUid(k.event.uid) && Residue(k.event.uid) != ""
    {
      if IsLabelUid(k.event.uid) {
        FailureNameInjective(j, k);
      }
      NothingLeftIsAlone(k, j);
    }
  }

  lemma ResidueSharesName(k: FailureKey, j: FailureKey)
    requires Residue(k.event.uid) != "" && j == FailureKey(EventId(Residue(k.event.uid), k.event.version), k.reason)
    ensures FailureName(j) == FailureName(k)
  {
    hide FailureName, Residue;
    FailureNameForm(k);
    ResidueIsLabelUid(k.event.uid);
    ResidueIsLabelUid(j.event.uid);
    FailureNameForm(j);
  }

  /** A name with no UID left in it has one dot too few for a dispatch of the alphabet. */
  lemma NothingLeftIsAlone(k: FailureKey, j: FailureKey)
    requires IsLabelUid(j.event.uid) && FailureName(j) == FailureName(k)
    ensures Residue(k.event.uid) != ""
  {
    hide FailureName, Residue, IsLabelUid, ReasonText, Decimal;
    FailureNameForm(k);
    FailureNameIsVerbatim(j);
    ReasonTextFacts(k.reason);
    ReasonTextFacts(j.reason);
    EventIsNoNumber(j.event, k.event.version);
    if Residue(k.event.uid) == "" {
      LastDotSplits(EventName(j.event), ReasonText(j.reason), Decimal(k.event.version), ReasonText(k.reason));
    }
  }

  lemma EventIsNoNumber(e: EventId, n: nat)
    ensures EventName(e) != Decimal(n)
  {
    hide Decimal;
    DecimalReadsBack(n);
    assert EventName(e)[|e.uid|] == '.';
    assert '.' in EventName(e);
  }

  /** An instance: `a/b` and `a-b` share their names. */
  lemma ForeignUidsCollide(version: nat, reason: Reason)
    ensures FailureName(FailureKey(EventId("a/b", version), reason))
         == FailureName(FailureKey(EventId("a-b", version), reason))
  {
    hide FailureName;
    FailureNameForm(FailureKey(EventId("a/b", version), reason));
    FailureNameForm(FailureKey(EventId("a-b", version), reason));
    assert Mapped("a/b") == Mapped("a-b");
  }

  // ----- the names, character by character -----

  predicate IsLetterOrDigit(c: char) {
    'a' <= c <= 'z' || 'A' <= c <= 'Z' || '0' <= c <= '9'
  }

  predicate StaysAsIs(c: char) {
    IsLetterOrDigit(c) || c in {'_', '.', '-'}
  }

  /** `safe` is a stretch of `value` with a dash for every character outside the alphabet; nothing
      but the ends that are no letter or digit was cut, and all of those were. */
  ghost predicate IsSafeForm(value: string, safe: string) {
    exists k: nat, m: nat :: IsSafeStretch(value, safe, k, m)
  }

  predicate IsSafeStretch(value: string, safe: string, k: nat, m: nat) {
    && k <= m <= |value| && |safe| == m - k
    && (forall i :: 0 <= i < |safe| ==> safe[i] == if StaysAsIs(value[k + i]) then value[k + i] else '-')
    && (forall i :: 0 <= i < |value| && (i < k || m <= i) ==> !IsLetterOrDigit(value[i]))
    && (safe != "" ==> IsLetterOrDigit(value[k]) && IsLetterOrDigit(value[m - 1]))
  }

  lemma {:induction false} TrimLeftCuts(s: string) returns (k: nat)
    ensures k <= |s| && TrimLeft(s) == s[k..] && (k < |s| ==> IsLetterOrDigit(s[k])) && forall i :: 0 <= i < k ==> !IsLetterOrDigit(s[i])
  {
    k := 0;
    if s != "" && !IsAlphanumeric(s[0]) {
      var n := TrimLeftCuts(s[1..]);
      k := n + 1;
      assert forall i :: 0 < i < k ==> s[i] == s[1..][i - 1];
    }
  }

  lemma {:induction false} TrimRightCuts(s: string) returns (m: nat)
    ensures m <= |s| && TrimRight(s) == s[..m] && (0 < m ==> IsLetterOrDigit(s[m - 1]))
    ensures forall i :: m <= i < |s| ==> !IsLetterOrDigit(s[i])
    decreases |s|
  {
    m := |s|;
    if s != "" && !IsAlphanumeric(s[|s| - 1]) {
      m := TrimRightCuts(s[..|s| - 1]);
      assert forall i :: m <= i < |s| - 1 ==> s[i] == s[..|s| - 1][i];
    }
  }

  lemma SafeValueIs(value: string)
    ensures IsSafeForm(value, LabelSafeValue(value))
  {
    var mapped := Mapped(value);
    var k := TrimLeftCuts(mapped);
    var m := TrimRightCuts(mapped[k..]);
    var safe := LabelSafeValue(value);
    assert safe == mapped[k..][..m];
    forall i | 0 <= i < |safe| ensures safe[i] == if StaysAsIs(value[k + i]) then value[k + i] else '-' {
      assert safe[i] == mapped[k + i];
    }
    forall i | 0 <= i < |value| && (i < k || k + m <= i) ensures !IsLetterOrDigit(value[i]) {
      assert i >= k ==> mapped[k..][i - k] == mapped[i];
      assert !IsLetterOrDigit(mapped[i]);
    }
    if safe != "" {
      assert mapped[k..][0] == mapped[k] && mapped[k..][m - 1] == mapped[k + m - 1];
    }
    assert IsSafeStretch(value, safe, k, k + m);
  }

  /** `text` is the number in decimal, without leading zeros. */
  ghost predicate IsNumeral(text: string, n: nat) {
    && text != "" && (forall i :: 0 <= i < |text| ==> '0' <= text[i] <= '9')
    && (|text| > 1 ==> text[0] != '0') && PlaceValue(text) == n
  }

  function PlaceValue(text: string): int {
    if text == "" then 0 else 10 * PlaceValue(text[..|text| - 1]) + (text[|text| - 1] as int - '0' as int)
  }

  lemma {:induction false} DecimalIsNumeral(n: nat)
    ensures IsNumeral(Decimal(n), n)
    ensures n > 0 ==> Decimal(n)[0] != '0'
  {
    hide Digit;
    DigitIs(n % 10);
    if n >= 10 {
      DecimalIsNumeral(n / 10);
      var text := Decimal(n);
      assert text[..|text| - 1] == Decimal(n / 10);
      assert forall i :: 0 <= i < |text| - 1 ==> text[i] == Decimal(n / 10)[i];
    } else {
      var text := Decimal(n);
      assert n % 10 == n && text == [Digit(n)] && text[..0] == "";
      assert PlaceValue(text[..|text| - 1]) == 0;
    }
  }

  lemma DigitIs(n: nat)
    requires n < 10
    ensures '0' <= Digit(n) <= '9' && Digit(n) as int - '0' as int == n
  {
  }

  /** The stored names, spelled out: run, version and reason, each with a dot between. */
  lemma NamesSpelledOut(k: FailureKey)
    ensures exists v, slug :: IsNumeral(v, k.event.version) && IsSlugOf(k.reason, slug) && Spells(k, v, slug)
  {
    DecimalIsNumeral(k.event.version);
    var v, slug := Decimal(k.event.version), ReasonText(k.reason);
    assert IsSlugOf(k.reason, slug);
    hide Decimal, ReasonText, LabelSafeValue, IsSafeForm, IsNumeral, IsSlugOf, IsLabelUid;
    SafeValueIs(k.event.uid + "." + v + "." + slug);
    if IsLabelUid(k.event.uid) {
      FailureNameIsVerbatim(k);
    }
    assert EventName(k.event) == k.event.uid + "." + v;
    assert Spells(k, v, slug);
  }

  ghost predicate Spells(k: FailureKey, version: string, slug: string) {
    && EventName(k.event) == k.event.uid + "." + version
    && (IsLabelUid(k.event.uid) ==> FailureName(k) == k.event.uid + "." + version + "." + slug)
    && IsSafeForm(k.event.uid + "." + version + "." + slug, FailureName(k))
  }

  /** The slugs as the API and the records spell them. */
  predicate IsSlugOf(r: Reason, slug: string) {
    && (r == MalformedEnvelope ==> slug == "malformed-envelope")
    && (r == MisroutedDispatch ==> slug == "misrouted-dispatch")
    && (r == PolicyRefused ==> slug == "policy-refused")
    && (r == MaxDeliveryExhausted ==> slug == "max-delivery-exhausted")
    && (r == UndeliverableDispatch ==> slug == "undeliverable-dispatch")
  }
}
