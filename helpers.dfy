/** The domain helpers: case numbers, risk levels, the status progression, case validation,
    truncation, initials and the multi-key sort. */
module Helpers {
  import opened Wrappers
  import opened Text
  import opened Types
  import opened Constants

  // ---- generateCaseNumber ----

  function Pow10(k: nat): nat {
    if k == 0 then 1 else 10 * Pow10(k - 1)
  }

  /** A number below `10^k` has at most `k` digits, one at or above has more. */
  lemma {:induction false} NatToStringLength(n: nat, k: nat)
    requires k >= 1
    ensures n < Pow10(k) ==> |NatToString(n)| <= k
    ensures n >= Pow10(k) ==> |NatToString(n)| > k
    decreases k
  {
    if n >= 10 {
      assert |NatToString(n)| == |NatToString(n / 10)| + 1;
      if k > 1 {
        assert Pow10(k) == 10 * Pow10(k - 1);
        assert n < Pow10(k) <==> n / 10 < Pow10(k - 1);
        NatToStringLength(n / 10, k - 1);
      } else {
        assert Pow10(1) == 10;
      }
    } else {
      Pow10Grows(k);
    }
  }

  lemma {:induction false} Pow10Grows(k: nat)
    requires k >= 1
    ensures Pow10(k) >= 10
    decreases k
  {
    if k > 1 {
      Pow10Grows(k - 1);
    }
  }

  /** `CASE-{year}-{sequence}` with the sequence zero-padded to four characters. */
  function GenerateCaseNumber(year: int, sequence: int): string {
    "CASE-" + IntToString(year) + "-" + PadStart(IntToString(sequence), 4, '0')
  }

  /** The part after the year: at least four digits whose value is the sequence, exactly
      four below 10000, and the unpadded digits from 10000 on (nothing is cut off). */
  lemma CaseNumberSequence(year: int, sequence: nat)
    ensures var prefix := "CASE-" + IntToString(year) + "-";
      var r := GenerateCaseNumber(year, sequence);
      StartsWith(r, prefix) &&
      var tail := r[|prefix|..];
      |tail| >= 4 &&
      (forall i :: 0 <= i < |tail| ==> IsDigit(tail[i])) &&
      DigitsValue(tail) == sequence &&
      (sequence < 10000 ==> |tail| == 4) &&
      (sequence >= 10000 ==> tail == NatToString(sequence))
  {
    var prefix := "CASE-" + IntToString(year) + "-";
    var tail := PadStart(NatToString(sequence), 4, '0');
    assert GenerateCaseNumber(year, sequence) == prefix + tail;
    assert (prefix + tail)[|prefix|..] == tail;
    assert (prefix + tail)[..|prefix|] == prefix;
    PaddedSequence(sequence);
  }

  /** The sequence padded to four digits keeps its value. */
  lemma PaddedSequence(sequence: nat)
    ensures var tail := PadStart(NatToString(sequence), 4, '0');
      |tail| >= 4 &&
      (forall i :: 0 <= i < |tail| ==> IsDigit(tail[i])) &&
      DigitsValue(tail) == sequence &&
      (sequence < 10000 ==> |tail| == 4) &&
      (sequence >= 10000 ==> tail == NatToString(sequence))
  {
    var digits := NatToString(sequence);
    var tail := PadStart(digits, 4, '0');
    NatToStringLength(sequence, 4);
    assert Pow10(4) == 10000;
    NatToStringValue(sequence);
    if |digits| < 4 {
      assert tail == Repeat('0', 4 - |digits|) + digits;
      LeadingZerosValue(4 - |digits|, digits);
    }
  }

  // ---- risk ----

  /** `getRiskLevel`: the level of the highest threshold the score reaches. */
  function RiskLevel(score: int): (level: string)
    ensures level in PriorityLevels
  {
    if score >= RiskCritical then "CRITICAL"
    else if score >= RiskHigh then "HIGH"
    else if score >= RiskMedium then "MEDIUM"
    else "LOW"
  }

  function LevelRank(level: string): nat {
    match level
    case "CRITICAL" => 3
    case "HIGH" => 2
    case "MEDIUM" => 1
    case _ => 0
  }

  lemma RiskLevelBands(score: int)
    ensures RiskLevel(score) == "CRITICAL" <==> score >= 90
    ensures RiskLevel(score) == "HIGH" <==> 80 <= score < 90
    ensures RiskLevel(score) == "MEDIUM" <==> 60 <= score < 80
    ensures RiskLevel(score) == "LOW" <==> score < 60
  {
  }

  lemma RiskLevelMonotone(a: int, b: int)
    requires a <= b
    ensures LevelRank(RiskLevel(a)) <= LevelRank(RiskLevel(b))
  {
  }

  /** `getRiskColor`: the classes of the score's level. */
  function RiskColor(score: int): string {
    match RiskLevel(score)
    case "LOW" => "text-green-600 bg-green-50"
    case "MEDIUM" => "text-yellow-600 bg-yellow-50"
    case "HIGH" => "text-orange-600 bg-orange-50"
    case _ => "text-red-600 bg-red-50"
  }

  /** Two scores get the same color exactly when they have the same level. */
  lemma RiskColorByLevel(a: int, b: int)
    ensures RiskColor(a) == RiskColor(b) <==> RiskLevel(a) == RiskLevel(b)
  {
  }

  /** `requiresApproval`: the score reaches the HIGH threshold. */
  function RequiresApproval(riskScore: int): bool {
    riskScore >= RiskThresholds["HIGH"]
  }

  lemma RequiresApprovalIffHighRisk(score: int)
    ensures RequiresApproval(score) <==> RiskLevel(score) == "HIGH" || RiskLevel(score) == "CRITICAL"
  {
  }

  // ---- getNextStatus ----

  /** The next status in the progression; `None` after COMPLETED and for anything outside
      the table. */
  function NextStatus(current: string): (next: Option<string>)
    ensures next.Some? ==> current in CaseStatus && next.value in CaseStatus
  {
    match current
    case "DRAFT" => Some("READY")
    case "READY" => Some("PENDING_APPROVAL")
    case "PENDING_APPROVAL" => Some("IN_INVESTIGATION")
    case "IN_INVESTIGATION" => Some("COMPLETED")
    case _ => None
  }

  /** Where a status stands in the progression. */
  function ChainPosition(status: string): nat {
    match status
    case "DRAFT" => 0
    case "READY" => 1
    case "PENDING_APPROVAL" => 2
    case "IN_INVESTIGATION" => 3
    case _ => 4
  }

  lemma NextStatusAdvances(s: string)
    ensures NextStatus(s).Some? ==> ChainPosition(NextStatus(s).value) == ChainPosition(s) + 1
    ensures NextStatus(s) != Some(s)
    ensures NextStatus(s).None? <==> s !in CaseStatus || s == "COMPLETED"
  {
  }

  /** Applying the progression `n` times. */
  function Walk(s: Option<string>, n: nat): Option<string>
    decreases n
  {
    if n == 0 || s.None? then s else Walk(NextStatus(s.value), n - 1)
  }

  lemma {:induction false} WalkEnds(s: string, n: nat)
    requires n + ChainPosition(s) >= 5
    ensures Walk(Some(s), n) == None
    decreases n
  {
    NextStatusAdvances(s);
    match NextStatus(s)
    case None =>
    case Some(t) => WalkEnds(t, n - 1);
  }

  /** Every status leaves the progression within five steps. */
  lemma ProgressionTerminates(s: string)
    ensures Walk(Some(s), 5) == None
  {
    WalkEnds(s, 5);
  }

  lemma DraftToCompleted()
    ensures Walk(Some("DRAFT"), 4) == Some("COMPLETED")
  {
  }

  // ---- validateCaseData ----

  /** The fields `validateCaseData` reads from its untyped argument. */
  datatype CaseData = CaseData(
    title: Option<string>,
    caseType: Option<string>,
    description: Option<string>,
    riskScore: Option<int>,
    assignedTo: Option<string>)

  /** `!x`, for an optional string. */
  predicate Missing(x: Option<string>) {
    x.None? || x.value == ""
  }

  /** `!x?.trim()`. */
  predicate Blank(x: Option<string>) {
    x.None? || Trim(x.value) == ""
  }

  /** `x < 0 || x > 100`; an absent score compares false both ways. */
  predicate OutOfRange(x: Option<int>) {
    x.Some? && (x.value < 0 || x.value > 100)
  }

  const TitleRequired := "Case title is required"
  const TypeRequired := "Case type is required"
  const DescriptionRequired := "Case description is required"
  const RiskOutOfRange := "Risk score must be between 0 and 100"
  const AssigneeRequired := "Case must be assigned to an investigator"

  /** The messages in the order the checks run. */
  const ValidationMessages := [TitleRequired, TypeRequired, DescriptionRequired, RiskOutOfRange, AssigneeRequired]

  /** Which of the five checks fail, in the same order. */
  function Failures(d: CaseData): seq<bool> {
    [Blank(d.title), Missing(d.caseType), Blank(d.description), OutOfRange(d.riskScore), Missing(d.assignedTo)]
  }

  /** The messages whose flag is set, in order. */
  function Selected(flags: seq<bool>, messages: seq<string>): (r: seq<string>)
    requires |flags| == |messages|
    ensures |r| <= |messages|
  {
    if flags == [] then []
    else (if flags[0] then [messages[0]] else []) + Selected(flags[1..], messages[1..])
  }

  /** The errors `validateCaseData` reports. */
  function ValidationErrors(d: CaseData): seq<string> {
    Selected(Failures(d), ValidationMessages)
  }

  lemma {:induction false} SelectedMembers(flags: seq<bool>, messages: seq<string>, m: string)
    requires |flags| == |messages|
    ensures m in Selected(flags, messages) <==> exists i :: 0 <= i < |flags| && flags[i] && messages[i] == m
    decreases |flags|
  {
    if flags != [] {
      SelectedMembers(flags[1..], messages[1..], m);
      if m in Selected(flags[1..], messages[1..]) {
        var i :| 0 <= i < |flags| - 1 && flags[1..][i] && messages[1..][i] == m;
        assert flags[i + 1] && messages[i + 1] == m;
      }
      if exists i :: 0 <= i < |flags| && flags[i] && messages[i] == m {
        var i :| 0 <= i < |flags| && flags[i] && messages[i] == m;
        if i > 0 {
          assert flags[1..][i - 1] && messages[1..][i - 1] == m;
        }
      }
    }
  }

  /** `a` is `b` with some elements left out. */
  predicate IsSubsequence<T(==)>(a: seq<T>, b: seq<T>)
    decreases |b|
  {
    a == [] || (b != [] && ((a[0] == b[0] && IsSubsequence(a[1..], b[1..])) || IsSubsequence(a, b[1..])))
  }

  lemma {:induction false} SelectedIsSubsequence(flags: seq<bool>, messages: seq<string>)
    requires |flags| == |messages|
    ensures IsSubsequence(Selected(flags, messages), messages)
    decreases |flags|
  {
    if flags != [] {
      var rest := Selected(flags[1..], messages[1..]);
      SelectedIsSubsequence(flags[1..], messages[1..]);
      if flags[0] {
        assert Selected(flags, messages) == [messages[0]] + rest;
        assert ([messages[0]] + rest)[1..] == rest;
      } else {
        assert Selected(flags, messages) == rest;
      }
    }
  }

  /** Each message appears exactly when its check fails, the messages keep the order of the
      checks, and there are at most five; an absent risk score never fails. */
  lemma ValidationErrorsSpec(d: CaseData)
    ensures var e := ValidationErrors(d);
      && (TitleRequired in e <==> Blank(d.title))
      && (TypeRequired in e <==> Missing(d.caseType))
      && (DescriptionRequired in e <==> Blank(d.description))
      && (RiskOutOfRange in e <==> OutOfRange(d.riskScore))
      && (AssigneeRequired in e <==> Missing(d.assignedTo))
      && IsSubsequence(e, ValidationMessages)
      && |e| <= 5
      && (d.riskScore.None? ==> RiskOutOfRange !in e)
      && (e == [] <==> !Blank(d.title) && !Missing(d.caseType) && !Blank(d.description) &&
                       !OutOfRange(d.riskScore) && !Missing(d.assignedTo))
  {
    ValidationErrorsUnrolled(d);
    SelectedIsSubsequence(Failures(d), ValidationMessages);
  }

  /** The message a flag contributes. */
  function Pick(flag: bool, message: string): seq<string> {
    if flag then [message] else []
  }

  /** Five flags select the concatenation of the five picks, in order. */
  lemma SelectedFive(fs: seq<bool>, ms: seq<string>)
    requires |fs| == |ms| == 5
    ensures Selected(fs, ms) ==
      (((Pick(fs[0], ms[0]) + Pick(fs[1], ms[1])) + Pick(fs[2], ms[2])) + Pick(fs[3], ms[3])) + Pick(fs[4], ms[4])
  {
    assert fs[5..] == [] && ms[5..] == [];
    var p0, p1, p2, p3, p4 := Pick(fs[0], ms[0]), Pick(fs[1], ms[1]), Pick(fs[2], ms[2]), Pick(fs[3], ms[3]),
      Pick(fs[4], ms[4]);
    SelectedStep(fs, ms, 4);
    assert Selected(fs[4..], ms[4..]) == p4;
    SelectedStep(fs, ms, 3);
    SelectedStep(fs, ms, 2);
    SelectedStep(fs, ms, 1);
    assert Selected(fs[1..], ms[1..]) == p1 + (p2 + (p3 + p4));
    assert Selected(fs, ms) == p0 + (p1 + (p2 + (p3 + p4)));
    ConcatAssoc(p2, p3, p4);
    ConcatAssoc(p1, p2 + p3, p4);
    ConcatAssoc(p1, p2, p3);
    ConcatAssoc(p0, ((p1 + p2) + p3), p4);
    ConcatAssoc(p0, p1 + p2, p3);
    ConcatAssoc(p0, p1, p2);
  }

  lemma ConcatAssoc<T>(a: seq<T>, b: seq<T>, c: seq<T>)
    ensures (a + b) + c == a + (b + c)
  {
  }

  lemma SelectedStep(fs: seq<bool>, ms: seq<string>, k: nat)
    requires |fs| == |ms| && k < |fs|
    ensures Selected(fs[k..], ms[k..]) == Pick(fs[k], ms[k]) + Selected(fs[k + 1..], ms[k + 1..])
  {
    assert fs[k..][1..] == fs[k + 1..] && ms[k..][1..] == ms[k + 1..];
  }

  lemma ValidationErrorsUnrolled(d: CaseData)
    ensures ValidationErrors(d) == (((Pick(Blank(d.title), TitleRequired) + Pick(Missing(d.caseType), TypeRequired)) +
      Pick(Blank(d.description), DescriptionRequired)) + Pick(OutOfRange(d.riskScore), RiskOutOfRange)) +
      Pick(Missing(d.assignedTo), AssigneeRequired)
  {
    SelectedFive(Failures(d), ValidationMessages);
  }

  /** `validateCaseData`: runs the five checks, pushing the message of each that fails. */
  method ValidateCaseData(d: CaseData) returns (isValid: bool, errors: seq<string>)
    ensures errors == ValidationErrors(d)
    ensures isValid <==> errors == []
  {
    ValidationErrorsUnrolled(d);
    var p0, p1, p2 := Pick(Blank(d.title), TitleRequired), Pick(Missing(d.caseType), TypeRequired),
      Pick(Blank(d.description), DescriptionRequired);
    var p3, p4 := Pick(OutOfRange(d.riskScore), RiskOutOfRange), Pick(Missing(d.assignedTo), AssigneeRequired);
    errors := [];
    if Blank(d.title) {
      errors := errors + [TitleRequired];
    }
    assert errors == p0;
    if Missing(d.caseType) {
      errors := errors + [TypeRequired];
    }
    assert errors == p0 + p1;
    if Blank(d.description) {
      errors := errors + [DescriptionRequired];
    }
    assert errors == (p0 + p1) + p2;
    if OutOfRange(d.riskScore) {
      errors := errors + [RiskOutOfRange];
    }
    assert errors == ((p0 + p1) + p2) + p3;
    if Missing(d.assignedTo) {
      errors := errors + [AssigneeRequired];
    }
    assert errors == (((p0 + p1) + p2) + p3) + p4;
    isValid := |errors| == 0;
  }

  // ---- truncateText ----

  /** `text.substring(0, maxLength) + '...'` once the text is longer than `maxLength`; a
      negative length keeps nothing of the text. */
  function TruncateText(text: string, maxLength: int): (r: string)
    ensures |text| <= maxLength ==> r == text
    ensures |text| > maxLength ==>
      var kept := if maxLength < 0 then 0 else maxLength;
      |r| == kept + 3 && r[..kept] == text[..kept] && r[kept..] == "..."
  {
    if |text| <= maxLength then text
    else text[..if maxLength < 0 then 0 else maxLength] + "..."
  }

  lemma TruncateIdempotent(text: string, maxLength: int)
    ensures TruncateText(TruncateText(text, maxLength), maxLength) == TruncateText(text, maxLength)
  {
    if |text| > maxLength {
      var kept := if maxLength < 0 then 0 else maxLength;
      var r := TruncateText(text, maxLength);
      assert r[..kept] == text[..kept];
      assert r == r[..kept] + "...";
    }
  }

  // ---- getInitials ----

  /** `part.charAt(0).toUpperCase()`: empty for an empty part. */
  function FirstUpper(part: string): (r: string)
    ensures |r| <= 1 && (part != "" ==> r == [ToUpperChar(part[0])])
  {
    if part == "" then "" else [ToUpperChar(part[0])]
  }

  /** The parts' first characters, uppercased and joined. */
  function FirstUppers(parts: seq<string>): (r: string)
    ensures |r| <= |parts|
    ensures forall i :: 0 <= i < |r| ==> !IsAsciiLower(r[i])
  {
    if parts == [] then "" else FirstUpper(parts[0]) + FirstUppers(parts[1..])
  }

  function GetInitials(name: string): (r: string)
    ensures |r| <= 2
    ensures forall i :: 0 <= i < |r| ==> !IsAsciiLower(r[i])
  {
    var all := FirstUppers(Split(name, ' '));
    all[..if |all| < 2 then |all| else 2]
  }

  lemma {:induction false} FirstUppersOfWords(words: seq<string>)
    requires forall i :: 0 <= i < |words| ==> words[i] != ""
    ensures FirstUppers(words) == seq(|words|, i requires 0 <= i < |words| => ToUpperChar(words[i][0]))
    decreases |words|
  {
    if words != [] {
      FirstUppersOfWords(words[1..]);
    }
  }

  /** For non-empty words joined by single spaces, the initials are the uppercased first
      letters of the first two words. */
  lemma InitialsOfWords(words: seq<string>)
    requires |words| >= 1
    requires forall i :: 0 <= i < |words| ==> words[i] != "" && ' ' !in words[i]
    ensures |words| == 1 ==> GetInitials(Join(words, " ")) == [ToUpperChar(words[0][0])]
    ensures |words| >= 2 ==> GetInitials(Join(words, " ")) == [ToUpperChar(words[0][0]), ToUpperChar(words[1][0])]
  {
    SplitJoin(words, ' ');
    InitialsOfParts(words);
  }

  lemma InitialsOfParts(words: seq<string>)
    requires |words| >= 1
    requires forall i :: 0 <= i < |words| ==> words[i] != ""
    ensures var all := FirstUppers(words);
      var n := if |all| < 2 then |all| else 2;
      (|words| == 1 ==> all[..n] == [ToUpperChar(words[0][0])]) &&
      (|words| >= 2 ==> all[..n] == [ToUpperChar(words[0][0]), ToUpperChar(words[1][0])])
  {
    FirstUppersOfWords(words);
  }

  // ---- multiSort ----

  /** A field value the comparator reads: a number or a string. */
  datatype Value = Num(n: int) | Str(s: string)

  /** A row of the sorted array: its fields by name. */
  type Row = map<string, Value>

  datatype SortKey = SortKey(key: string, direction: Direction)

  /** JavaScript `<` on two strings: character by character, a proper prefix first. */
  predicate StrLess(a: string, b: string)
    decreases |a|
  {
    if a == [] then b != []
    else if b == [] then false
    else a[0] < b[0] || (a[0] == b[0] && StrLess(a[1..], b[1..]))
  }

  lemma {:induction false} StrLessIrreflexive(a: string)
    ensures !StrLess(a, a)
    decreases |a|
  {
    if a != [] {
      StrLessIrreflexive(a[1..]);
    }
  }

  lemma {:induction false} StrLessTransitive(a: string, b: string, c: string)
    requires StrLess(a, b) && StrLess(b, c)
    ensures StrLess(a, c)
    decreases |a|
  {
    if a != [] && a[0] == b[0] && b[0] == c[0] {
      StrLessTransitive(a[1..], b[1..], c[1..]);
    }
  }

  lemma {:induction false} StrLessTotal(a: string, b: string)
    ensures a == b || StrLess(a, b) || StrLess(b, a)
    decreases |a|
  {
    if a != [] && b != [] && a[0] == b[0] {
      StrLessTotal(a[1..], b[1..]);
      if a[1..] == b[1..] {
        assert a == [a[0]] + a[1..] && b == [b[0]] + b[1..];
      }
    }
  }

  /** The value of a field, `undefined` when the row lacks it. */
  function Field(row: Row, key: string): (v: Option<Value>)
    ensures v.Some? <==> key in row
    ensures v.Some? ==> v.value == row[key]
  {
    if key in row then Some(row[key]) else None
  }

  /** `<` between two field values: numbers by value, strings character by character;
      `undefined` and a number against a string compare false both ways. */
  predicate Less(v: Option<Value>, w: Option<Value>) {
    match (v, w)
    case (Some(Num(x)), Some(Num(y))) => x < y
    case (Some(Str(x)), Some(Str(y))) => StrLess(x, y)
    case _ => false
  }

  /** Both values are present and of the same kind, so `<` orders them. */
  predicate SameKind(v: Option<Value>, w: Option<Value>) {
    v.Some? && w.Some? && v.value.Num? == w.value.Num?
  }

  lemma LessIrreflexive(v: Option<Value>)
    ensures !Less(v, v)
  {
    if v.Some? && v.value.Str? {
      StrLessIrreflexive(v.value.s);
    }
  }

  lemma LessTransitive(u: Option<Value>, v: Option<Value>, w: Option<Value>)
    requires Less(u, v) && Less(v, w)
    ensures Less(u, w)
  {
    if u.value.Str? {
      StrLessTransitive(u.value.s, v.value.s, w.value.s);
    }
  }

  lemma LessTotal(v: Option<Value>, w: Option<Value>)
    requires SameKind(v, w)
    ensures v == w || Less(v, w) || Less(w, v)
  {
    if v.value.Str? {
      StrLessTotal(v.value.s, w.value.s);
    }
  }

  /** The comparator: the first key on which one row's value is below the other's decides,
      ascending or descending; otherwise the rows compare 0. */
  function CompareRows(a: Row, b: Row, config: seq<SortKey>): (c: int)
    ensures -1 <= c <= 1
    decreases |config|
  {
    if config == [] then 0
    else
      var k := config[0];
      var x, y := Field(a, k.key), Field(b, k.key);
      if Less(x, y) then (if k.direction == Asc then -1 else 1)
      else if Less(y, x) then (if k.direction == Asc then 1 else -1)
      else CompareRows(a, b, config[1..])
  }

  lemma {:induction false} CompareAntisymmetric(a: Row, b: Row, config: seq<SortKey>)
    ensures CompareRows(a, b, config) == -CompareRows(b, a, config)
    decreases |config|
  {
    if config != [] {
      var k := config[0].key;
      if Less(Field(a, k), Field(b, k)) && Less(Field(b, k), Field(a, k)) {
        LessTransitive(Field(a, k), Field(b, k), Field(a, k));
        LessIrreflexive(Field(a, k));
      }
      CompareAntisymmetric(a, b, config[1..]);
    }
  }

  /** Every sort field is present in both rows and holds values of the same kind. */
  predicate Comparable(a: Row, b: Row, config: seq<SortKey>) {
    forall k :: k in config ==> SameKind(Field(a, k.key), Field(b, k.key))
  }

  /** On comparable rows the comparator is transitive (a missing field or a number against
      a string breaks this). */
  lemma {:induction false} CompareTransitive(a: Row, b: Row, c: Row, config: seq<SortKey>)
    requires Comparable(a, b, config) && Comparable(b, c, config)
    requires CompareRows(a, b, config) <= 0 && CompareRows(b, c, config) <= 0
    ensures CompareRows(a, c, config) <= 0
    decreases |config|
  {
    if config != [] {
      var k := config[0].key;
      var x, y, z := Field(a, k), Field(b, k), Field(c, k);
      assert SameKind(x, y) && SameKind(y, z) by { assert config[0] in config; }
      LessTotal(x, y);
      LessTotal(y, z);
      LessIrreflexive(x);
      LessIrreflexive(y);
      if Less(x, y) && Less(y, z) {
        LessTransitive(x, y, z);
      } else if Less(y, x) && Less(z, y) {
        LessTransitive(z, y, x);
      }
      if x == y && y == z {
        CompareTransitive(a, b, c, config[1..]);
      } else if Less(x, z) && Less(z, x) {
        LessTransitive(x, z, x);
      }
    }
  }

  /** Every two rows of the list are comparable. */
  predicate AllComparable(rows: seq<Row>, config: seq<SortKey>) {
    forall a, b :: a in rows && b in rows ==> Comparable(a, b, config)
  }

  /** Every pair in order compares at most 0. */
  predicate SortedBy(rows: seq<Row>, config: seq<SortKey>) {
    forall i, j :: 0 <= i < j < |rows| ==> CompareRows(rows[i], rows[j], config) <= 0
  }

  /** Every neighbouring pair compares at most 0. */
  predicate NeighboursSorted(rows: seq<Row>, config: seq<SortKey>) {
    forall i :: 0 < i < |rows| ==> CompareRows(rows[i - 1], rows[i], config) <= 0
  }

  lemma {:induction false} NeighboursSortedIsSorted(rows: seq<Row>, config: seq<SortKey>)
    requires AllComparable(rows, config) && NeighboursSorted(rows, config)
    ensures SortedBy(rows, config)
    decreases |rows|
  {
    if |rows| > 1 {
      var init := rows[..|rows| - 1];
      assert rows == init + [rows[|rows| - 1]];
      ComparableWithin(init, rows, config);
      assert NeighboursSorted(init, config);
      NeighboursSortedIsSorted(init, config);
      var n := |rows| - 1;
      forall i | 0 <= i < n
        ensures CompareRows(rows[i], rows[n], config) <= 0
      {
        assert init[i] == rows[i];
        if i < n - 1 {
          assert init[n - 1] == rows[n - 1];
          assert rows[i] in rows && rows[n - 1] in rows && rows[n] in rows;
          CompareTransitive(rows[i], rows[n - 1], rows[n], config);
        }
      }
    }
  }

  /** The rows of `s` that tie with `r`, in their order in `s`. */
  function Ties(s: seq<Row>, r: Row, config: seq<SortKey>): seq<Row>
    decreases |s|
  {
    if s == [] then []
    else Ties(s[..|s| - 1], r, config) + (if CompareRows(s[|s| - 1], r, config) == 0 then [s[|s| - 1]] else [])
  }

  // ---- the insertion sort, as a function ----

  /** `x` moved down from the end of `s` past every row that compares above it. */
  function Insert(x: Row, s: seq<Row>, config: seq<SortKey>): (r: seq<Row>)
    ensures |r| == |s| + 1
    ensures r[|s|] == x || (s != [] && r[|s|] == s[|s| - 1])
    decreases |s|
  {
    if s == [] || CompareRows(s[|s| - 1], x, config) <= 0 then s + [x]
    else Insert(x, s[..|s| - 1], config) + [s[|s| - 1]]
  }

  /** Each row in turn inserted into the sorted rows before it. */
  function InsertionSort(s: seq<Row>, config: seq<SortKey>): (r: seq<Row>)
    ensures |r| == |s|
    decreases |s|
  {
    if s == [] then [] else Insert(s[|s| - 1], InsertionSort(s[..|s| - 1], config), config)
  }

  lemma {:induction false} InsertPermutes(x: Row, s: seq<Row>, config: seq<SortKey>)
    ensures multiset(Insert(x, s, config)) == multiset(s) + multiset{x}
    decreases |s|
  {
    if !(s == [] || CompareRows(s[|s| - 1], x, config) <= 0) {
      var init := s[..|s| - 1];
      InsertPermutes(x, init, config);
      assert s == init + [s[|s| - 1]];
    }
  }

  lemma {:induction false} SortPermutes(s: seq<Row>, config: seq<SortKey>)
    ensures multiset(InsertionSort(s, config)) == multiset(s)
    decreases |s|
  {
    if s != [] {
      var init := s[..|s| - 1];
      SortPermutes(init, config);
      InsertPermutes(s[|s| - 1], InsertionSort(init, config), config);
      assert s == init + [s[|s| - 1]];
    }
  }

  /** Inserting into a list whose neighbours are in order keeps them in order. */
  lemma {:induction false} InsertKeepsOrder(x: Row, s: seq<Row>, config: seq<SortKey>)
    requires NeighboursSorted(s, config)
    ensures NeighboursSorted(Insert(x, s, config), config)
    decreases |s|
  {
    if !(s == [] || CompareRows(s[|s| - 1], x, config) <= 0) {
      var n := |s| - 1;
      var init := s[..n];
      assert NeighboursSorted(init, config);
      InsertKeepsOrder(x, init, config);
      var t := Insert(x, init, config);
      CompareAntisymmetric(s[n], x, config);
      assert CompareRows(t[n], s[n], config) <= 0 by {
        if t[n] != x {
          assert t[n] == init[n - 1] == s[n - 1];
        }
      }
      assert Insert(x, s, config) == t + [s[n]];
    }
  }

  lemma {:induction false} SortOrders(s: seq<Row>, config: seq<SortKey>)
    ensures NeighboursSorted(InsertionSort(s, config), config)
    decreases |s|
  {
    if s != [] {
      var init := s[..|s| - 1];
      SortOrders(init, config);
      InsertKeepsOrder(s[|s| - 1], InsertionSort(init, config), config);
    }
  }

  /** A row above one that ties with `r` does not tie with `r`. */
  lemma AboveTieNotTie(e: Row, x: Row, r: Row, config: seq<SortKey>)
    requires Comparable(e, x, config) && Comparable(x, r, config) && Comparable(e, r, config)
    requires CompareRows(e, x, config) > 0 && CompareRows(x, r, config) == 0
    ensures CompareRows(e, r, config) != 0
  {
    if CompareRows(e, r, config) == 0 {
      CompareAntisymmetric(x, r, config);
      CompareTransitive(e, r, x, config);
    }
  }

  /** Inserting `x` adds it at the end of its ties and leaves every other tie list alone. */
  lemma {:induction false} InsertTies(x: Row, s: seq<Row>, r: Row, config: seq<SortKey>)
    requires AllComparable(s + [x, r], config)
    ensures Ties(Insert(x, s, config), r, config) ==
            Ties(s, r, config) + (if CompareRows(x, r, config) == 0 then [x] else [])
    decreases |s|
  {
    if s == [] || CompareRows(s[|s| - 1], x, config) <= 0 {
      assert (s + [x])[..|s|] == s;
    } else {
      var n := |s| - 1;
      var init := s[..n];
      assert AllComparable(init + [x, r], config) by {
        forall a, b | a in init + [x, r] && b in init + [x, r] ensures Comparable(a, b, config) {
          assert a in s + [x, r] && b in s + [x, r];
        }
      }
      InsertTies(x, init, r, config);
      var t := Insert(x, init, config);
      assert (t + [s[n]])[..|t|] == t;
      if CompareRows(x, r, config) == 0 {
        assert s[n] in s + [x, r] && x in s + [x, r] && r in s + [x, r];
        AboveTieNotTie(s[n], x, r, config);
      }
    }
  }

  /** Sorting keeps each tie list in its input order: the sort is stable. */
  lemma {:induction false} SortStable(s: seq<Row>, r: Row, config: seq<SortKey>)
    requires AllComparable(s + [r], config)
    ensures Ties(InsertionSort(s, config), r, config) == Ties(s, r, config)
    decreases |s|
  {
    if s != [] {
      var n := |s| - 1;
      var init := s[..n];
      assert AllComparable(init + [r], config) by {
        forall a, b | a in init + [r] && b in init + [r] ensures Comparable(a, b, config) {
          assert a in s + [r] && b in s + [r];
        }
      }
      SortStable(init, r, config);
      var t := InsertionSort(init, config);
      SortPermutes(init, config);
      assert AllComparable(t + [s[n], r], config) by {
        forall a, b | a in t + [s[n], r] && b in t + [s[n], r] ensures Comparable(a, b, config) {
          assert a in s + [r] && b in s + [r] by {
            if a in t { assert a in multiset(init); }
            if b in t { assert b in multiset(init); }
          }
        }
      }
      InsertTies(s[n], t, r, config);
    }
  }

  /** With no sort keys every row ties, so the sort keeps the input. */
  lemma {:induction false} SortNoKeys(s: seq<Row>)
    ensures InsertionSort(s, []) == s
    decreases |s|
  {
    if s != [] {
      var init, last := s[..|s| - 1], s[|s| - 1];
      SortNoKeys(init);
      assert InsertionSort(s, []) == Insert(last, InsertionSort(init, []), []);
      assert init == [] || CompareRows(init[|init| - 1], last, []) == 0;
      assert s == init + [last];
    }
  }

  // ---- the insertion sort, in place ----

  /** The comparator as the source runs it: a loop over the sort keys that returns at the
      first key on which the rows differ. */
  method Compare(a: Row, b: Row, config: seq<SortKey>) returns (c: int)
    ensures c == CompareRows(a, b, config)
  {
    var i := 0;
    while i < |config|
      invariant 0 <= i <= |config|
      invariant CompareRows(a, b, config) == CompareRows(a, b, config[i..])
    {
      assert config[i..][1..] == config[i + 1..];
      var k := config[i];
      var aVal, bVal := Field(a, k.key), Field(b, k.key);
      if Less(aVal, bVal) {
        return if k.direction == Asc then -1 else 1;
      }
      if Less(bVal, aVal) {
        return if k.direction == Asc then 1 else -1;
      }
      i := i + 1;
    }
    return 0;
  }

  /** `multiSort`: sorts a copy of the rows (the input is a value and stays as it was). The
      result is a permutation of the input with every neighbouring pair in order; when every
      two rows are comparable it is sorted and stable, each tie list keeping its input order;
      with no sort keys it is the input itself. */
  method MultiSort(rows: seq<Row>, config: seq<SortKey>) returns (sorted: seq<Row>)
    ensures sorted == InsertionSort(rows, config)
    ensures multiset(sorted) == multiset(rows)
    ensures NeighboursSorted(sorted, config)
    ensures AllComparable(rows, config) ==> SortedBy(sorted, config)
    ensures AllComparable(rows, config) ==> forall r :: r in rows ==> Ties(sorted, r, config) == Ties(rows, r, config)
    ensures config == [] ==> sorted == rows
  {
    var a := new Row[|rows|](i requires 0 <= i < |rows| => rows[i]);
    assert a[..] == rows;
    SortInPlace(a, config);
    sorted := a[..];
    SortSpec(rows, config);
  }

  /** `Array.prototype.sort` with the comparator, as an insertion sort in place. */
  method SortInPlace(a: array<Row>, config: seq<SortKey>)
    modifies a
    ensures a[..] == InsertionSort(old(a[..]), config)
  {
    ghost var rows := a[..];
    var i := 0;
    while i < a.Length
      invariant 0 <= i <= a.Length == |rows|
      invariant a[..i] == InsertionSort(rows[..i], config) && a[i..] == rows[i..]
    {
      SortExtend(rows, i, config);
      assert a[i] == a[i..][0] == rows[i];
      InsertStep(a, i, config);
      i := i + 1;
    }
    assert rows[..i] == rows && a[..] == a[..i];
  }

  /** Sorting one more row inserts it into the sorted rows before it. */
  lemma SortExtend(rows: seq<Row>, i: int, config: seq<SortKey>)
    requires 0 <= i < |rows|
    ensures InsertionSort(rows[..i + 1], config) == Insert(rows[i], InsertionSort(rows[..i], config), config)
  {
    assert rows[..i + 1][..i] == rows[..i];
  }

  /** Every two rows of a list drawn from a list of comparable rows are comparable. */
  lemma ComparableWithin(small: seq<Row>, big: seq<Row>, config: seq<SortKey>)
    requires AllComparable(big, config) && forall x :: x in small ==> x in big
    ensures AllComparable(small, config)
  {
  }

  /** What the insertion sort promises: a permutation whose neighbours are in order, sorted
      and stable when every two rows are comparable, and the input itself without keys. */
  lemma SortSpec(rows: seq<Row>, config: seq<SortKey>)
    ensures var sorted := InsertionSort(rows, config);
      && multiset(sorted) == multiset(rows)
      && NeighboursSorted(sorted, config)
      && (AllComparable(rows, config) ==> SortedBy(sorted, config))
      && (AllComparable(rows, config) ==> forall r :: r in rows ==> Ties(sorted, r, config) == Ties(rows, r, config))
      && (config == [] ==> sorted == rows)
  {
    var sorted := InsertionSort(rows, config);
    SortPermutes(rows, config);
    SortOrders(rows, config);
    if config == [] {
      SortNoKeys(rows);
    }
    if AllComparable(rows, config) {
      assert AllComparable(sorted, config) by {
        forall x, y | x in sorted && y in sorted ensures Comparable(x, y, config) {
          assert x in multiset(rows) && y in multiset(rows);
        }
      }
      NeighboursSortedIsSorted(sorted, config);
      forall r | r in rows
        ensures Ties(sorted, r, config) == Ties(rows, r, config)
      {
        assert AllComparable(rows + [r], config) by {
          forall x, y | x in rows + [r] && y in rows + [r] ensures Comparable(x, y, config) {
            assert x in rows && y in rows;
          }
        }
        SortStable(rows, r, config);
      }
    }
  }

  /** One pass of the outer loop: `a[i]` moves down past the rows before it that compare
      above it, so the first `i + 1` rows become `Insert(a[i], a[..i])`. */
  method InsertStep(a: array<Row>, i: int, config: seq<SortKey>)
    requires 0 <= i < a.Length
    modifies a
    ensures a[..i + 1] == Insert(old(a[i]), old(a[..i]), config)
    ensures a[i + 1..] == old(a[i + 1..])
  {
    ghost var s, rest := a[..i], a[i + 1..];
    var x := a[i];
    var j := i;
    assert s[..j] == s && s[j..] == [];
    assert a[..] == s[..j] + [x] + s[j..] + rest;
    while j > 0
      invariant 0 <= j <= i
      invariant a[..] == s[..j] + [x] + s[j..] + rest
      invariant Insert(x, s, config) == Insert(x, s[..j], config) + s[j..]
    {
      Placement(s, x, j, rest);
      var c := Compare(a[j - 1], a[j], config);
      if c <= 0 {
        break;
      }
      InsertPassing(x, s, j, config);
      Swap(a, j - 1, j);
      SwapDown(s, x, j, rest);
      j := j - 1;
    }
    InsertStopping(x, s, j, config);
    Placement(s, x, j, rest);
  }

  /** Where the rows sit while `x` is at position `j`. */
  lemma Placement(s: seq<Row>, x: Row, j: int, rest: seq<Row>)
    requires 0 <= j <= |s|
    ensures var t := s[..j] + [x] + s[j..] + rest;
      |t| == |s| + 1 + |rest| && t[j] == x && (j > 0 ==> t[j - 1] == s[j - 1]) &&
      t[..|s| + 1] == s[..j] + [x] + s[j..] && t[|s| + 1..] == rest
  {
  }

  /** Swapping `x` with the row before it moves `x` one place down. */
  lemma SwapDown(s: seq<Row>, x: Row, j: int, rest: seq<Row>)
    requires 0 < j <= |s|
    ensures var t := s[..j] + [x] + s[j..] + rest;
      t[j - 1 := t[j]][j := t[j - 1]] == s[..j - 1] + [x] + s[j - 1..] + rest
  {
    var t := s[..j] + [x] + s[j..] + rest;
    var u := s[..j - 1] + [x] + s[j - 1..] + rest;
    assert |t| == |u|;
    forall k | 0 <= k < |t|
      ensures t[j - 1 := t[j]][j := t[j - 1]][k] == u[k]
    {
      if k < j - 1 {
        assert t[k] == s[k] == u[k];
      } else if j < k <= |s| {
        assert t[k] == s[k - 1] == u[k];
      }
    }
  }

  method Swap(a: array<Row>, i: int, j: int)
    requires 0 <= i < j < a.Length
    modifies a
    ensures a[..] == old(a[..])[i := old(a[j])][j := old(a[i])]
  {
    a[i], a[j] := a[j], a[i];
  }

  /** Moving `x` past `s[j - 1]`, which compares above it. */
  lemma InsertPassing(x: Row, s: seq<Row>, j: int, config: seq<SortKey>)
    requires 0 < j <= |s| && CompareRows(s[j - 1], x, config) > 0
    ensures Insert(x, s[..j], config) + s[j..] == Insert(x, s[..j - 1], config) + s[j - 1..]
  {
    assert s[..j][..j - 1] == s[..j - 1] && s[..j][j - 1] == s[j - 1];
    assert [s[j - 1]] + s[j..] == s[j - 1..];
  }

  /** `x` stops at the front or after a row that does not compare above it. */
  lemma InsertStopping(x: Row, s: seq<Row>, j: int, config: seq<SortKey>)
    requires 0 <= j <= |s| && (j == 0 || CompareRows(s[j - 1], x, config) <= 0)
    ensures Insert(x, s[..j], config) == s[..j] + [x]
  {
    if j > 0 {
      assert s[..j][j - 1] == s[j - 1];
    }
  }
}
