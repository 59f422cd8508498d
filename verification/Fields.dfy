/** The typed fields of a request: server/src/protocol/field.cpp. */
module Fields {
  import opened Decimal
  import opened Widths

  datatype Value = Boolean(b: bool) | Integer(n: nat) | Str(s: string)

  datatype Field = Field(name: string, value: Value)

  datatype Parsed = Ok(field: Field) | BadField

  predicate IsBlank(c: char) { c == ' ' || c == '\t' }

  predicate IsLower(c: char) { 'a' <= c <= 'z' }

  predicate AllLower(s: string) { forall c <- s :: IsLower(c) }

  ghost predicate BlankBetween(s: string, i: int, j: int) {
    0 <= i <= j <= |s| && forall k | i <= k < j :: IsBlank(s[k])
  }

  ghost predicate LowerBetween(s: string, i: int, j: int) {
    0 <= i <= j <= |s| && forall k | i <= k < j :: IsLower(s[k])
  }

  /** find_first_not_of(" \t", i), with |s| for npos. */
  function SkipBlanks(s: string, i: nat): (j: nat)
    requires i <= |s|
    ensures BlankBetween(s, i, j)
    ensures j < |s| ==> !IsBlank(s[j])
    decreases |s| - i
  {
    if i < |s| && IsBlank(s[i]) then SkipBlanks(s, i + 1) else i
  }

  /** The end of the run of lower-case letters starting at i. */
  function SkipName(s: string, i: nat): (j: nat)
    requires i <= |s|
    ensures LowerBetween(s, i, j)
    ensures j < |s| ==> !IsLower(s[j])
    decreases |s| - i
  {
    if i < |s| && IsLower(s[i]) then SkipName(s, i + 1) else i
  }

  /** find_last_not_of(" \t") + 1, with 0 for npos. */
  function SolidEnd(s: string, e: nat := |s|): (r: nat)
    requires e <= |s|
    ensures r <= e && BlankBetween(s, r, e)
    ensures r > 0 ==> !IsBlank(s[r - 1])
  {
    if e > 0 && IsBlank(s[e - 1]) then SolidEnd(s, e - 1) else e
  }

  /** The value's type is read off its text. One surrounding pair of apostrophes is
      dropped; a lone apostrophe is both ends of such a pair. */
  function Typed(name: string, value: string): (r: Parsed) {
    if value == "true" then Ok(Field(name, Boolean(true)))
    else if value == "false" then Ok(Field(name, Boolean(false)))
    else if AllDigits(value) then
      if FromDecimal(value) < UINTMAX_COUNT then Ok(Field(name, Integer(FromDecimal(value)))) else BadField
    else if value[0] == '\'' && value[|value| - 1] == '\'' then
      Ok(Field(name, Str(if |value| == 1 then "" else value[1..|value| - 1])))
    else Ok(Field(name, Str(value)))
  }

  function FieldFromString(s: string): (r: Parsed) {
    var nameStart := SkipBlanks(s, 0);
    if nameStart == |s| then BadField
    else
      var nameEnd := SkipName(s, nameStart);
      var colon := SkipBlanks(s, nameEnd);
      if colon == |s| || s[colon] != ':' then BadField
      else
        var valueStart := SkipBlanks(s, colon + 1);
        if valueStart == |s| then BadField
        else
          var valueEnd := SolidEnd(s);
          assert BlankBetween(s, valueEnd, |s|) && !IsBlank(s[valueStart]);
          Typed(s[nameStart..nameEnd], s[valueStart..valueEnd])
  }

  // ---------- the grammar the parser accepts ----------

  /** A field line cut into blanks, name, blanks, a colon, blanks, value and blanks. */
  datatype Cuts = Cuts(nameStart: nat, nameEnd: nat, colon: nat, valueStart: nat, valueEnd: nat)

  ghost predicate Blanks(s: string, i: int, j: int) {
    0 <= i <= j <= |s| && forall k | i <= k < j :: s[k] == ' ' || s[k] == '\t'
  }

  ghost predicate Letters(s: string, i: int, j: int) {
    0 <= i <= j <= |s| && forall k | i <= k < j :: 'a' <= s[k] <= 'z'
  }

  ghost predicate LaidOut(s: string, c: Cuts) {
    && Blanks(s, 0, c.nameStart)
    && Letters(s, c.nameStart, c.nameEnd)
    && Blanks(s, c.nameEnd, c.colon)
    && c.colon < |s| && s[c.colon] == ':'
    && Blanks(s, c.colon + 1, c.valueStart)
    && c.valueStart < c.valueEnd <= |s|
    && s[c.valueStart] !in " \t" && s[c.valueEnd - 1] !in " \t"
    && Blanks(s, c.valueEnd, |s|)
  }

  lemma BlanksAreBlank(s: string, i: int, j: int)
    ensures Blanks(s, i, j) <==> BlankBetween(s, i, j)
    ensures Letters(s, i, j) <==> LowerBetween(s, i, j)
  {
  }

  lemma NoBlank(c: char)
    ensures c !in " \t" <==> !IsBlank(c)
  {
    assert " \t"[0] == ' ' && " \t"[1] == '\t';
  }

  lemma LaidOutBetween(s: string, c: Cuts)
    requires LaidOut(s, c)
    ensures BlankBetween(s, 0, c.nameStart) && LowerBetween(s, c.nameStart, c.nameEnd) && BlankBetween(s, c.nameEnd, c.colon)
    ensures BlankBetween(s, c.colon + 1, c.valueStart) && BlankBetween(s, c.valueEnd, |s|)
    ensures !IsBlank(s[c.valueStart]) && !IsBlank(s[c.valueEnd - 1])
  {
    BlanksAreBlank(s, 0, c.nameStart);
    BlanksAreBlank(s, c.nameStart, c.nameEnd);
    BlanksAreBlank(s, c.nameEnd, c.colon);
    BlanksAreBlank(s, c.colon + 1, c.valueStart);
    BlanksAreBlank(s, c.valueEnd, |s|);
    NoBlank(s[c.valueStart]);
    NoBlank(s[c.valueEnd - 1]);
  }

  lemma BlanksEndAt(s: string, i: nat, j: nat)
    requires BlankBetween(s, i, j) && (j < |s| ==> !IsBlank(s[j]))
    ensures SkipBlanks(s, i) == j
  {
  }

  /** The parser is complete for the grammar: however a name and a value are laid out
      with blanks, the line is read as that name and that value. */
  lemma LaidOutParses(s: string, c: Cuts)
    requires LaidOut(s, c)
    ensures FieldFromString(s) == Typed(s[c.nameStart..c.nameEnd], s[c.valueStart..c.valueEnd])
  {
    hide Typed, Blanks, Letters;
    LaidOutBetween(s, c);
    BlanksEndAt(s, c.colon + 1, c.valueStart);
    assert SolidEnd(s) == c.valueEnd;
    if c.nameStart == c.nameEnd {
      BlanksEndAt(s, 0, c.colon);
      BlanksEndAt(s, c.colon, c.colon);
      assert s[c.colon..c.colon] == s[c.nameStart..c.nameEnd];
    } else {
      assert IsLower(s[c.nameStart]) && !IsLower(s[c.nameEnd]);
      BlanksEndAt(s, 0, c.nameStart);
      BlanksEndAt(s, c.nameEnd, c.colon);
      assert SkipName(s, c.nameStart) == c.nameEnd;
    }
  }

  /** ... and sound: an accepted line is laid out that way. */
  lemma ParsedIsLaidOut(s: string) returns (c: Cuts)
    requires FieldFromString(s).Ok?
    ensures LaidOut(s, c)
  {
    var nameStart := SkipBlanks(s, 0);
    var nameEnd := SkipName(s, nameStart);
    var colon := SkipBlanks(s, nameEnd);
    c := Cuts(nameStart, nameEnd, colon, SkipBlanks(s, colon + 1), SolidEnd(s));
    assert BlankBetween(s, c.valueEnd, |s|) && !IsBlank(s[c.valueStart]);
    BlanksAreBlank(s, 0, c.nameStart);
    BlanksAreBlank(s, c.nameStart, c.nameEnd);
    BlanksAreBlank(s, c.nameEnd, c.colon);
    BlanksAreBlank(s, c.colon + 1, c.valueStart);
    BlanksAreBlank(s, c.valueEnd, |s|);
    NoBlank(s[c.valueStart]);
    NoBlank(s[c.valueEnd - 1]);
    hide Blanks, Letters, BlankBetween, LowerBetween, FieldFromString, Typed, SkipBlanks, SolidEnd;
  }

  // ---------- what a value means ----------

  ghost predicate Digits(value: string) { forall c <- value :: '0' <= c <= '9' }

  ghost predicate Quoted(value: string) { value != "" && value[0] == '\'' && value[|value| - 1] == '\'' }

  /** Text that is neither a truth value nor a number nor in apostrophes. */
  ghost predicate Plain(value: string) {
    value != "" && value != "true" && value != "false" && !Digits(value) && !Quoted(value)
  }

  /** What a laid-out line means, by the form of its value. */
  lemma LaidOutMeans(s: string, c: Cuts)
    requires LaidOut(s, c)
    ensures var name, value, r := s[c.nameStart..c.nameEnd], s[c.valueStart..c.valueEnd], FieldFromString(s);
      && (value == "true" ==> r == Ok(Field(name, Boolean(true))))
      && (value == "false" ==> r == Ok(Field(name, Boolean(false))))
      && (Quoted(value) && |value| >= 2 ==> r == Ok(Field(name, Str(value[1..|value| - 1]))))
      && (value == "'" ==> r == Ok(Field(name, Str(""))))
      && (Plain(value) ==> r == Ok(Field(name, Str(value))))
      && (Digits(value) ==>
            && AllDigits(value)
            && r == if FromDecimal(value) < 0x1_0000_0000_0000_0000 then Ok(Field(name, Integer(FromDecimal(value)))) else BadField)
  {
    LaidOutParses(s, c);
    TypedMeans(s[c.nameStart..c.nameEnd], s[c.valueStart..c.valueEnd]);
    hide FieldFromString, Typed, LaidOut;
  }

  lemma TypedMeans(name: string, value: string)
    requires value != ""
    ensures var r := Typed(name, value);
      && (value == "true" ==> r == Ok(Field(name, Boolean(true))))
      && (value == "false" ==> r == Ok(Field(name, Boolean(false))))
      && (Quoted(value) && |value| >= 2 ==> r == Ok(Field(name, Str(value[1..|value| - 1]))))
      && (value == "'" ==> r == Ok(Field(name, Str(""))))
      && (Plain(value) ==> r == Ok(Field(name, Str(value))))
      && (Digits(value) ==>
            && AllDigits(value)
            && r == if FromDecimal(value) < 0x1_0000_0000_0000_0000 then Ok(Field(name, Integer(FromDecimal(value)))) else BadField)
  {
    assert Digits(value) <==> AllDigits(value);
    assert "true"[0] == 't' && "false"[0] == 'f' && "'"[0] == '\'';
    assert value[0] in value;
    hide FromDecimal;
  }

  /** A laid-out line is refused if and only if its value is a number of more than 64 bits. */
  lemma RefusedExactly(s: string, c: Cuts)
    requires LaidOut(s, c)
    ensures var value := s[c.valueStart..c.valueEnd];
      FieldFromString(s) == BadField <==>
        Digits(value) && AllDigits(value) && FromDecimal(value) >= 0x1_0000_0000_0000_0000
  {
    hide FieldFromString, FromDecimal, Blanks, Letters;
    var value := s[c.valueStart..c.valueEnd];
    LaidOutMeans(s, c);
    if Quoted(value) && |value| == 1 { assert value == "'"; }
  }

  /** Plain text needs no apostrophes. */
  lemma PlainTextParses(name: string, value: string)
    requires forall c <- name :: 'a' <= c <= 'z'
    requires Plain(value) && value[0] !in " \t" && value[|value| - 1] !in " \t"
    ensures FieldFromString(name + ":" + value) == Ok(Field(name, Str(value)))
  {
    hide FieldFromString, Typed;
    NoBlank(value[0]);
    NoBlank(value[|value| - 1]);
    NamedValueParses(name, value);
    TypedMeans(name, value);
  }

  // ---------- what a client prints ----------

  /** The text a client sends for a value: text between apostrophes, a number in
      decimal, a truth value as a word. */
  function Printed(v: Value): string {
    match v
    case Boolean(b) => if b then "true" else "false"
    case Integer(n) => ToDecimal(n)
    case Str(s) => "'" + s + "'"
  }

  predicate Sendable(v: Value) { v.Integer? ==> v.n < 0x1_0000_0000_0000_0000 }

  function PrintedField(f: Field): string { f.name + ":" + Printed(f.value) }

  lemma NamedValueParses(name: string, value: string)
    requires AllLower(name)
    requires value != "" && !IsBlank(value[0]) && !IsBlank(value[|value| - 1])
    ensures FieldFromString(name + ":" + value) == Typed(name, value)
  {
    hide Typed, FieldFromString;
    var s, n := name + ":" + value, |name|;
    assert s[..n] == name && s[n] == ':' && s[n + 1..] == value;
    assert forall k | 0 <= k < n :: s[k] == name[k];
    assert s[n + 1] == value[0] && s[|s| - 1] == value[|value| - 1];
    NoBlank(value[0]);
    NoBlank(value[|value| - 1]);
    BlanksAreBlank(s, 0, n);
    LaidOutParses(s, Cuts(0, n, n, n + 1, |s|));
    assert s[0..n] == name && s[n + 1..|s|] == value;
  }

  lemma PrintedIntegerTypes(name: string, n: nat)
    ensures var text := ToDecimal(n);
      && !IsBlank(text[0]) && !IsBlank(text[|text| - 1])
      && Typed(name, text) == if n < UINTMAX_COUNT then Ok(Field(name, Integer(n))) else BadField
  {
    var text := ToDecimal(n);
    assert text[0] in text && text[|text| - 1] in text;
    assert "true"[0] == 't' && "false"[0] == 'f';
    DecimalRoundTrip(n);
  }

  lemma QuotedTypes(name: string, s: string)
    ensures Typed(name, "'" + s + "'") == Ok(Field(name, Str(s)))
  {
    var text := "'" + s + "'";
    assert text[1..|text| - 1] == s;
    assert text[0] == '\'' && text[0] in text;
    assert "true"[0] == 't' && "false"[0] == 'f';
  }

  /** Reading back a printed field gives the field: embedded apostrophes and empty
      text included, for every integer of 64 bits. */
  lemma FieldRoundTrip(f: Field)
    requires AllLower(f.name) && Sendable(f.value)
    ensures FieldFromString(PrintedField(f)) == Ok(f)
  {
    match f.value {
      case Boolean(b) =>
      case Integer(n) => PrintedIntegerTypes(f.name, n);
      case Str(s) => QuotedTypes(f.name, s);
    }
    NamedValueParses(f.name, Printed(f.value));
  }

  /** The integer range is exact: a decimal the server cannot hold is refused. */
  lemma IntegerRange(name: string, n: nat)
    requires AllLower(name)
    ensures FieldFromString(name + ":" + ToDecimal(n)).Ok? <==> n < 0x1_0000_0000_0000_0000
  {
    PrintedIntegerTypes(name, n);
    NamedValueParses(name, ToDecimal(n));
  }
}
