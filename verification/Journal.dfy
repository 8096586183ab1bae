/** The log line as a printer, and a reader that undoes it. */
module Journal {

  /** A field's value: none at all, a flag, or anything else as it prints. */
  datatype Value = Nothing | Flag(on: bool) | Text(text: string)

  datatype Refusal = UnknownField | EmptyValue(key: string) | TooLong(key: string) | ForbiddenCharacter(key: string)

  datatype Result<T> = Written(value: T) | Unsafe(refusal: Refusal)

  const FIELDS: seq<string> := [
    "source_file", "row", "reference", "field", "code", "severity",
    "batch", "action", "project", "contract", "status",
    "count", "rejected", "elapsed_ms"]

  const FORBIDDEN: string := " \t\n\r@\"="

  const MAX_VALUE: nat := 64

  predicate Clean(text: string) { forall c :: c in FORBIDDEN ==> c !in text }

  /** What a field prints as, or why it may not be printed. */
  function ValueOf(key: string, value: Value): Result<string>
    requires value != Nothing
  {
    match value
    case Flag(on) => Written(if on then "true" else "false")
    case Text(text) =>
      if text == "" then Unsafe(EmptyValue(key))
      else if |text| > MAX_VALUE then Unsafe(TooLong(key))
      else if !Clean(text) then Unsafe(ForbiddenCharacter(key))
      else Written(text)
  }

  type Fields = map<string, Value>

  predicate Present(fields: Fields, key: string) { key in fields && fields[key] != Nothing }

  /** The pairs to print, in the order of the keys, or the first refusal met. */
  function Pairs(fields: Fields, keys: seq<string>): Result<seq<(string, string)>> {
    if keys == [] then Written([])
    else if !Present(fields, keys[0]) then Pairs(fields, keys[1..])
    else
      match ValueOf(keys[0], fields[keys[0]])
      case Unsafe(refusal) => Unsafe(refusal)
      case Written(text) =>
        match Pairs(fields, keys[1..])
        case Unsafe(refusal) => Unsafe(refusal)
        case Written(rest) => Written([(keys[0], text)] + rest)
  }

  function Printed(pair: (string, string)): string { pair.0 + "=" + pair.1 }

  function Joined(pairs: seq<(string, string)>): string {
    if pairs == [] then ""
    else if |pairs| == 1 then Printed(pairs[0])
    else Printed(pairs[0]) + " " + Joined(pairs[1..])
  }

  /** A record as one line of text, in the allowlist's order whatever the caller's. */
  function Line(fields: Fields): Result<string> {
    if exists key :: key in fields && key !in FIELDS then Unsafe(UnknownField)
    else
      match Pairs(fields, FIELDS)
      case Unsafe(refusal) => Unsafe(refusal)
      case Written(pairs) => Written(Joined(pairs))
  }

  // ---------------------------------------------------------------- reading a line back

  /** Where a character first stands, or the end. */
  function FirstOf(s: string, c: char): (k: nat)
    ensures k <= |s| && (k < |s| ==> s[k] == c) && forall i :: 0 <= i < k ==> s[i] != c
  {
    if s == "" then 0 else if s[0] == c then 0 else 1 + FirstOf(s[1..], c)
  }

  function ReadPair(token: string): (string, string) {
    var k := FirstOf(token, '=');
    if k == |token| then (token, "") else (token[..k], token[k + 1..])
  }

  function Read(line: string): seq<(string, string)> {
    if line == "" then []
    else
      var k := FirstOf(line, ' ');
      if k == |line| then [ReadPair(line)] else [ReadPair(line[..k])] + Read(line[k + 1..])
  }

  /** Keys without an equals sign or a space, and values without a space. */
  ghost predicate Legible(pairs: seq<(string, string)>) {
    forall i :: 0 <= i < |pairs| ==> '=' !in pairs[i].0 && ' ' !in pairs[i].0 && ' ' !in pairs[i].1
  }

  lemma FirstIsThere(a: string, c: char, b: string)
    requires c !in a
    ensures FirstOf(a + [c] + b, c) == |a|
  {
    var s := a + [c] + b;
    assert s[|a|] == c;
    assert forall i :: 0 <= i < |a| ==> s[i] == a[i];
  }

  lemma FirstIsNowhere(a: string, c: char)
    requires c !in a
    ensures FirstOf(a, c) == |a|
  {
  }

  lemma PairsReadBack(pair: (string, string))
    requires '=' !in pair.0
    ensures ReadPair(Printed(pair)) == pair
  {
    FirstIsThere(pair.0, '=', pair.1);
    var token := pair.0 + ['='] + pair.1;
    assert Printed(pair) == token;
    assert token[..|pair.0|] == pair.0 && token[|pair.0| + 1..] == pair.1;
  }

  lemma {:induction false} JoinedReadsBack(pairs: seq<(string, string)>)
    requires Legible(pairs)
    ensures Read(Joined(pairs)) == pairs
  {
    if pairs != [] {
      var first := Printed(pairs[0]);
      assert ' ' !in first;
      PairsReadBack(pairs[0]);
      if |pairs| == 1 {
        FirstIsNowhere(first, ' ');
      } else {
        var rest := Joined(pairs[1..]);
        JoinedReadsBack(pairs[1..]);
        FirstIsThere(first, ' ', rest);
        var line := first + [' '] + rest;
        assert Joined(pairs) == line;
        assert line[..|first|] == first && line[|first| + 1..] == rest;
      }
    }
  }

  /** What a record shows: its present fields and their text, each once, in the order of the allowlist. */
  ghost predicate Shows(pairs: seq<(string, string)>, fields: Fields, keys: seq<string>) {
    && (forall i :: 0 <= i < |pairs| ==>
          pairs[i].0 in keys && Present(fields, pairs[i].0)
              && ValueOf(pairs[i].0, fields[pairs[i].0]) == Written(pairs[i].1))
    && (forall key :: key in keys && Present(fields, key) ==> exists i :: 0 <= i < |pairs| && pairs[i].0 == key)
  }

  lemma {:induction false} PairsShow(fields: Fields, keys: seq<string>)
    ensures Pairs(fields, keys).Written? <==>
              forall key :: key in keys && Present(fields, key) ==> ValueOf(key, fields[key]).Written?
    ensures Pairs(fields, keys).Written? ==> Shows(Pairs(fields, keys).value, fields, keys)
  {
    if keys != [] {
      PairsShow(fields, keys[1..]);
      assert forall key :: key in keys <==> key == keys[0] || key in keys[1..];
      if Pairs(fields, keys).Written? && Present(fields, keys[0]) {
        var rest := Pairs(fields, keys[1..]).value;
        var pairs := Pairs(fields, keys).value;
        assert pairs == [(keys[0], ValueOf(keys[0], fields[keys[0]]).value)] + rest;
        forall key | key in keys && Present(fields, key) ensures exists i :: 0 <= i < |pairs| && pairs[i].0 == key {
          if key == keys[0] {
            assert pairs[0].0 == key;
          } else {
            var i :| 0 <= i < |rest| && rest[i].0 == key;
            assert pairs[i + 1].0 == key;
          }
        }
      }
    }
  }

  predicate InName(c: char) { 'a' <= c <= 'z' || c == '_' }

  predicate IsName(key: string) { forall k :: 0 <= k < |key| ==> InName(key[k]) }

  lemma FieldsAreNames()
    ensures forall i :: 0 <= i < |FIELDS| ==> IsName(FIELDS[i])
  {
  }

  lemma NamesHoldOnlyNames(key: string, c: char)
    requires IsName(key) && !InName(c)
    ensures c !in key
  {
  }

  lemma TextIsClean(key: string, value: Value)
    requires value != Nothing && ValueOf(key, value).Written?
    ensures Clean(ValueOf(key, value).value) && 0 < |ValueOf(key, value).value| <= MAX_VALUE
  {
  }

  /** What a value reads as in a line. */
  predicate ReadsAs(text: string, value: Value) {
    match value
    case Nothing => false
    case Flag(on) => text == if on then "true" else "false"
    case Text(words) => text == words
  }

  /** No identifier: nothing at all, more than sixty-four characters, or one that could end a field or a line. */
  ghost predicate NoIdentifier(value: Value) {
    value.Text? && (|value.text| == 0 || |value.text| > 64 || exists c :: c in value.text && c in " \t\n\r@\"=")
  }

  lemma PrintsWhatItReads(key: string, value: Value)
    requires value != Nothing
    ensures ValueOf(key, value).Unsafe? <==> NoIdentifier(value)
    ensures ValueOf(key, value).Written? ==> ReadsAs(ValueOf(key, value).value, value)
  {
  }

  lemma NothingIsNoText()
    ensures !NoIdentifier(Nothing)
  {
  }

  /** A line is refused exactly for a key outside the allowlist, or a value that is no identifier. */
  lemma RefusedExactlyWhen(fields: Fields)
    ensures Line(fields).Unsafe? <==>
              || (exists key :: key in fields && key !in FIELDS)
              || (exists key :: key in fields && NoIdentifier(fields[key]))
  {
    hide NoIdentifier, ValueOf;
    forall key | Present(fields, key) ensures ValueOf(key, fields[key]).Unsafe? <==> NoIdentifier(fields[key]) {
      PrintsWhatItReads(key, fields[key]);
    }
    NothingIsNoText();
    PairsShow(fields, FIELDS);
  }

  /** Whatever is written reads back as exactly what the record shows, field for field. */
  lemma WhatIsWrittenReadsBack(fields: Fields)
    requires Line(fields).Written?
    ensures Shows(Read(Line(fields).value), fields, FIELDS)
    ensures Read(Line(fields).value) == Pairs(fields, FIELDS).value
    ensures forall i :: 0 <= i < |Read(Line(fields).value)| ==>
              var pair := Read(Line(fields).value)[i];
              pair.0 in fields && ReadsAs(pair.1, fields[pair.0])
  {
    var pairs := Pairs(fields, FIELDS).value;
    PairsShow(fields, FIELDS);
    FieldsAreNames();
    forall i | 0 <= i < |pairs| ensures '=' !in pairs[i].0 && ' ' !in pairs[i].0 && ' ' !in pairs[i].1 {
      NamesHoldOnlyNames(pairs[i].0, '=');
      NamesHoldOnlyNames(pairs[i].0, ' ');
      TextIsClean(pairs[i].0, fields[pairs[i].0]);
      assert ' ' in FORBIDDEN;
    }
    JoinedReadsBack(pairs);
    forall i | 0 <= i < |pairs| ensures ReadsAs(pairs[i].1, fields[pairs[i].0]) {
      PrintsWhatItReads(pairs[i].0, fields[pairs[i].0]);
    }
  }

  /** So two records with one line show the same: no line hides which record it came from. */
  lemma OneLineOneRecord(a: Fields, b: Fields, key: string)
    requires Line(a).Written? && Line(a) == Line(b)
    ensures Present(a, key) <==> Present(b, key)
    ensures Present(a, key) ==> ValueOf(key, a[key]) == ValueOf(key, b[key])
  {
    WhatIsWrittenReadsBack(a);
    WhatIsWrittenReadsBack(b);
    var pairs := Read(Line(a).value);
    if Present(a, key) {
      var i :| 0 <= i < |pairs| && pairs[i].0 == key;
    }
    if Present(b, key) {
      var i :| 0 <= i < |pairs| && pairs[i].0 == key;
    }
  }

  lemma {:induction false} JoinedKeepsOut(pairs: seq<(string, string)>, c: char)
    requires c != '=' && c != ' '
    requires forall i :: 0 <= i < |pairs| ==> c !in pairs[i].0 && c !in pairs[i].1
    ensures c !in Joined(pairs)
  {
    if |pairs| > 1 { JoinedKeepsOut(pairs[1..], c); }
  }

  /** Nothing a value may not hold gets into a line, so no line forges a second one. */
  lemma NoLineHoldsTheForbidden(fields: Fields, c: char)
    requires Line(fields).Written? && c in "\t\n\r@\""
    ensures c !in Line(fields).value
  {
    var pairs := Pairs(fields, FIELDS).value;
    PairsShow(fields, FIELDS);
    FieldsAreNames();
    forall i | 0 <= i < |pairs| ensures c !in pairs[i].0 && c !in pairs[i].1 {
      NamesHoldOnlyNames(pairs[i].0, c);
      TextIsClean(pairs[i].0, fields[pairs[i].0]);
      assert c in FORBIDDEN;
    }
    JoinedKeepsOut(pairs, c);
  }
}
