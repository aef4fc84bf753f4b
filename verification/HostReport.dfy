/**
  The report a host probe prints and its strict parser. Characters stand for bytes: a report with anything but ASCII is
  refused by the choices and the digits whatever its length in bytes.
 */
module HostReport {
  import opened Collections
  import opened Option

  const HEADER := "BEEBOT_PREFLIGHT_V1"
  const MAX_OUTPUT := 8192
  const MAX_DIGITS := 15
  const MAX_SAFE_INTEGER := 9007199254740991

  const KEYS: set<string> := {"os", "arch", "bash", "engine", "compose", "home", "diskKiB", "installation"}

  function Choices(key: string): seq<string> {
    match key
    case "os" => ["Linux", "Darwin", "other"]
    case "arch" => ["x86_64", "aarch64", "arm64", "other"]
    case "bash" => ["available", "missing"]
    case "engine" => ["missing", "unavailable", "local_linux", "unsupported", "remote_context"]
    case "compose" => ["available", "missing"]
    case "home" => ["writable", "readonly", "unavailable"]
    case "installation" => ["absent", "managed_present", "occupied", "locked", "symlink", "unknown"]
    case _ => []
  }

  /** What a line may say: one of the choices of its key, or the free disk space when it is known. */
  datatype Value = Word(word: string) | Disk(size: Option<int>)

  datatype Report = Report(os: string, arch: string, bash: string, engine: string, compose: string, home: string,
                           diskKiB: Option<int>, installation: string)
  {
    predicate Valid() {
      && os in Choices("os") && arch in Choices("arch") && bash in Choices("bash") && engine in Choices("engine")
      && compose in Choices("compose") && home in Choices("home") && installation in Choices("installation")
      && (diskKiB.Some? ==> diskKiB.value >= 0)
    }
  }

  // ---------------------------------------------------------------- decimal numbers

  predicate IsDigit(c: char) { '0' <= c <= '9' }

  predicate Digits(s: string) { forall i :: 0 <= i < |s| ==> IsDigit(s[i]) }

  function Number(s: string): nat
    requires Digits(s)
  {
    if s == "" then 0 else 10 * Number(s[..|s| - 1]) + (s[|s| - 1] - '0') as nat
  }

  function Decimal(n: nat): (s: string)
    ensures Digits(s) && s != ""
  {
    if n < 10 then ['0' + n as char] else Decimal(n / 10) + ['0' + (n % 10) as char]
  }

  function Pow10(k: nat): nat { if k == 0 then 1 else 10 * Pow10(k - 1) }

  lemma {:induction false} NumberOfDecimal(n: nat)
    ensures Number(Decimal(n)) == n
  {
    var s := Decimal(n);
    if n >= 10 {
      NumberOfDecimal(n / 10);
      assert s[..|s| - 1] == Decimal(n / 10);
    }
  }

  lemma {:induction false} DecimalLength(n: nat, k: nat)
    requires k > 0
    ensures |Decimal(n)| <= k <==> n < Pow10(k)
    decreases k
  {
    if k == 1 {
      assert Pow10(1) == 10;
      if n >= 10 {
        assert |Decimal(n / 10)| >= 1;
      }
    } else if n < 10 {
      assert Pow10(k) == 10 * Pow10(k - 1);
      PowPositive(k - 1);
    } else {
      DecimalLength(n / 10, k - 1);
    }
  }

  lemma {:induction false} PowPositive(k: nat)
    ensures Pow10(k) >= 1
  {
    if k > 0 {
      PowPositive(k - 1);
    }
  }

  lemma {:induction false} NumberIsBounded(s: string)
    requires Digits(s)
    ensures Number(s) < Pow10(|s|)
  {
    if s != "" {
      NumberIsBounded(s[..|s| - 1]);
    }
  }

  lemma {:induction false} PowMonotone(j: nat, k: nat)
    requires j <= k
    ensures Pow10(j) <= Pow10(k)
  {
    if j < k {
      PowMonotone(j, k - 1);
    }
  }

  /** The limit on digits already keeps every accepted size a safe integer. */
  lemma DigitLimitIsSafe(s: string)
    requires Digits(s) && |s| <= MAX_DIGITS
    ensures Number(s) < Pow10(MAX_DIGITS) <= MAX_SAFE_INTEGER
  {
    NumberIsBounded(s);
    PowMonotone(|s|, MAX_DIGITS);
    PowerOfFifteen();
  }

  lemma PowerOfFifteen()
    ensures Pow10(15) == 1000000000000000
  {
    assert Pow10(5) == 100000;
    assert Pow10(10) == 10000000000;
  }

  // ---------------------------------------------------------------- lines

  function Lines(s: string): (ls: seq<string>)
    ensures ls != []
  {
    if s == "" then [""]
    else if s[0] == '\n' then [""] + Lines(s[1..])
    else var ls := Lines(s[1..]); [[s[0]] + ls[0]] + ls[1..]
  }

  /** Lines as printed, each ended by a newline. */
  function Text(ls: seq<string>): string { if ls == [] then "" else ls[0] + "\n" + Text(ls[1..]) }

  predicate Plain(s: string) { '\n' !in s && '\r' !in s }

  lemma {:induction false} LinesOfOne(l: string, rest: string)
    requires '\n' !in l
    ensures Lines(l + "\n" + rest) == [l] + Lines(rest)
  {
    var s := l + "\n" + rest;
    if l == "" {
      assert s[1..] == rest;
    } else {
      LinesOfOne(l[1..], rest);
      assert [l[0]] + l[1..] == l;
      assert s[1..] == l[1..] + "\n" + rest;
    }
  }

  lemma {:induction false} LinesOfText(ls: seq<string>)
    requires forall l :: l in ls ==> '\n' !in l
    ensures Lines(Text(ls)) == ls + [""]
  {
    if ls != [] {
      LinesOfOne(ls[0], Text(ls[1..]));
      LinesOfText(ls[1..]);
      assert Text(ls) == ls[0] + "\n" + Text(ls[1..]);
    }
  }

  lemma {:induction false} TextOfLines(s: string)
    requires Lines(s)[|Lines(s)| - 1] == ""
    ensures s == Text(Lines(s)[..|Lines(s)| - 1])
  {
    if s != "" {
      var ls, rest := Lines(s), Lines(s[1..]);
      if s[0] == '\n' {
        TextOfLines(s[1..]);
        assert ls[..|ls| - 1] == [""] + rest[..|rest| - 1];
      } else {
        assert |rest| > 1;
        TextOfLines(s[1..]);
        assert ls[..|ls| - 1] == [[s[0]] + rest[0]] + rest[1..|rest| - 1];
        assert s == [s[0]] + s[1..];
        assert rest[..|rest| - 1][1..] == rest[1..|rest| - 1];
      }
    }
  }

  predicate IsLetter(c: char) { 'a' <= c <= 'z' || 'A' <= c <= 'Z' }

  /** The number of letters a line begins with. */
  function Letters(line: string): (k: nat)
    ensures k <= |line|
  {
    if line == "" || !IsLetter(line[0]) then 0 else 1 + Letters(line[1..])
  }

  lemma {:induction false} LettersOf(key: string, text: string)
    requires forall i :: 0 <= i < |key| ==> IsLetter(key[i])
    ensures Letters(key + "=" + text) == |key|
  {
    var line := key + "=" + text;
    if key != "" {
      LettersOf(key[1..], text);
      assert line[1..] == key[1..] + "=" + text;
    }
  }

  // ---------------------------------------------------------------- the parser and its specification

  /** What the text after the equals sign means for a key; no unknown key means anything. */
  function Meaning(key: string, text: string): Option<Value> {
    if key == "diskKiB" then
      if text == "unknown" then Some(Disk(None))
      else if 1 <= |text| <= MAX_DIGITS && Digits(text) then Some(Disk(Some(Number(text))))
      else None
    else if text in Choices(key) then Some(Word(text)) else None
  }

  /** One line: letters, an equals sign and a text, its key being new. */
  function AddLine(parsed: map<string, Value>, line: string): Option<map<string, Value>> {
    var k := Letters(line);
    if k == 0 || k == |line| || line[k] != '=' || line[..k] in parsed then None
    else
      match Meaning(line[..k], line[k + 1..])
      case None => None
      case Some(value) => Some(parsed[line[..k] := value])
  }

  function ParseLines(lines: seq<string>, parsed: map<string, Value>): Option<map<string, Value>> {
    if lines == [] then Some(parsed)
    else
      match AddLine(parsed, lines[0])
      case None => None
      case Some(next) => ParseLines(lines[1..], next)
  }

  predicate Complete(parsed: map<string, Value>) {
    && parsed.Keys == KEYS
    && forall key :: key in parsed ==> if key == "diskKiB" then parsed[key].Disk? else parsed[key].Word?
  }

  function ToReport(parsed: map<string, Value>): Report
    requires Complete(parsed)
  {
    Report(parsed["os"].word, parsed["arch"].word, parsed["bash"].word, parsed["engine"].word, parsed["compose"].word,
           parsed["home"].word, parsed["diskKiB"].size, parsed["installation"].word)
  }

  function Parsed(output: string): Option<map<string, Value>> {
    var lines := Lines(output);
    if |output| > MAX_OUTPUT || '\r' in output || |lines| != 10 || lines[9] != "" || lines[0] != HEADER then None
    else ParseLines(lines[1..9], map[])
  }

  /** The parser's answer: the report when every line is understood. */
  function Parse(output: string): Option<Report> {
    match Parsed(output)
    case None => None
    case Some(parsed) => if Complete(parsed) then Some(ToReport(parsed)) else None
  }

  // ---------------------------------------------------------------- which outputs are accepted

  datatype Field = Field(key: string, text: string)

  function Render(fields: seq<Field>): seq<string> {
    if fields == [] then [] else [fields[0].key + "=" + fields[0].text] + Render(fields[1..])
  }

  function Output(fields: seq<Field>): string { Text([HEADER] + Render(fields)) }

  predicate Known(f: Field) { Meaning(f.key, f.text).Some? }

  predicate DistinctKeys(fields: seq<Field>) { forall i, j :: 0 <= i < j < |fields| ==> fields[i].key != fields[j].key }

  /** The eight keys in some order, each once, each with a text that means something for it. */
  predicate WellFormed(fields: seq<Field>) {
    |fields| == 8 && DistinctKeys(fields) && forall f :: f in fields ==> Known(f)
  }

  function KeySet(fields: seq<Field>): set<string> { if fields == [] then {} else {fields[0].key} + KeySet(fields[1..]) }

  predicate Holds(parsed: map<string, Value>, fields: seq<Field>) {
    forall f :: f in fields ==> f.key in parsed && Meaning(f.key, f.text) == Some(parsed[f.key])
  }

  predicate Letter(key: string) { key != "" && forall i :: 0 <= i < |key| ==> IsLetter(key[i]) }

  lemma KnownKey(f: Field)
    requires Known(f)
    ensures f.key in KEYS && Letter(f.key) && |f.key| <= 12
  {
    hide Letter;
    KeyIsLetters(f.key);
  }

  lemma KeyIsLetters(key: string)
    ensures key in KEYS ==> Letter(key) && |key| <= 12
  {
  }

  predicate Short(s: string) { |s| <= 15 && forall i :: 0 <= i < |s| ==> s[i] == '_' || IsLetter(s[i]) || IsDigit(s[i]) }

  lemma EngineChoicesAreShort()
    ensures forall word :: word in Choices("engine") ==> Short(word)
  {
  }

  lemma InstallationChoicesAreShort()
    ensures forall word :: word in Choices("installation") ==> Short(word)
  {
  }

  lemma ChoicesAreShort(key: string)
    ensures forall word :: word in Choices(key) ==> Short(word)
  {
    if key == "engine" {
      EngineChoicesAreShort();
    } else if key == "installation" {
      InstallationChoicesAreShort();
    }
  }

  lemma KnownTextIsShort(f: Field)
    requires Known(f)
    ensures Short(f.text)
  {
    ChoicesAreShort(f.key);
    assert Short("unknown");
  }

  lemma KnownLine(f: Field)
    requires Known(f)
    ensures var line := f.key + "=" + f.text;
            Plain(line) && |line| <= 28 && Letters(line) == |f.key| && line[..|f.key|] == f.key && line[|f.key| + 1..] == f.text
  {
    hide Meaning, Known;
    KnownKey(f);
    KnownTextIsShort(f);
    LettersOf(f.key, f.text);
  }

  lemma {:induction false} KeySetOf(fields: seq<Field>)
    ensures forall key :: key in KeySet(fields) <==> exists f :: f in fields && f.key == key
    ensures DistinctKeys(fields) ==> |KeySet(fields)| == |fields|
  {
    if fields != [] {
      KeySetOf(fields[1..]);
      assert forall f :: f in fields <==> f == fields[0] || f in fields[1..];
    }
  }

  /** Eight distinct known keys are all the keys, which is why nothing can be missing after eight accepted lines. */
  lemma EightKeysAreAll(fields: seq<Field>)
    requires WellFormed(fields)
    ensures KeySet(fields) == KEYS
  {
    hide Meaning, Known, KeySet, Letter;
    KeySetOf(fields);
    forall key | key in KeySet(fields)
      ensures key in KEYS
    {
      var f :| f in fields && f.key == key;
      KnownKey(f);
    }
    SubsetSize(KeySet(fields), KEYS);
  }

  lemma ParseOneLine(f: Field, rest: seq<string>, parsed: map<string, Value>)
    requires Known(f) && f.key !in parsed
    ensures ParseLines([f.key + "=" + f.text] + rest, parsed)
            == ParseLines(rest, parsed[f.key := Meaning(f.key, f.text).value])
  {
    hide Meaning, Letters;
    KnownLine(f);
    KnownKey(f);
    assert AddLine(parsed, f.key + "=" + f.text) == Some(parsed[f.key := Meaning(f.key, f.text).value]);
    assert ([f.key + "=" + f.text] + rest)[1..] == rest;
  }

  lemma {:induction false} ParseLinesOfFields(fields: seq<Field>, parsed: map<string, Value>)
    requires DistinctKeys(fields) && forall f :: f in fields ==> Known(f) && f.key !in parsed
    ensures var r := ParseLines(Render(fields), parsed);
            && r.Some? && r.value.Keys == parsed.Keys + KeySet(fields) && Holds(r.value, fields)
            && forall key :: key in parsed ==> r.value[key] == parsed[key]
  {
    hide Meaning;
    if fields != [] {
      hide ParseLines;
      var f := fields[0];
      ParseOneLine(f, Render(fields[1..]), parsed);
      var next := parsed[f.key := Meaning(f.key, f.text).value];
      ParseLinesOfFields(fields[1..], next);
      var r := ParseLines(Render(fields), parsed);
      assert Meaning(f.key, f.text) == Some(r.value[f.key]);
      assert forall g :: g in fields <==> g == f || g in fields[1..];
    }
  }

  lemma {:induction false} FieldsOfLines(lines: seq<string>, parsed: map<string, Value>) returns (fields: seq<Field>)
    requires ParseLines(lines, parsed).Some?
    ensures lines == Render(fields) && |fields| == |lines| && DistinctKeys(fields)
    ensures forall f :: f in fields ==> Known(f) && f.key !in parsed
  {
    hide Meaning;
    if lines == [] {
      fields := [];
    } else {
      var line, k := lines[0], Letters(lines[0]);
      var next := parsed[line[..k] := Meaning(line[..k], line[k + 1..]).value];
      var rest := FieldsOfLines(lines[1..], next);
      fields := [Field(line[..k], line[k + 1..])] + rest;
      assert line == line[..k] + "=" + line[k + 1..];
      assert fields[1..] == rest;
    }
  }

  lemma {:induction false} RenderedLines(fields: seq<Field>)
    requires forall f :: f in fields ==> Known(f)
    ensures |Render(fields)| == |fields| && forall l :: l in Render(fields) ==> Plain(l) && |l| <= 28
  {
    if fields != [] {
      KnownLine(fields[0]);
      RenderedLines(fields[1..]);
    }
  }

  lemma {:induction false} TextIsPlain(ls: seq<string>)
    requires forall l :: l in ls ==> '\r' !in l && |l| <= 28
    ensures '\r' !in Text(ls) && |Text(ls)| <= 29 * |ls|
  {
    if ls != [] {
      TextIsPlain(ls[1..]);
    }
  }

  lemma MeaningKind(key: string, text: string)
    requires Meaning(key, text).Some?
    ensures if key == "diskKiB" then Meaning(key, text).value.Disk? else Meaning(key, text).value.Word?
  {
    hide Choices, Number;
  }

  lemma CompleteWhenWellFormed(fields: seq<Field>, parsed: map<string, Value>)
    requires WellFormed(fields) && parsed.Keys == KeySet(fields) && Holds(parsed, fields)
    ensures Complete(parsed)
  {
    hide Meaning, KeySet, Known, DistinctKeys;
    EightKeysAreAll(fields);
    KeySetOf(fields);
    forall key | key in parsed
      ensures if key == "diskKiB" then parsed[key].Disk? else parsed[key].Word?
    {
      var f :| f in fields && f.key == key;
      assert Meaning(f.key, f.text) == Some(parsed[f.key]);
      MeaningKind(f.key, f.text);
    }
  }

  lemma OutputLines(fields: seq<Field>)
    requires WellFormed(fields)
    ensures Lines(Output(fields)) == [HEADER] + Render(fields) + [""] && |Render(fields)| == 8
    ensures '\r' !in Output(fields) && |Output(fields)| <= MAX_OUTPUT
  {
    hide Known, Lines, Text, KeySet, DistinctKeys;
    var ls := [HEADER] + Render(fields);
    RenderedLines(fields);
    assert forall l :: l in ls ==> Plain(l) && |l| <= 28 by {
      assert |HEADER| <= 28 && '\n' !in HEADER && '\r' !in HEADER;
    }
    LinesOfText(ls);
    TextIsPlain(ls);
  }

  /** Eight well-formed lines are accepted in every order, each line giving its key's value. */
  lemma EveryOrderIsAccepted(fields: seq<Field>)
    requires WellFormed(fields)
    ensures var parsed := Parsed(Output(fields));
            parsed.Some? && Complete(parsed.value) && Holds(parsed.value, fields)
            && Parse(Output(fields)) == Some(ToReport(parsed.value))
  {
    hide Meaning, Complete, Letters, Known, Output, ParseLines, Lines, Render, KeySet;
    OutputLines(fields);
    var lines := Lines(Output(fields));
    assert lines[1..9] == Render(fields);
    ParseLinesOfFields(fields, map[]);
    CompleteWhenWellFormed(fields, ParseLines(Render(fields), map[]).value);
  }

  /** Whatever is accepted is eight well-formed lines after the header, each key exactly once. */
  lemma OnlyReportsAreAccepted(output: string) returns (fields: seq<Field>)
    requires Parsed(output).Some?
    ensures WellFormed(fields) && KeySet(fields) == KEYS && output == Output(fields)
    ensures Complete(Parsed(output).value) && Holds(Parsed(output).value, fields)
  {
    hide ParseLines, Letters, Complete, Text, Known, Lines, KeySet, Render, Meaning;
    var lines := Lines(output);
    fields := FieldsOfLines(lines[1..9], map[]);
    TextOfLines(output);
    assert lines[..9] == [HEADER] + lines[1..9];
    EightKeysAreAll(fields);
    ParseLinesOfFields(fields, map[]);
    CompleteWhenWellFormed(fields, Parsed(output).value);
  }

  /** Nothing understood line by line is ever refused as incomplete. */
  lemma CompletenessIsImplied(output: string)
    ensures Parse(output).Some? <==> Parsed(output).Some?
  {
    if Parsed(output).Some? {
      var fields := OnlyReportsAreAccepted(output);
    }
  }

  // ---------------------------------------------------------------- printing and parsing

  function DiskText(size: Option<int>): string
    requires size.Some? ==> size.value >= 0
  {
    if size.None? then "unknown" else Decimal(size.value)
  }

  function Fields(r: Report): seq<Field>
    requires r.Valid()
  {
    [Field("os", r.os), Field("arch", r.arch), Field("bash", r.bash), Field("engine", r.engine),
     Field("compose", r.compose), Field("home", r.home),
     Field("diskKiB", DiskText(r.diskKiB)),
     Field("installation", r.installation)]
  }

  /** What the probe prints for the host it found. */
  function Print(r: Report): string
    requires r.Valid()
  {
    Output(Fields(r))
  }

  lemma DiskMeaning(n: nat)
    ensures Meaning("diskKiB", Decimal(n)) == if n < Pow10(MAX_DIGITS) then Some(Disk(Some(n))) else None
  {
    DecimalLength(n, MAX_DIGITS);
    NumberOfDecimal(n);
    assert Decimal(n)[0] != "unknown"[0];
  }

  lemma WordMeaning(key: string, text: string)
    requires text in Choices(key)
    ensures Meaning(key, text) == Some(Word(text))
  {
    hide Number;
  }

  lemma WordMeanings(r: Report)
    requires r.Valid()
    ensures Meaning("os", r.os) == Some(Word(r.os)) && Meaning("arch", r.arch) == Some(Word(r.arch))
    ensures Meaning("bash", r.bash) == Some(Word(r.bash)) && Meaning("engine", r.engine) == Some(Word(r.engine))
    ensures Meaning("compose", r.compose) == Some(Word(r.compose)) && Meaning("home", r.home) == Some(Word(r.home))
    ensures Meaning("installation", r.installation) == Some(Word(r.installation))
  {
    hide Choices, Meaning;
    WordMeaning("os", r.os);
    WordMeaning("arch", r.arch);
    WordMeaning("bash", r.bash);
    WordMeaning("engine", r.engine);
    WordMeaning("compose", r.compose);
    WordMeaning("home", r.home);
    WordMeaning("installation", r.installation);
  }

  /** What the text of the disk field means. */
  lemma DiskFieldMeaning(size: Option<int>)
    requires size.Some? ==> 0 <= size.value < Pow10(MAX_DIGITS)
    ensures Meaning("diskKiB", DiskText(size)) == Some(Disk(size))
  {
    hide Pow10;
    if size.Some? {
      DiskMeaning(size.value);
    }
  }

  lemma FieldsAreKnown(r: Report)
    requires r.Valid() && (r.diskKiB.Some? ==> r.diskKiB.value < Pow10(MAX_DIGITS))
    ensures forall f :: f in Fields(r) ==> Known(f)
  {
    hide Pow10, DiskText, Choices, Meaning;
    DiskFieldMeaning(r.diskKiB);
    WordMeanings(r);
  }

  lemma FieldKeysAreDistinct(r: Report)
    requires r.Valid()
    ensures DistinctKeys(Fields(r))
  {
    hide Pow10, DiskText, Choices, r.Valid;
  }

  lemma FieldsAreWellFormed(r: Report)
    requires r.Valid() && (r.diskKiB.Some? ==> r.diskKiB.value < Pow10(MAX_DIGITS))
    ensures WellFormed(Fields(r))
  {
    hide Pow10, DiskText, Known, r.Valid, DistinctKeys;
    FieldsAreKnown(r);
    FieldKeysAreDistinct(r);
  }

  lemma ReportOfFields(r: Report, parsed: map<string, Value>)
    requires r.Valid() && (r.diskKiB.Some? ==> r.diskKiB.value < Pow10(MAX_DIGITS))
    requires Complete(parsed) && Holds(parsed, Fields(r))
    ensures ToReport(parsed) == r
  {
    hide Pow10, DiskText, Choices, Complete, Meaning;
    DiskFieldMeaning(r.diskKiB);
    WordMeanings(r);
    var fields := Fields(r);
    assert fields[0] in fields && fields[1] in fields && fields[2] in fields && fields[3] in fields;
    assert fields[4] in fields && fields[5] in fields && fields[6] in fields && fields[7] in fields;
  }

  lemma {:induction false} EveryLineIsUnderstood(lines: seq<string>, parsed: map<string, Value>, i: int)
    requires ParseLines(lines, parsed).Some? && 0 <= i < |lines|
    ensures var k := Letters(lines[i]);
            0 < k < |lines[i]| && Meaning(lines[i][..k], lines[i][k + 1..]).Some?
  {
    hide Meaning, Letters;
    if i > 0 {
      EveryLineIsUnderstood(lines[1..], AddLine(parsed, lines[0]).value, i - 1);
    }
  }

  lemma FieldsHaveNoNewline(r: Report)
    requires r.Valid()
    ensures forall f :: f in Fields(r) ==> '\n' !in f.key && '\n' !in f.text
  {
    hide Choices;
    forall key
      ensures forall word :: word in Choices(key) ==> '\n' !in word
    {
      ChoicesAreShort(key);
    }
  }

  lemma {:induction false} RenderedWithoutNewline(fields: seq<Field>)
    requires forall f :: f in fields ==> '\n' !in f.key && '\n' !in f.text
    ensures |Render(fields)| == |fields| && forall l :: l in Render(fields) ==> '\n' !in l
    ensures forall i :: 0 <= i < |fields| ==> Render(fields)[i] == fields[i].key + "=" + fields[i].text
  {
    if fields != [] {
      RenderedWithoutNewline(fields[1..]);
    }
  }

  lemma LinesOfOutput(fields: seq<Field>)
    requires forall f :: f in fields ==> '\n' !in f.key && '\n' !in f.text
    ensures Lines(Output(fields)) == [HEADER] + Render(fields) + [""]
  {
    hide Text, Lines, Render;
    var ls := [HEADER] + Render(fields);
    RenderedWithoutNewline(fields);
    assert forall l :: l in ls ==> '\n' !in l by {
      assert '\n' !in HEADER;
    }
    LinesOfText(ls);
  }

  lemma UnknownFieldIsRefused(fields: seq<Field>, i: int)
    requires |fields| == 8 && 0 <= i < 8 && Letter(fields[i].key) && !Known(fields[i])
    requires forall f :: f in fields ==> '\n' !in f.key && '\n' !in f.text
    ensures Parsed(Output(fields)).None?
  {
    hide Letters, Lines, ParseLines, Meaning, Render, Output;
    LinesOfOutput(fields);
    RenderedWithoutNewline(fields);
    var lines := Render(fields);
    assert Lines(Output(fields))[1..9] == lines;
    var f := fields[i];
    LettersOf(f.key, f.text);
    assert lines[i][..|f.key|] == f.key && lines[i][|f.key| + 1..] == f.text;
    if ParseLines(lines, map[]).Some? {
      EveryLineIsUnderstood(lines, map[], i);
    }
  }

  lemma LargeDiskIsRefused(r: Report)
    requires r.Valid() && r.diskKiB.Some? && r.diskKiB.value >= Pow10(MAX_DIGITS)
    ensures Parsed(Print(r)).None?
  {
    hide Pow10, Decimal, Output, Parsed, Meaning, r.Valid;
    FieldsHaveNoNewline(r);
    DiskMeaning(r.diskKiB.value);
    assert Fields(r)[6] == Field("diskKiB", Decimal(r.diskKiB.value));
    UnknownFieldIsRefused(Fields(r), 6);
  }

  /** Parsing gives back every printed report with less than 10^15 KiB free, and no other printed report is accepted. */
  lemma ParseInvertsPrint(r: Report)
    requires r.Valid()
    ensures Parse(Print(r)) == if r.diskKiB.Some? && r.diskKiB.value >= Pow10(MAX_DIGITS) then None else Some(r)
  {
    hide Pow10, Parsed, Complete, Output, Fields, ToReport, WellFormed, r.Valid;
    if r.diskKiB.Some? && r.diskKiB.value >= Pow10(MAX_DIGITS) {
      LargeDiskIsRefused(r);
    } else {
      FieldsAreWellFormed(r);
      EveryOrderIsAccepted(Fields(r));
      ReportOfFields(r, Parsed(Print(r)).value);
    }
  }

  // ---------------------------------------------------------------- the loop

  method ParseLine(parsed: map<string, Value>, line: string) returns (next: Option<map<string, Value>>)
    ensures next == AddLine(parsed, line)
  {
    hide Letters, Choices, Number, Pow10;
    var k := Letters(line);
    if k == 0 || k == |line| || line[k] != '=' || line[..k] in parsed {
      return None;
    }
    var key, value := line[..k], line[k + 1..];
    if key == "diskKiB" {
      if value == "unknown" {
        return Some(parsed[key := Disk(None)]);
      }
      if !(1 <= |value| <= MAX_DIGITS && Digits(value)) {
        return None;
      }
      DigitLimitIsSafe(value);
      if Number(value) > MAX_SAFE_INTEGER {
        return None;
      }
      return Some(parsed[key := Disk(Some(Number(value)))]);
    }
    return if value in Choices(key) then Some(parsed[key := Word(value)]) else None;
  }

  method ParseHostReport(output: string) returns (r: Option<Report>)
    ensures r == Parse(output)
  {
    hide AddLine, Lines, KeySet, ToReport, Output, WellFormed, Holds;
    var all := Lines(output);
    if |output| > MAX_OUTPUT || '\r' in output || |all| != 10 || all[9] != "" || all[0] != HEADER {
      return None;
    }
    var lines := all[1..9];
    var parsed: map<string, Value> := map[];
    var i := 0;
    while i < |lines|
      invariant 0 <= i <= |lines|
      invariant ParseLines(lines[i..], parsed) == Parsed(output)
    {
      var next := ParseLine(parsed, lines[i]);
      if next.None? {
        return None;
      }
      parsed := next.value;
      i := i + 1;
    }
    ghost var fields := OnlyReportsAreAccepted(output);
    if "diskKiB" !in parsed || !(forall key :: key in KEYS - {"diskKiB"} ==> key in parsed) {
      return None;
    }
    return Some(ToReport(parsed));
  }
}
