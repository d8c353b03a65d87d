/**
 * Replay fixtures on disk: header lines, a blank line, the body verbatim. Bytes are modelled as
 * characters, and white space as the ASCII kind.
 */
module Fixture {
  import opened Core
  import opened Scan
  import opened Radix

  const MAX_STATUS: nat := 0xFFFF
  const MAX_OFFSET: nat := 0xFFFF_FFFF_FFFF_FFFF

  datatype Header = Header(key: string, value: string)

  datatype Fixture = Fixture(kind: string, status: nat, contentType: string, chunks: seq<nat>,
                             extra: seq<Header>, body: string)

  datatype ParseError = NoBlankLine | Malformed(line: string) | BadStatus(text: string) | BadOffset(text: string)
                      | Missing(field: string)

  // ----- text -----

  predicate Space(c: char) {
    c == ' ' || c == '\t' || c == '\n' || c == '\r' || c as int == 11 || c as int == 12
  }

  function TrimStart(s: string): string {
    if s != "" && Space(s[0]) then TrimStart(s[1..]) else s
  }

  function TrimEnd(s: string): string {
    if s != "" && Space(s[|s| - 1]) then TrimEnd(s[..|s| - 1]) else s
  }

  function Trim(s: string): string {
    TrimEnd(TrimStart(s))
  }

  /** Neither end is white space. */
  predicate Trimmed(s: string) {
    s == "" || (!Space(s[0]) && !Space(s[|s| - 1]))
  }

  lemma TrimAfterSpace(s: string)
    requires Trimmed(s)
    ensures Trim(s) == s && Trim(" " + s) == s
  {
    assert (" " + s)[1..] == s;
  }

  // ----- header lines -----

  /** The lines of a text, each without its newline and one carriage return before that. */
  function Lines(text: string): seq<string>
    decreases |text|
  {
    if text == "" then []
    else
      var nl := Find(text, '\n');
      if nl == |text| then [text] else [StripCr(text[..nl])] + Lines(text[nl + 1..])
  }

  function SplitHeader(line: string): Option<Header> {
    var i := Find(line, ':');
    if i == |line| then None
    else
      var key := Trim(line[..i]);
      if key == "" then None else Some(Header(key, Trim(line[i + 1..])))
  }

  // ----- the blank line -----

  datatype BlankLine = BlankLine(headerEnd: nat, bodyStart: nat)

  /** Where the first blank line at or after `start` lies, reading on from `i` within its line. */
  function BlankFrom(raw: string, start: nat, i: nat): (r: Option<BlankLine>)
    requires start <= i <= |raw|
    ensures r.Some? ==> r.value.headerEnd < r.value.bodyStart <= |raw|
    decreases |raw| - i
  {
    if i == |raw| then None
    else if raw[i] != '\n' then BlankFrom(raw, start, i + 1)
    else
      var end := if i > start && raw[i - 1] == '\r' then i - 1 else i;
      if end == start then Some(BlankLine(start, i + 1)) else BlankFrom(raw, i + 1, i + 1)
  }

  /** A line runs from `a` to the newline at `b`. */
  ghost predicate LineAt(raw: string, a: nat, b: nat) {
    && a <= b < |raw| && raw[b] == '\n' && (a == 0 || raw[a - 1] == '\n')
    && forall j :: a <= j < b ==> raw[j] != '\n'
  }

  /** ... and holds nothing, or one carriage return. */
  ghost predicate BlankAt(raw: string, a: nat, b: nat) {
    LineAt(raw, a, b) && (b == a || (b == a + 1 && raw[a] == '\r'))
  }

  /** `r` is the first blank line from `start` on, if there is one. */
  ghost predicate FirstBlank(raw: string, start: nat, r: Option<BlankLine>) {
    match r
    case None => forall a, b :: start <= a ==> !BlankAt(raw, a, b)
    case Some(at) =>
      && start <= at.headerEnd < at.bodyStart && BlankAt(raw, at.headerEnd, at.bodyStart - 1)
      && forall a, b :: start <= a < at.headerEnd ==> !BlankAt(raw, a, b)
  }

  lemma {:induction false} BlankIsFirst(raw: string, start: nat, i: nat)
    requires start <= i <= |raw| && (start == 0 || raw[start - 1] == '\n')
    requires forall j :: start <= j < i ==> raw[j] != '\n'
    ensures FirstBlank(raw, start, BlankFrom(raw, start, i))
    decreases |raw| - i
  {
    if i < |raw| {
      if raw[i] != '\n' {
        BlankIsFirst(raw, start, i + 1);
      } else {
        assert LineAt(raw, start, i);
        if !BlankAt(raw, start, i) {
          BlankIsFirst(raw, i + 1, i + 1);
          forall a, b | start <= a <= i ensures !BlankAt(raw, a, b) {
            if a > start {
              assert raw[a - 1] != '\n';
            }
          }
        }
      }
    }
  }

  method FindBlankLine(raw: string) returns (r: Option<BlankLine>)
    ensures r == BlankFrom(raw, 0, 0)
    ensures FirstBlank(raw, 0, r)
  {
    BlankIsFirst(raw, 0, 0);
    var i, lineStart := 0, 0;
    while i < |raw|
      invariant 0 <= lineStart <= i <= |raw|
      invariant BlankFrom(raw, lineStart, i) == BlankFrom(raw, 0, 0)
    {
      if raw[i] == '\n' {
        var end := i;
        if end > lineStart && raw[end - 1] == '\r' {
          end := end - 1;
        }
        if end == lineStart {
          return Some(BlankLine(lineStart, i + 1));
        }
        lineStart := i + 1;
      }
      i := i + 1;
    }
    r := None;
  }

  // ----- numbers -----

  /** A decimal number as the standard parser takes it: an optional plus sign, then digits, within the bound. */
  function ParseNumber(s: string, max: nat): Option<nat> {
    var digits := if s != "" && s[0] == '+' then s[1..] else s;
    if digits == "" || !(forall i :: 0 <= i < |digits| ==> '0' <= digits[i] <= '9') then None
    else
      var n := NumberOf(digits);
      if n <= max then Some(n) else None
  }

  function NumberOf(digits: string): nat
    requires forall i :: 0 <= i < |digits| ==> '0' <= digits[i] <= '9'
  {
    if digits == "" then 0
    else NumberOf(digits[..|digits| - 1]) * 10 + (digits[|digits| - 1] as nat - '0' as nat)
  }

  lemma {:induction false} DecimalParses(n: nat)
    ensures forall i :: 0 <= i < |Decimal(n)| ==> '0' <= Decimal(n)[i] <= '9'
    ensures NumberOf(Decimal(n)) == n
  {
    var s := Decimal(n);
    DigitText(n % 10);
    if n >= 10 {
      DecimalParses(n / 10);
      assert s[..|s| - 1] == Decimal(n / 10);
    } else {
      assert s[..0] == "";
    }
  }

  lemma DigitText(d: nat)
    requires d < 10
    ensures '0' <= TEN[d] <= '9' && TEN[d] as nat - '0' as nat == d
  {
  }

  lemma NumberRoundTrip(n: nat, max: nat)
    requires n <= max
    ensures ParseNumber(Decimal(n), max) == Some(n)
    ensures Trimmed(Decimal(n)) && ',' !in Decimal(n) && '#' !in Decimal(n) && '\n' !in Decimal(n)
  {
    DecimalParses(n);
    var s := Decimal(n);
    assert s[0] != '+';
  }

  // ----- the list of offsets -----

  function Split(s: string, c: char): (parts: seq<string>)
    ensures parts != []
    decreases |s|
  {
    var i := Find(s, c);
    if i == |s| then [s] else [s[..i]] + Split(s[i + 1..], c)
  }

  /** Pieces that are blank after trimming are skipped. */
  function Offsets(tokens: seq<string>): Result<seq<nat>, ParseError> {
    if tokens == [] then Ok([])
    else
      var init := Offsets(tokens[..|tokens| - 1]);
      var tok := Trim(tokens[|tokens| - 1]);
      if init.Err? || tok == "" then init
      else
        match ParseNumber(tok, MAX_OFFSET)
        case None => Err(BadOffset(tok))
        case Some(n) => Ok(init.value + [n])
  }

  /** Everything from a `#` on is a comment. */
  function ChunkList(value: string): Result<seq<nat>, ParseError> {
    var text := Trim(value[..Find(value, '#')]);
    if text == "" then Ok([]) else Offsets(Split(text, ','))
  }

  method ParseChunks(value: string) returns (r: Result<seq<nat>, ParseError>)
    ensures r == ChunkList(value)
  {
    var text := Trim(value[..Find(value, '#')]);
    if text == "" {
      return Ok([]);
    }
    var tokens := Split(text, ',');
    var out: seq<nat> := [];
    for i := 0 to |tokens|
      invariant Offsets(tokens[..i]) == Ok(out)
    {
      assert tokens[..i + 1][..i] == tokens[..i];
      var tok := Trim(tokens[i]);
      if tok == "" {
        continue;
      }
      var n := ParseNumber(tok, MAX_OFFSET);
      if n.None? {
        OffsetsFail(tokens, i + 1);
        return Err(BadOffset(tok));
      }
      out := out + [n.value];
    }
    assert tokens[..|tokens|] == tokens;
    r := Ok(out);
  }

  lemma {:induction false} OffsetsFail(tokens: seq<string>, k: nat)
    requires k <= |tokens| && Offsets(tokens[..k]).Err?
    ensures Offsets(tokens) == Offsets(tokens[..k])
    decreases |tokens|
  {
    if k < |tokens| {
      var init := tokens[..|tokens| - 1];
      assert init[..k] == tokens[..k];
      OffsetsFail(init, k);
    } else {
      assert tokens[..k] == tokens;
    }
  }

  // ----- parsing a file -----

  /** The header fields met so far; a later line of the same name wins. */
  datatype Fields = Fields(kind: Option<string>, status: Option<nat>, contentType: Option<string>,
                           chunks: seq<nat>, extra: seq<Header>)

  const NO_FIELDS := Fields(None, None, None, [], [])

  function AddLine(f: Fields, line: string): Result<Fields, ParseError> {
    if Trim(line) == "" then Ok(f)
    else
      match SplitHeader(line)
      case None => Err(Malformed(line))
      case Some(h) => AddHeader(f, h)
  }

  function AddHeader(f: Fields, h: Header): Result<Fields, ParseError> {
    if h.key == "kind" then Ok(f.(kind := Some(h.value)))
    else if h.key == "status" then
      match ParseNumber(h.value, MAX_STATUS)
      case None => Err(BadStatus(h.value))
      case Some(n) => Ok(f.(status := Some(n)))
    else if h.key == "content-type" then Ok(f.(contentType := Some(h.value)))
    else if h.key == "chunks" then
      match ChunkList(h.value)
      case Err(e) => Err(e)
      case Ok(list) => Ok(f.(chunks := list))
    else Ok(f.(extra := f.extra + [h]))
  }

  function AddLines(f: Fields, lines: seq<string>): Result<Fields, ParseError>
    decreases |lines|
  {
    if lines == [] then Ok(f)
    else
      match AddLine(f, lines[0])
      case Err(e) => Err(e)
      case Ok(g) => AddLines(g, lines[1..])
  }

  function Assemble(f: Fields, body: string): Result<Fixture, ParseError> {
    if f.kind.None? then Err(Missing("kind"))
    else if f.status.None? then Err(Missing("status"))
    else if f.contentType.None? then Err(Missing("content-type"))
    else Ok(Fixture(f.kind.value, f.status.value, f.contentType.value, f.chunks, f.extra, body))
  }

  function Parsed(raw: string): Result<Fixture, ParseError> {
    match BlankFrom(raw, 0, 0)
    case None => Err(NoBlankLine)
    case Some(sep) =>
      match AddLines(NO_FIELDS, Lines(raw[..sep.headerEnd]))
      case Err(e) => Err(e)
      case Ok(f) => Assemble(f, raw[sep.bodyStart..])
  }

  method Parse(raw: string) returns (r: Result<Fixture, ParseError>)
    ensures r == Parsed(raw)
  {
    var sep := FindBlankLine(raw);
    if sep.None? {
      return Err(NoBlankLine);
    }
    var lines := Lines(raw[..sep.value.headerEnd]);
    var body := raw[sep.value.bodyStart..];
    var fields := NO_FIELDS;
    var i := 0;
    assert lines[0..] == lines;
    while i < |lines|
      invariant 0 <= i <= |lines|
      invariant AddLines(NO_FIELDS, lines) == AddLines(fields, lines[i..])
    {
      assert lines[i..][1..] == lines[i + 1..];
      var line := lines[i];
      i := i + 1;
      if Trim(line) == "" {
        continue;
      }
      var header := SplitHeader(line);
      if header.None? {
        return Err(Malformed(line));
      }
      var key, value := header.value.key, header.value.value;
      if key == "kind" {
        fields := fields.(kind := Some(value));
      } else if key == "status" {
        var n := ParseNumber(value, MAX_STATUS);
        if n.None? {
          return Err(BadStatus(value));
        }
        fields := fields.(status := n);
      } else if key == "content-type" {
        fields := fields.(contentType := Some(value));
      } else if key == "chunks" {
        var list := ParseChunks(value);
        if list.Err? {
          return Err(list.error);
        }
        fields := fields.(chunks := list.value);
      } else {
        fields := fields.(extra := fields.extra + [header.value]);
      }
    }
    r := Assemble(fields, body);
  }

  // ----- printing a file -----

  function Lower(s: string): string {
    if s == "" then ""
    else [if 'A' <= s[0] <= 'Z' then (s[0] as int + 32) as char else s[0]] + Lower(s[1..])
  }

  predicate Contains(s: string, part: string) {
    part <= s || (s != "" && Contains(s[1..], part))
  }

  predicate Credential(key: string) {
    var k := Lower(key);
    k == "authorization" || Contains(k, "api_key") || Contains(k, "api-key")
  }

  const REDACTED := "<redacted>"

  function Redact(h: Header): Header {
    if Credential(h.key) then Header(h.key, REDACTED) else h
  }

  function RedactAll(hs: seq<Header>): (r: seq<Header>)
    ensures |r| == |hs| && forall i :: 0 <= i < |r| ==> r[i] == Redact(hs[i])
  {
    if hs == [] then [] else RedactAll(hs[..|hs| - 1]) + [Redact(hs[|hs| - 1])]
  }

  function Join(offsets: seq<nat>): string {
    if offsets == [] then ""
    else
      var last := Decimal(offsets[|offsets| - 1]);
      if |offsets| == 1 then last else Join(offsets[..|offsets| - 1]) + [','] + last
  }

  function RequiredOf(f: Fixture): seq<Header> {
    [Header("kind", f.kind), Header("status", Decimal(f.status)), Header("content-type", f.contentType)]
  }

  function CanonicalOf(f: Fixture): seq<Header> {
    if f.chunks == [] then RequiredOf(f) else RequiredOf(f) + [Header("chunks", Join(f.chunks))]
  }

  /** The header lines in the order they are written. */
  function HeadersOf(f: Fixture): seq<Header> {
    CanonicalOf(f) + RedactAll(f.extra)
  }

  function LineOf(h: Header): string {
    h.key + ": " + h.value
  }

  function Text(hs: seq<Header>): string {
    if hs == [] then "" else Text(hs[..|hs| - 1]) + (LineOf(hs[|hs| - 1]) + "\n")
  }

  function Serialized(f: Fixture): string {
    Text(HeadersOf(f)) + "\n" + f.body
  }

  method SerializeFixture(f: Fixture) returns (bytes: string)
    ensures bytes == Serialized(f)
  {
    var out := SerializeCanonical(f);
    assert CanonicalOf(f) + [] == CanonicalOf(f);
    for i := 0 to |f.extra|
      invariant out == Text(CanonicalOf(f) + RedactAll(f.extra[..i]))
    {
      var h := f.extra[i];
      ExtraNext(f, i);
      var value := if Credential(h.key) then REDACTED else h.value;
      out := Line(out, h.key, value, CanonicalOf(f) + RedactAll(f.extra[..i]));
    }
    assert f.extra[..|f.extra|] == f.extra;
    out := out + "\n";
    bytes := out + f.body;
  }

  lemma ExtraNext(f: Fixture, i: nat)
    requires i < |f.extra|
    ensures CanonicalOf(f) + RedactAll(f.extra[..i + 1]) ==
            (CanonicalOf(f) + RedactAll(f.extra[..i])) + [Redact(f.extra[i])]
  {
    assert f.extra[..i + 1][..i] == f.extra[..i];
  }

  method SerializeCanonical(f: Fixture) returns (out: string)
    ensures out == Text(CanonicalOf(f))
  {
    out := Line("", "kind", f.kind, []);
    out := Line(out, "status", Decimal(f.status), [] + [Header("kind", f.kind)]);
    out := Line(out, "content-type", f.contentType, [] + [Header("kind", f.kind)] + [Header("status", Decimal(f.status))]);
    assert [] + [Header("kind", f.kind)] + [Header("status", Decimal(f.status))]
           + [Header("content-type", f.contentType)] == RequiredOf(f);
    if f.chunks != [] {
      var list := JoinOffsets(f.chunks);
      out := Line(out, "chunks", list, RequiredOf(f));
    }
  }

  /** One more header line. */
  method Line(out: string, key: string, value: string, ghost hs: seq<Header>) returns (r: string)
    requires out == Text(hs)
    ensures r == Text(hs + [Header(key, value)])
  {
    TextSnoc(hs, Header(key, value));
    r := out + (key + ": " + value + "\n");
  }

  method JoinOffsets(offsets: seq<nat>) returns (list: string)
    ensures list == Join(offsets)
  {
    list := "";
    for i := 0 to |offsets|
      invariant list == Join(offsets[..i])
    {
      assert offsets[..i + 1][..i] == offsets[..i];
      if i > 0 {
        list := list + [','];
      }
      list := list + Decimal(offsets[i]);
    }
    assert offsets[..|offsets|] == offsets;
  }

  lemma TextSnoc(hs: seq<Header>, h: Header)
    ensures Text(hs + [h]) == Text(hs) + (LineOf(h) + "\n")
  {
    assert (hs + [h])[..|hs|] == hs;
  }

  // ----- what survives the round trip -----

  predicate OneLine(s: string) {
    Trimmed(s) && '\n' !in s
  }

  predicate Printable(h: Header) {
    h.key != "" && OneLine(h.key) && ':' !in h.key && OneLine(h.value)
  }

  predicate Canonical(key: string) {
    key == "kind" || key == "status" || key == "content-type" || key == "chunks"
  }

  predicate PrintableFixture(f: Fixture) {
    && OneLine(f.kind) && OneLine(f.contentType) && f.status <= MAX_STATUS
    && (forall i :: 0 <= i < |f.chunks| ==> f.chunks[i] <= MAX_OFFSET)
    && (forall i :: 0 <= i < |f.extra| ==> Printable(f.extra[i]) && !Canonical(f.extra[i].key))
  }

  // ----- one line -----

  lemma LineSplits(h: Header)
    requires Printable(h)
    ensures SplitHeader(LineOf(h)) == Some(h) && Trim(LineOf(h)) != ""
  {
    var line := LineOf(h);
    assert line == h.key + [':'] + (" " + h.value);
    FindIn(h.key, ':', " " + h.value);
    assert line[..|h.key|] == h.key && line[|h.key| + 1..] == " " + h.value;
    TrimAfterSpace(h.key);
    TrimAfterSpace(h.value);
    TrimKeepsStart(line);
  }

  lemma TrimKeepsStart(s: string)
    requires s != "" && !Space(s[0])
    ensures Trim(s) != ""
  {
    TrimEndKeeps(s);
  }

  lemma {:induction false} TrimEndKeeps(s: string)
    requires s != "" && !Space(s[0])
    ensures TrimEnd(s) != ""
  {
    if Space(s[|s| - 1]) {
      TrimEndKeeps(s[..|s| - 1]);
    }
  }

  lemma LineIsLine(h: Header)
    requires Printable(h)
    ensures '\n' !in LineOf(h) && LineOf(h) != "" && StripCr(LineOf(h)) == LineOf(h)
    ensures LineOf(h)[|LineOf(h)| - 1] != '\r'
  {
    var line := LineOf(h);
    assert line[|line| - 1] == if h.value == "" then ' ' else h.value[|h.value| - 1];
  }

  // ----- the header block -----

  lemma {:induction false} LinesSnoc(text: string, line: string)
    requires text != "" ==> text[|text| - 1] == '\n'
    requires '\n' !in line
    ensures Lines(text + (line + "\n")) == Lines(text) + [StripCr(line)]
    decreases |text|
  {
    var all := text + (line + "\n");
    if text == "" {
      assert all == line + ['\n'] + "";
      FindIn(line, '\n', "");
      assert all[..|line|] == line && all[|line| + 1..] == "";
    } else {
      var nl := Find(text, '\n');
      FindEnd(text);
      FindKeeps(text, '\n', line + "\n");
      SliceThrough(text, line + "\n", nl);
      LinesSnoc(text[nl + 1..], line);
      assert [StripCr(text[..nl])] + (Lines(text[nl + 1..]) + [StripCr(line)]) == Lines(text) + [StripCr(line)];
    }
  }

  lemma SliceThrough(a: string, b: string, i: nat)
    requires i < |a|
    ensures (a + b)[..i] == a[..i] && (a + b)[i + 1..] == a[i + 1..] + b
  {
  }

  lemma {:induction false} FindEnd(text: string)
    requires text != "" && text[|text| - 1] == '\n'
    ensures Find(text, '\n') < |text|
  {
    if text[0] != '\n' {
      FindEnd(text[1..]);
    }
  }

  ghost predicate AllPrintable(hs: seq<Header>) {
    forall i :: 0 <= i < |hs| ==> Printable(hs[i])
  }

  function LinesOf(hs: seq<Header>): seq<string> {
    if hs == [] then [] else LinesOf(hs[..|hs| - 1]) + [LineOf(hs[|hs| - 1])]
  }

  lemma {:induction false} TextLines(hs: seq<Header>)
    requires AllPrintable(hs)
    ensures Lines(Text(hs)) == LinesOf(hs)
    ensures Text(hs) != "" ==> Text(hs)[|Text(hs)| - 1] == '\n'
  {
    if hs != [] {
      var init, h := hs[..|hs| - 1], hs[|hs| - 1];
      TextLines(init);
      LineIsLine(h);
      LinesSnoc(Text(init), LineOf(h));
    }
  }

  lemma {:induction false} ScanLine(raw: string, start: nat, i: nat, e: nat)
    requires start <= i <= e < |raw| && forall j :: i <= j < e ==> raw[j] != '\n'
    ensures BlankFrom(raw, start, i) == BlankFrom(raw, start, e)
    decreases e - i
  {
    if i < e {
      ScanLine(raw, start, i + 1, e);
    }
  }

  lemma PassLine(raw: string, start: nat, line: string)
    requires start + |line| < |raw| && raw[start..start + |line|] == line && raw[start + |line|] == '\n'
    requires '\n' !in line && line != "" && line[|line| - 1] != '\r'
    ensures BlankFrom(raw, start, start) == BlankFrom(raw, start + |line| + 1, start + |line| + 1)
  {
    var e := start + |line|;
    assert forall j :: start <= j < e ==> raw[j] == line[j - start];
    ScanLine(raw, start, start, e);
  }

  /** The header block has no blank line: the search arrives at its end. */
  lemma {:induction false} NoBlankInText(hs: seq<Header>, after: string)
    requires AllPrintable(hs)
    ensures BlankFrom(Text(hs) + after, 0, 0) == BlankFrom(Text(hs) + after, |Text(hs)|, |Text(hs)|)
    decreases |hs|
  {
    if hs != [] {
      var init, h := hs[..|hs| - 1], hs[|hs| - 1];
      NoBlankInText(init, (LineOf(h) + "\n") + after);
      LineIsLine(h);
      PassLineIn(Text(init), LineOf(h), after);
      assert Text(init) + ((LineOf(h) + "\n") + after) == Text(hs) + after;
    }
  }

  lemma PassLineIn(before: string, line: string, after: string)
    requires '\n' !in line && line != "" && line[|line| - 1] != '\r'
    ensures var raw := before + (line + "\n") + after;
            BlankFrom(raw, |before|, |before|) == BlankFrom(raw, |before| + |line| + 1, |before| + |line| + 1)
  {
    var raw, start := before + (line + "\n") + after, |before|;
    assert raw[start..start + |line|] == line && raw[start + |line|] == '\n';
    PassLine(raw, start, line);
  }

  lemma BlankFound(hs: seq<Header>, body: string)
    requires AllPrintable(hs)
    ensures var n := |Text(hs)|;
            BlankFrom(Text(hs) + "\n" + body, 0, 0) == Some(BlankLine(n, n + 1))
  {
    NoBlankInText(hs, "\n" + body);
    var raw := Text(hs) + "\n" + body;
    assert raw == Text(hs) + ("\n" + body) && raw[|Text(hs)|] == '\n';
  }

  // ----- folding the headers -----

  function AddHeaders(f: Fields, hs: seq<Header>): Result<Fields, ParseError> {
    if hs == [] then Ok(f)
    else
      match AddHeaders(f, hs[..|hs| - 1])
      case Err(e) => Err(e)
      case Ok(g) => AddHeader(g, hs[|hs| - 1])
  }

  lemma {:induction false} AddLinesSnoc(f: Fields, lines: seq<string>, line: string)
    ensures AddLines(f, lines + [line]) ==
            match AddLines(f, lines) case Err(e) => Err(e) case Ok(g) => AddLine(g, line)
    decreases |lines|
  {
    if lines == [] {
      assert [] + [line] == [line] && [line][1..] == [];
    } else {
      assert (lines + [line])[1..] == lines[1..] + [line];
      match AddLine(f, lines[0]) {
        case Err(_) =>
        case Ok(g) => AddLinesSnoc(g, lines[1..], line);
      }
    }
  }

  lemma {:induction false} AddLinesIsHeaders(f: Fields, hs: seq<Header>)
    requires AllPrintable(hs)
    ensures AddLines(f, LinesOf(hs)) == AddHeaders(f, hs)
  {
    if hs != [] {
      var init, h := hs[..|hs| - 1], hs[|hs| - 1];
      AddLinesIsHeaders(f, init);
      AddLinesSnoc(f, LinesOf(init), LineOf(h));
      LineSplits(h);
    }
  }

  lemma AddHeadersSnoc(f: Fields, hs: seq<Header>, h: Header)
    requires AddHeaders(f, hs).Ok?
    ensures AddHeaders(f, hs + [h]) == AddHeader(AddHeaders(f, hs).value, h)
  {
    assert (hs + [h])[..|hs|] == hs;
  }

  lemma {:induction false} ExtraHeaders(f: Fields, fixed: seq<Header>, extra: seq<Header>)
    requires AddHeaders(f, fixed).Ok?
    requires forall i :: 0 <= i < |extra| ==> !Canonical(extra[i].key)
    ensures var g := AddHeaders(f, fixed).value;
            AddHeaders(f, fixed + extra) == Ok(g.(extra := g.extra + extra))
  {
    var g := AddHeaders(f, fixed).value;
    if extra == [] {
      assert fixed + extra == fixed && g.extra + extra == g.extra;
    } else {
      var init, h := extra[..|extra| - 1], extra[|extra| - 1];
      ExtraHeaders(f, fixed, init);
      assert fixed + extra == (fixed + init) + [h];
      AddHeadersSnoc(f, fixed + init, h);
      assert g.extra + extra == (g.extra + init) + [h];
    }
  }

  // ----- the offset list -----

  lemma {:induction false} SplitSnoc(a: string, c: char, b: string)
    requires c !in b
    ensures Split(a + [c] + b, c) == Split(a, c) + [b]
    decreases |a|
  {
    var i := Find(a, c);
    if i == |a| {
      SplitOnce(a, c, b);
    } else {
      SplitSnoc(a[i + 1..], c, b);
      FindThrough(a, c, b);
      assert [a[..i]] + (Split(a[i + 1..], c) + [b]) == Split(a, c) + [b];
    }
  }

  lemma FindThrough(a: string, c: char, b: string)
    requires Find(a, c) < |a|
    ensures var s, i := a + [c] + b, Find(a, c);
            Find(s, c) == i && s[..i] == a[..i] && s[i + 1..] == a[i + 1..] + [c] + b
  {
    assert a + [c] + b == a + ([c] + b);
    FindKeeps(a, c, [c] + b);
  }

  lemma SplitOnce(a: string, c: char, b: string)
    requires c !in b && Find(a, c) == |a|
    ensures Split(a + [c] + b, c) == Split(a, c) + [b]
  {
    var s := a + [c] + b;
    FindNone(b, c);
    AbsentFind(a, c);
    FindIn(a, c, b);
    assert s[..|a|] == a && s[|a| + 1..] == b;
  }

  predicate Plain(s: string) {
    s != "" && !Space(s[0]) && !Space(s[|s| - 1]) && '#' !in s && '\n' !in s
  }

  lemma PlainJoin(a: string, b: string)
    requires Plain(a) && Plain(b)
    ensures Plain(a + [','] + b)
  {
    var s := a + [','] + b;
    assert s[0] == a[0] && s[|s| - 1] == b[|b| - 1];
  }

  lemma PlainDecimal(n: nat)
    ensures Plain(Decimal(n)) && ',' !in Decimal(n) && Trim(Decimal(n)) == Decimal(n)
  {
    NumberRoundTrip(n, n);
    TrimAfterSpace(Decimal(n));
  }

  lemma {:induction false} JoinIsPlain(offsets: seq<nat>)
    requires offsets != []
    ensures Plain(Join(offsets))
  {
    PlainDecimal(offsets[|offsets| - 1]);
    if |offsets| > 1 {
      JoinIsPlain(offsets[..|offsets| - 1]);
      PlainJoin(Join(offsets[..|offsets| - 1]), Decimal(offsets[|offsets| - 1]));
    }
  }

  lemma {:induction false} JoinSplits(offsets: seq<nat>)
    requires offsets != [] && forall i :: 0 <= i < |offsets| ==> offsets[i] <= MAX_OFFSET
    ensures Offsets(Split(Join(offsets), ',')) == Ok(offsets)
  {
    var init, n := offsets[..|offsets| - 1], offsets[|offsets| - 1];
    assert offsets == init + [n];
    if init == [] {
      OneOffset(n);
    } else {
      JoinSplits(init);
      NextOffset(Join(init), init, n);
    }
  }

  lemma OneOffset(n: nat)
    requires n <= MAX_OFFSET
    ensures Offsets(Split(Decimal(n), ',')) == Ok([n])
  {
    NumberRoundTrip(n, MAX_OFFSET);
    PlainDecimal(n);
    FindNone(Decimal(n), ',');
    OffsetsSnoc([], Decimal(n), n);
    assert [] + [Decimal(n)] == [Decimal(n)] && [] + [n] == [n];
  }

  lemma NextOffset(list: string, init: seq<nat>, n: nat)
    requires n <= MAX_OFFSET && Offsets(Split(list, ',')) == Ok(init)
    ensures Offsets(Split(list + [','] + Decimal(n), ',')) == Ok(init + [n])
  {
    NumberRoundTrip(n, MAX_OFFSET);
    PlainDecimal(n);
    SplitSnoc(list, ',', Decimal(n));
    OffsetsSnoc(Split(list, ','), Decimal(n), n);
  }

  lemma OffsetsSnoc(tokens: seq<string>, tok: string, n: nat)
    requires Offsets(tokens).Ok? && tok != "" && Trim(tok) == tok && ParseNumber(tok, MAX_OFFSET) == Some(n)
    ensures Offsets(tokens + [tok]) == Ok(Offsets(tokens).value + [n])
  {
    assert (tokens + [tok])[..|tokens|] == tokens;
  }

  lemma OffsetListRoundTrip(offsets: seq<nat>)
    requires offsets != [] && forall i :: 0 <= i < |offsets| ==> offsets[i] <= MAX_OFFSET
    ensures ChunkList(Join(offsets)) == Ok(offsets) && OneLine(Join(offsets))
  {
    var list := Join(offsets);
    JoinSplits(offsets);
    JoinIsPlain(offsets);
    FindNone(list, '#');
    assert list[..|list|] == list;
    TrimAfterSpace(list);
  }

  // ----- the round trip -----

  lemma RequiredPrintable(f: Fixture)
    requires PrintableFixture(f)
    ensures AllPrintable(RequiredOf(f))
  {
    NumberRoundTrip(f.status, MAX_STATUS);
  }

  lemma CanonicalPrintable(f: Fixture)
    requires PrintableFixture(f)
    ensures AllPrintable(CanonicalOf(f))
  {
    RequiredPrintable(f);
    if f.chunks != [] {
      OffsetListRoundTrip(f.chunks);
      var chunks := [Header("chunks", Join(f.chunks))];
      assert AllPrintable(chunks);
      ConcatPrintable(RequiredOf(f), chunks);
    }
  }

  lemma HeadersPrintable(f: Fixture)
    requires PrintableFixture(f)
    ensures AllPrintable(HeadersOf(f))
  {
    CanonicalPrintable(f);
    forall i | 0 <= i < |f.extra| ensures Printable(RedactAll(f.extra)[i]) {
      RedactedPrintable(f.extra[i]);
    }
    ConcatPrintable(CanonicalOf(f), RedactAll(f.extra));
  }

  lemma ConcatPrintable(a: seq<Header>, b: seq<Header>)
    requires AllPrintable(a) && AllPrintable(b)
    ensures AllPrintable(a + b)
  {
  }

  lemma RedactedPrintable(h: Header)
    requires Printable(h)
    ensures Printable(Redact(h))
  {
    assert REDACTED[0] == '<' && REDACTED[|REDACTED| - 1] == '>';
  }

  lemma CanonicalHeaders(f: Fixture)
    requires PrintableFixture(f)
    ensures AddHeaders(NO_FIELDS, CanonicalOf(f)) ==
            Ok(Fields(Some(f.kind), Some(f.status), Some(f.contentType), f.chunks, []))
  {
    var a, b, c := Header("kind", f.kind), Header("status", Decimal(f.status)), Header("content-type", f.contentType);
    NumberRoundTrip(f.status, MAX_STATUS);
    AddHeadersSnoc(NO_FIELDS, [], a);
    AddHeadersSnoc(NO_FIELDS, [] + [a], b);
    AddHeadersSnoc(NO_FIELDS, [] + [a] + [b], c);
    assert [] + [a] + [b] + [c] == RequiredOf(f);
    if f.chunks != [] {
      OffsetListRoundTrip(f.chunks);
      AddHeadersSnoc(NO_FIELDS, RequiredOf(f), Header("chunks", Join(f.chunks)));
    }
  }

  /** A printed fixture parses back to itself with its credentials redacted, whatever its body holds. */
  lemma FixtureRoundTrip(f: Fixture)
    requires PrintableFixture(f)
    ensures Parsed(Serialized(f)) == Ok(f.(extra := RedactAll(f.extra)))
  {
    var hs, n := HeadersOf(f), |Text(HeadersOf(f))|;
    HeadersPrintable(f);
    BlankFound(hs, f.body);
    var raw := Serialized(f);
    assert raw[..n] == Text(hs) && raw[n + 1..] == f.body;
    TextLines(hs);
    AddLinesIsHeaders(NO_FIELDS, hs);
    CanonicalHeaders(f);
    ExtraHeaders(NO_FIELDS, CanonicalOf(f), RedactAll(f.extra));
    assert [] + RedactAll(f.extra) == RedactAll(f.extra);
  }
}
