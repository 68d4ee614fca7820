/** The boot checkpoint's text form: a printer, a parser, and what survives a torn write. */
module Checkpoint {
  import opened Types

  /** A 32-byte hash as its 64 hexadecimal digits. */
  type B256 = d: seq<nat> | |d| == 64 && forall i :: 0 <= i < |d| ==> d[i] < 16 witness seq(64, _ => 0)

  datatype ReconcileCheckpoint = ReconcileCheckpoint(
    l1Block: u64,
    l1BlockHash: B256,
    logIndex: u64,
    txHash: B256,
    l2Cursor: u64,
    l2BlockHash: B256)

  /** The first line, and the key each field is written under, in order. */
  datatype Format = Format(version: string, keys: seq<string>)

  const FORMAT := Format(
    "eez-reconcile-checkpoint v3",
    ["l1_block", "l1_block_hash", "log_index", "tx_hash", "l2_cursor", "l2_block_hash"])

  /** What the reader needs of a format: distinct plain keys, and a first line no trim can change. */
  ghost predicate Readable(fmt: Format) {
    && |fmt.keys| == 6
    && (forall i :: 0 <= i < 6 ==> AllPlain(fmt.keys[i]) && fmt.keys[i] != "")
    && (forall i, j :: 0 <= i < j < 6 ==> fmt.keys[i] != fmt.keys[j])
    && fmt.version != "" && OneLine(fmt.version) && Trim(fmt.version) == fmt.version
  }

  // ---- Characters ----------------------------------------------------------------------------

  function DigitChar(d: nat): char
    requires d < 16
  {
    if d < 10 then ('0' as int + d) as char else ('a' as int + (d - 10)) as char
  }

  /** Value of a hexadecimal digit of either case, or 16. */
  function DigitValue(c: char): nat {
    if '0' <= c <= '9' then c as nat - '0' as nat
    else if 'a' <= c <= 'f' then c as nat - 'a' as nat + 10
    else if 'A' <= c <= 'F' then c as nat - 'A' as nat + 10
    else 16
  }

  lemma {:induction false} DigitRoundTrip(d: nat)
    requires d < 16
    ensures DigitValue(DigitChar(d)) == d
    ensures d < 10 ==> DigitChar(d) as nat == '0' as nat + d
  {
  }

  /** Characters of the printed fields: nothing a line break, a trim or a split could touch. */
  predicate Plain(c: char) {
    '0' <= c <= '9' || 'a' <= c <= 'z' || c == '_'
  }

  ghost predicate AllPlain(s: string) {
    forall i :: 0 <= i < |s| ==> Plain(s[i])
  }

  // ---- Printing --------------------------------------------------------------------------------

  function Dec(n: nat): string {
    if n < 10 then [DigitChar(n)] else Dec(n / 10) + [DigitChar(n % 10)]
  }

  function Hex(h: B256): (r: string)
    ensures |r| == 66
    ensures forall i :: 0 <= i < 64 ==> r[2 + i] == DigitChar(h[i])
    ensures r[0] == '0' && r[1] == 'x'
  {
    "0x" + seq(64, i requires 0 <= i < 64 => DigitChar(h[i]))
  }

  function Field(key: string, value: string): string {
    key + "=" + value
  }

  /** The number or the hash the `k`-th field carries: they alternate. */
  function NumberAt(cp: ReconcileCheckpoint, k: nat): u64 {
    if k == 0 then cp.l1Block else if k == 2 then cp.logIndex else cp.l2Cursor
  }

  function HashAt(cp: ReconcileCheckpoint, k: nat): B256 {
    if k == 1 then cp.l1BlockHash else if k == 3 then cp.txHash else cp.l2BlockHash
  }

  function ValueAt(cp: ReconcileCheckpoint, k: nat): string {
    if k % 2 == 0 then Dec(NumberAt(cp, k)) else Hex(HashAt(cp, k))
  }

  /** The version line, then one line a key. */
  function EncodedLines(fmt: Format, cp: ReconcileCheckpoint): (r: seq<string>)
    ensures |r| == |fmt.keys| + 1 && r[0] == fmt.version
  {
    [fmt.version] + FieldLines(fmt, cp)
  }

  function FieldLines(fmt: Format, cp: ReconcileCheckpoint): (r: seq<string>)
    ensures |r| == |fmt.keys|
    ensures forall i :: 0 <= i < |r| ==> r[i] == Field(fmt.keys[i], ValueAt(cp, i))
  {
    seq(|fmt.keys|, i requires 0 <= i < |fmt.keys| => Field(fmt.keys[i], ValueAt(cp, i)))
  }

  lemma {:induction false} LineAt(fmt: Format, cp: ReconcileCheckpoint, i: nat)
    requires i < |fmt.keys|
    ensures EncodedLines(fmt, cp)[i + 1] == Field(fmt.keys[i], ValueAt(cp, i))
  {
    hide ValueAt;
    assert EncodedLines(fmt, cp)[i + 1] == FieldLines(fmt, cp)[i];
  }

  /** The text of the file, line by line. */
  lemma {:induction false} TextIs(cp: ReconcileCheckpoint)
    ensures EncodedLines(FORMAT, cp) == [
      "eez-reconcile-checkpoint v3",
      "l1_block" + "=" + Dec(cp.l1Block),
      "l1_block_hash" + "=" + Hex(cp.l1BlockHash),
      "log_index" + "=" + Dec(cp.logIndex),
      "tx_hash" + "=" + Hex(cp.txHash),
      "l2_cursor" + "=" + Dec(cp.l2Cursor),
      "l2_block_hash" + "=" + Hex(cp.l2BlockHash)]
  {
    hide Dec, Hex;
    var lines := EncodedLines(FORMAT, cp);
    assert lines == [lines[0], lines[1], lines[2], lines[3], lines[4], lines[5], lines[6]];
  }

  function Join(lines: seq<string>): string {
    if lines == [] then "" else lines[0] + "\n" + Join(lines[1..])
  }

  function Encode(fmt: Format, cp: ReconcileCheckpoint): string {
    Join(EncodedLines(fmt, cp))
  }

  // ---- Parsing -----------------------------------------------------------------------------------

  /** First position of `c`, or the length. */
  function IndexOf(s: string, c: char): (i: nat)
    ensures i <= |s| && (i < |s| ==> s[i] == c) && forall j :: 0 <= j < i ==> s[j] != c
  {
    if s == "" || s[0] == c then 0 else 1 + IndexOf(s[1..], c)
  }

  /** Lines without their `\n` or `\r\n` ending; nothing after a final line break. */
  function Lines(s: string): seq<string>
    decreases |s|
  {
    if s == "" then []
    else
      var i := IndexOf(s, '\n');
      if i == |s| then [s]
      else [if i > 0 && s[i - 1] == '\r' then s[..i - 1] else s[..i]] + Lines(s[i + 1..])
  }

  /** Unicode White_Space. */
  predicate White(c: char) {
    '\t' <= c <= '\r' || c == ' ' || c == '\U{85}' || c == '\U{A0}' || c == '\U{1680}' || '\U{2000}' <= c <= '\U{200A}'
    || c == '\U{2028}' || c == '\U{2029}' || c == '\U{202F}' || c == '\U{205F}' || c == '\U{3000}'
  }

  function TrimStart(s: string): string {
    if s != "" && White(s[0]) then TrimStart(s[1..]) else s
  }

  function TrimEnd(s: string): string {
    if s != "" && White(s[|s| - 1]) then TrimEnd(s[..|s| - 1]) else s
  }

  function Trim(s: string): string {
    TrimEnd(TrimStart(s))
  }

  function Digits(s: string): Option<nat> {
    if s == "" then Some(0)
    else
      var c := s[|s| - 1];
      match Digits(s[..|s| - 1])
      case None => None
      case Some(n) => if '0' <= c <= '9' then Some(10 * n + DigitValue(c)) else None
  }

  /** `u64` from text: an optional `+`, at least one digit, no overflow. */
  function ParseU64(s: string): Option<u64> {
    var body := if |s| > 1 && s[0] == '+' then s[1..] else s;
    if body == "" then None
    else
      match Digits(body)
      case None => None
      case Some(n) => if n <= U64_MAX then Some(n) else None
  }

  predicate HexDigits(s: string) {
    |s| == 64 && forall i :: 0 <= i < |s| ==> DigitValue(s[i]) < 16
  }

  function HexValue(s: string): (h: B256)
    requires HexDigits(s)
    ensures forall i :: 0 <= i < 64 ==> h[i] == DigitValue(s[i])
  {
    seq(64, i requires 0 <= i < 64 => DigitValue(s[i]))
  }

  function StripPrefix(s: string): string {
    if |s| >= 2 && s[0] == '0' && s[1] == 'x' then s[2..] else s
  }

  /** A hash from text: an optional `0x`, then exactly 64 hexadecimal digits. */
  function ParseB256(s: string): Option<B256> {
    var body := StripPrefix(s);
    if HexDigits(body) then Some(HexValue(body)) else None
  }

  datatype Fields = Fields(
    l1Block: Option<u64>,
    l1BlockHash: Option<B256>,
    logIndex: Option<u64>,
    txHash: Option<B256>,
    l2Cursor: Option<u64>,
    l2BlockHash: Option<B256>)

  const NO_FIELDS := Fields(None, None, None, None, None, None)

  /** Which field a key names; past the last for none. */
  function KeyIndex(keys: seq<string>, key: string): (i: nat)
    ensures i <= |keys|
  {
    if keys == [] || keys[0] == key then 0 else 1 + KeyIndex(keys[1..], key)
  }

  function ReadNumber(f: Fields, i: nat, n: Option<u64>): Option<Fields> {
    if n.None? then None
    else if i == 0 then Some(f.(l1Block := n))
    else if i == 2 then Some(f.(logIndex := n))
    else Some(f.(l2Cursor := n))
  }

  function ReadHash(f: Fields, i: nat, h: Option<B256>): Option<Fields> {
    if h.None? then None
    else if i == 1 then Some(f.(l1BlockHash := h))
    else if i == 3 then Some(f.(txHash := h))
    else Some(f.(l2BlockHash := h))
  }

  function ReadPair(f: Fields, i: nat, value: string): Option<Fields> {
    if i >= 6 then None
    else if i % 2 == 0 then ReadNumber(f, i, ParseU64(value))
    else ReadHash(f, i, ParseB256(value))
  }

  /** One line read into the fields; a later line for the same key wins. */
  function ReadLine(keys: seq<string>, f: Fields, raw: string): Option<Fields> {
    var line := Trim(raw);
    if line == "" then Some(f)
    else
      var at := IndexOf(line, '=');
      if at == |line| then None else ReadPair(f, KeyIndex(keys, line[..at]), line[at + 1..])
  }

  function ReadLines(keys: seq<string>, lines: seq<string>): Option<Fields> {
    if lines == [] then Some(NO_FIELDS)
    else
      match ReadLines(keys, lines[..|lines| - 1])
      case None => None
      case Some(f) => ReadLine(keys, f, lines[|lines| - 1])
  }

  function Complete(f: Fields): Option<ReconcileCheckpoint> {
    if f.l1Block.Some? && f.l1BlockHash.Some? && f.logIndex.Some? && f.txHash.Some? && f.l2Cursor.Some?
       && f.l2BlockHash.Some?
    then Some(ReconcileCheckpoint(f.l1Block.value, f.l1BlockHash.value, f.logIndex.value, f.txHash.value,
                                  f.l2Cursor.value, f.l2BlockHash.value))
    else None
  }

  function DecodeLines(fmt: Format, lines: seq<string>): Option<ReconcileCheckpoint> {
    if lines == [] || Trim(lines[0]) != fmt.version then None
    else
      match ReadLines(fmt.keys, lines[1..])
      case None => None
      case Some(f) => Complete(f)
  }

  method Decode(raw: string) returns (r: Option<ReconcileCheckpoint>)
    ensures r == DecodeLines(FORMAT, Lines(raw))
  {
    var lines := Lines(raw);
    if lines == [] || Trim(lines[0]) != FORMAT.version { return None; }
    var fields := ReadAll(FORMAT.keys, lines[1..]);
    if fields.None? { return None; }
    return Complete(fields.value);
  }

  method ReadAll(keys: seq<string>, lines: seq<string>) returns (r: Option<Fields>)
    ensures r == ReadLines(keys, lines)
  {
    var fields := NO_FIELDS;
    for i := 0 to |lines|
      invariant ReadLines(keys, lines[..i]) == Some(fields)
    {
      assert lines[..i + 1][..i] == lines[..i];
      var next := ReadLine(keys, fields, lines[i]);
      if next.None? {
        FailedLine(keys, lines, i + 1);
        return None;
      }
      fields := next.value;
    }
    assert lines[..|lines|] == lines;
    return Some(fields);
  }

  lemma {:induction false} FailedLine(keys: seq<string>, lines: seq<string>, n: nat)
    requires n <= |lines| && ReadLines(keys, lines[..n]).None?
    ensures ReadLines(keys, lines).None?
  {
    if n == |lines| {
      assert lines[..n] == lines;
    } else {
      assert lines[..|lines| - 1][..n] == lines[..n];
      FailedLine(keys, lines[..|lines| - 1], n);
    }
  }

  // ---- Round trip ------------------------------------------------------------------------------

  lemma {:induction false} DigitsSnoc(s: string, d: nat, n: nat)
    requires d < 10 && Digits(s) == Some(n)
    ensures Digits(s + [DigitChar(d)]) == Some(10 * n + d)
  {
    DigitRoundTrip(d);
    assert (s + [DigitChar(d)])[..|s|] == s;
  }

  lemma {:induction false} DecRoundTrip(n: nat)
    ensures Dec(n) != "" && AllPlain(Dec(n)) && Digits(Dec(n)) == Some(n) && Dec(n)[0] != '+'
  {
    if n < 10 {
      DigitRoundTrip(n);
      DigitsSnoc("", n, 0);
      assert "" + [DigitChar(n)] == [DigitChar(n)];
    } else {
      DecRoundTrip(n / 10);
      DigitRoundTrip(n % 10);
      DigitsSnoc(Dec(n / 10), n % 10, n / 10);
    }
  }

  lemma {:induction false} U64RoundTrip(n: u64)
    ensures ParseU64(Dec(n)) == Some(n)
  {
    DecRoundTrip(n);
  }

  /** Any decimal number is read back, with or without a plus sign, unless it is too large. */
  lemma {:induction false} NumbersAreRead(n: nat)
    ensures ParseU64(Dec(n)) == if n <= U64_MAX then Some(n) else None
    ensures ParseU64("+" + Dec(n)) == if n <= U64_MAX then Some(n) else None
  {
    DecRoundTrip(n);
    assert ("+" + Dec(n))[1..] == Dec(n);
  }

  lemma {:induction false} HexRoundTrip(h: B256)
    ensures ParseB256(Hex(h)) == Some(h)
  {
    var body := Hex(h)[2..];
    forall i | 0 <= i < 64
      ensures DigitValue(body[i]) == h[i]
    {
      DigitRoundTrip(h[i]);
      assert body[i] == Hex(h)[2 + i];
    }
    assert HexValue(body) == h;
  }

  /** A hash is read from 64 digits of either case, with or without the prefix, and from nothing else. */
  lemma {:induction false} HashesAreRead(s: string)
    ensures ParseB256(s).Some? <==> HexDigits(s) || ("0x" <= s && HexDigits(s[2..]))
    ensures HexDigits(s) ==> ParseB256(s) == Some(HexValue(s)) && ParseB256("0x" + s) == Some(HexValue(s))
    ensures DigitValue('9') == 9 && DigitValue('a') == DigitValue('A') == 10 && DigitValue('f') == DigitValue('F') == 15
  {
    assert ("0x" + s)[2..] == s;
    if HexDigits(s) { assert DigitValue(s[1]) < 16; }
  }

  lemma {:induction false} HexIsPlain(h: B256)
    ensures AllPlain(Hex(h))
  {
    var s := Hex(h);
    forall i | 0 <= i < |s|
      ensures Plain(s[i])
    {
      if i >= 2 {
        HexDigitPlain(h[i - 2]);
        assert s[i] == s[2 + (i - 2)];
      }
    }
  }

  lemma {:induction false} HexDigitPlain(d: nat)
    requires d < 16
    ensures Plain(DigitChar(d))
  {
  }

  /** No line break and no carriage return inside. */
  ghost predicate OneLine(s: string) {
    forall i :: 0 <= i < |s| ==> s[i] != '\n' && s[i] != '\r'
  }

  lemma {:induction false} IndexOfAt(s: string, c: char, i: nat)
    requires i <= |s| && (i < |s| ==> s[i] == c) && forall j :: 0 <= j < i ==> s[j] != c
    ensures IndexOf(s, c) == i
  {
  }

  lemma {:induction false} FirstLine(line: string, rest: string)
    requires OneLine(line)
    ensures Lines(line + "\n" + rest) == [line] + Lines(rest)
  {
    var s := line + "\n" + rest;
    IndexOfAt(s, '\n', |line|);
    assert s[..|line|] == line && s[|line| + 1..] == rest;
    assert |line| > 0 ==> s[|line| - 1] == line[|line| - 1];
  }

  lemma {:induction false} LastLine(line: string)
    requires OneLine(line)
    ensures Lines(line) == if line == "" then [] else [line]
  {
    IndexOfAt(line, '\n', |line|);
  }

  lemma {:induction false} LinesOfJoin(lines: seq<string>)
    requires forall i :: 0 <= i < |lines| ==> OneLine(lines[i])
    ensures Lines(Join(lines)) == lines
  {
    if lines != [] {
      FirstLine(lines[0], Join(lines[1..]));
      LinesOfJoin(lines[1..]);
      assert lines == [lines[0]] + lines[1..];
    }
  }

  lemma {:induction false} TrimNothing(s: string)
    requires s != "" && !White(s[0]) && !White(s[|s| - 1])
    ensures Trim(s) == s
  {
  }

  /** The shipped format is one the reader can read. */
  lemma {:induction false} FormatIsReadable()
    ensures Readable(FORMAT)
  {
    TrimNothing(FORMAT.version);
    KeysArePlain();
    KeysDiffer();
  }

  lemma {:induction false} KeysArePlain()
    ensures forall i :: 0 <= i < 6 ==> AllPlain(FORMAT.keys[i]) && FORMAT.keys[i] != ""
  {
    var k := FORMAT.keys;
    assert AllPlain(k[0]) && AllPlain(k[1]) && AllPlain(k[2]) && AllPlain(k[3]) && AllPlain(k[4]) && AllPlain(k[5]);
  }

  lemma {:induction false} KeysDiffer()
    ensures forall i, j :: 0 <= i < j < 6 ==> FORMAT.keys[i] != FORMAT.keys[j]
  {
    var k := FORMAT.keys;
    assert |k[0]| == 8 && |k[1]| == 13 && |k[2]| == 9 && |k[3]| == 7 && |k[4]| == 9 && |k[5]| == 13;
    assert k[1][1] == '1' && k[5][1] == '2' && k[2][1] == 'o' && k[4][1] == '2';
  }

  lemma {:induction false} KeyIndexIs(keys: seq<string>, i: nat)
    requires i < |keys| && forall j, k :: 0 <= j < k < |keys| ==> keys[j] != keys[k]
    ensures KeyIndex(keys, keys[i]) == i
  {
    if i > 0 { KeyIndexIs(keys[1..], i - 1); }
  }

  lemma {:induction false} PlainValue(cp: ReconcileCheckpoint, k: nat)
    ensures AllPlain(ValueAt(cp, k)) && ValueAt(cp, k) != ""
  {
    if k % 2 == 0 {
      DecRoundTrip(NumberAt(cp, k));
    } else {
      HexIsPlain(HashAt(cp, k));
    }
  }

  /** A printed line, or what a torn write left of one: plain characters and separators. */
  ghost predicate Printed(s: string) {
    forall i :: 0 <= i < |s| ==> Plain(s[i]) || s[i] == '='
  }

  lemma {:induction false} PrintedLine(s: string)
    requires Printed(s)
    ensures OneLine(s) && (s != "" ==> Trim(s) == s)
  {
    if s != "" { TrimNothing(s); }
  }

  lemma {:induction false} FieldSplits(key: string, value: string)
    requires AllPlain(key) && AllPlain(value)
    ensures
      var line := Field(key, value);
      Printed(line) && IndexOf(line, '=') == |key| && line[..|key|] == key && line[|key| + 1..] == value
  {
    var line := Field(key, value);
    IndexOfAt(line, '=', |key|);
  }

  lemma {:induction false} FieldIsLine(key: string, value: string)
    requires AllPlain(key) && AllPlain(value)
    ensures OneLine(Field(key, value)) && Field(key, value) != ""
  {
    FieldSplits(key, value);
    PrintedLine(Field(key, value));
  }

  lemma {:induction false} EncodedAreLines(fmt: Format, cp: ReconcileCheckpoint)
    requires Readable(fmt)
    ensures forall i :: 0 <= i < 7 ==> OneLine(EncodedLines(fmt, cp)[i]) && EncodedLines(fmt, cp)[i] != ""
  {
    hide ValueAt;
    forall i | 1 <= i < 7
      ensures OneLine(EncodedLines(fmt, cp)[i]) && EncodedLines(fmt, cp)[i] != ""
    {
      PlainValue(cp, i - 1);
      FieldIsLine(fmt.keys[i - 1], ValueAt(cp, i - 1));
      LineAt(fmt, cp, i - 1);
    }
  }

  /** A value that stays on its line and that a trim leaves alone. */
  ghost predicate Fitting(value: string) {
    OneLine(value) && (value == "" || !White(value[|value| - 1]))
  }

  /** Reading a field line. */
  lemma {:induction false} ReadField(keys: seq<string>, f: Fields, key: string, value: string)
    requires AllPlain(key) && key != "" && Fitting(value)
    ensures ReadLine(keys, f, Field(key, value)) == ReadPair(f, KeyIndex(keys, key), value)
    ensures OneLine(Field(key, value))
  {
    var line := Field(key, value);
    IndexOfAt(line, '=', |key|);
    assert line[..|key|] == key && line[|key| + 1..] == value;
    assert line[|line| - 1] == if value == "" then '=' else value[|value| - 1];
    TrimNothing(line);
  }

  /** The fields after the first `k` printed lines. */
  ghost function After(cp: ReconcileCheckpoint, k: nat): Fields
    requires k <= 6
  {
    Fields(if k > 0 then Some(cp.l1Block) else None, if k > 1 then Some(cp.l1BlockHash) else None,
           if k > 2 then Some(cp.logIndex) else None, if k > 3 then Some(cp.txHash) else None,
           if k > 4 then Some(cp.l2Cursor) else None, if k > 5 then Some(cp.l2BlockHash) else None)
  }

  lemma {:induction false} SetField(cp: ReconcileCheckpoint, k: nat)
    requires k < 6
    ensures k % 2 == 0 ==> ReadNumber(After(cp, k), k, Some(NumberAt(cp, k))) == Some(After(cp, k + 1))
    ensures k % 2 == 1 ==> ReadHash(After(cp, k), k, Some(HashAt(cp, k))) == Some(After(cp, k + 1))
  {
  }

  lemma {:induction false} ReadValue(cp: ReconcileCheckpoint, k: nat)
    requires k < 6
    ensures ReadPair(After(cp, k), k, ValueAt(cp, k)) == Some(After(cp, k + 1))
  {
    SetField(cp, k);
    if k % 2 == 0 {
      U64RoundTrip(NumberAt(cp, k));
    } else {
      HexRoundTrip(HashAt(cp, k));
    }
  }

  lemma {:induction false} ReadEncoded(fmt: Format, cp: ReconcileCheckpoint, k: nat)
    requires Readable(fmt) && k < 6
    ensures ReadLine(fmt.keys, After(cp, k), EncodedLines(fmt, cp)[k + 1]) == Some(After(cp, k + 1))
  {
    hide ValueAt;
    ReadValue(cp, k);
    PlainValue(cp, k);
    KeyIndexIs(fmt.keys, k);
    ReadField(fmt.keys, After(cp, k), fmt.keys[k], ValueAt(cp, k));
    LineAt(fmt, cp, k);
  }

  lemma {:induction false} ReadSnoc(keys: seq<string>, lines: seq<string>, line: string, f: Fields)
    requires ReadLines(keys, lines) == Some(f)
    ensures ReadLines(keys, lines + [line]) == ReadLine(keys, f, line)
  {
    assert (lines + [line])[..|lines|] == lines;
  }

  lemma {:induction false} ReadNext(keys: seq<string>, lines: seq<string>, k: nat, f: Fields)
    requires 1 <= k < |lines| && ReadLines(keys, lines[1..k]) == Some(f)
    ensures ReadLines(keys, lines[1..k + 1]) == ReadLine(keys, f, lines[k])
  {
    hide ReadLine;
    ReadSnoc(keys, lines[1..k], lines[k], f);
    assert lines[1..k + 1] == lines[1..k] + [lines[k]];
  }

  lemma {:induction false} ReadEncodedPrefix(fmt: Format, cp: ReconcileCheckpoint, k: nat)
    requires Readable(fmt) && k <= 6
    ensures ReadLines(fmt.keys, EncodedLines(fmt, cp)[1..k + 1]) == Some(After(cp, k))
  {
    hide ValueAt;
    if k == 0 {
      assert EncodedLines(fmt, cp)[1..1] == [];
    } else {
      ReadEncodedPrefix(fmt, cp, k - 1);
      ReadNext(fmt.keys, EncodedLines(fmt, cp), k, After(cp, k - 1));
      ReadEncoded(fmt, cp, k - 1);
    }
  }

  lemma {:induction false} ReadBody(fmt: Format, lines: seq<string>, f: Fields)
    requires lines != [] && Trim(lines[0]) == fmt.version && ReadLines(fmt.keys, lines[1..]) == Some(f)
    ensures DecodeLines(fmt, lines) == Complete(f)
  {
  }

  lemma {:induction false} EncodedDecodes(fmt: Format, cp: ReconcileCheckpoint)
    requires Readable(fmt)
    ensures DecodeLines(fmt, EncodedLines(fmt, cp)) == Some(cp)
  {
    hide ValueAt;
    ReadEncodedPrefix(fmt, cp, 6);
    assert EncodedLines(fmt, cp)[1..7] == EncodedLines(fmt, cp)[1..];
    ReadBody(fmt, EncodedLines(fmt, cp), After(cp, 6));
  }

  /** Decoding an encoded checkpoint returns exactly that checkpoint. */
  lemma {:induction false} RoundTrip(cp: ReconcileCheckpoint)
    ensures DecodeLines(FORMAT, Lines(Encode(FORMAT, cp))) == Some(cp)
  {
    FormatIsReadable();
    FormatRoundTrip(FORMAT, cp);
  }

  lemma {:induction false} FormatRoundTrip(fmt: Format, cp: ReconcileCheckpoint)
    requires Readable(fmt)
    ensures DecodeLines(fmt, Lines(Encode(fmt, cp))) == Some(cp)
  {
    EncodedAreLines(fmt, cp);
    LinesOfJoin(EncodedLines(fmt, cp));
    EncodedDecodes(fmt, cp);
  }

  // ---- Duplicate fields ---------------------------------------------------------------------------

  lemma {:induction false} JoinSnoc(lines: seq<string>, last: string)
    ensures Join(lines + [last]) == Join(lines) + last + "\n"
  {
    if lines == [] {
      assert lines + [last] == [last] && [last][1..] == [];
    } else {
      assert (lines + [last])[1..] == lines[1..] + [last];
      JoinSnoc(lines[1..], last);
    }
  }

  /** `b` is `a` but for field `i`, which carries the value read. */
  ghost predicate OneFieldRead(a: ReconcileCheckpoint, b: ReconcileCheckpoint, i: nat, value: string) {
    && (i % 2 == 0 ==> ParseU64(value) == Some(NumberAt(b, i)))
    && (i % 2 == 1 ==> ParseB256(value) == Some(HashAt(b, i)))
    && (forall k :: 0 <= k < 6 && k != i ==> ValueAt(a, k) == ValueAt(b, k))
  }

  lemma {:induction false} ReadAgain(cp: ReconcileCheckpoint, i: nat, value: string)
    requires i < 6
    ensures
      var r := ReadPair(After(cp, 6), i, value);
      && (r.None? <==> if i % 2 == 0 then ParseU64(value).None? else ParseB256(value).None?)
      && (r.Some? ==> Complete(r.value).Some? && OneFieldRead(cp, Complete(r.value).value, i, value))
  {
    hide ParseU64, ParseB256, Dec, Hex;
  }

  /** A second line for a field already written is refused only if its value does not parse;
      otherwise that value wins and the other fields stand. */
  lemma {:induction false} DuplicateRefusedIff(cp: ReconcileCheckpoint, i: nat, value: string)
    requires i < 6 && Fitting(value)
    ensures
      var got := DecodeLines(FORMAT, Lines(Encode(FORMAT, cp) + Field(FORMAT.keys[i], value) + "\n"));
      && (got.None? <==> if i % 2 == 0 then ParseU64(value).None? else ParseB256(value).None?)
      && (got.Some? ==> OneFieldRead(cp, got.value, i, value))
  {
    FormatIsReadable();
    FormatDuplicate(FORMAT, cp, i, value);
    ReadAgain(cp, i, value);
  }

  /** At one file: behind any encoded checkpoint a second `l1_block` line with 7 is read as block 7. */
  lemma {:induction false} LastBlockWins(cp: ReconcileCheckpoint)
    ensures
      var got := DecodeLines(FORMAT, Lines(Encode(FORMAT, cp) + "l1_block=7" + "\n"));
      got.Some? && got.value.l1Block == 7
  {
    assert Field(FORMAT.keys[0], "7") == "l1_block=7";
    assert "7"[..0] == "" && Digits("7") == Some(7);
    hide Encode, Lines, DecodeLines;
    DuplicateRefusedIff(cp, 0, "7");
  }

  lemma {:induction false} FormatDuplicate(fmt: Format, cp: ReconcileCheckpoint, i: nat, value: string)
    requires Readable(fmt) && i < 6 && Fitting(value)
    ensures
      var r := ReadPair(After(cp, 6), i, value);
      DecodeLines(fmt, Lines(Encode(fmt, cp) + Field(fmt.keys[i], value) + "\n"))
      == if r.None? then None else Complete(r.value)
  {
    hide ValueAt, ReadPair, ReadLine;
    var lines, again := EncodedLines(fmt, cp), Field(fmt.keys[i], value);
    EncodedAreLines(fmt, cp);
    KeyIndexIs(fmt.keys, i);
    ReadField(fmt.keys, After(cp, 6), fmt.keys[i], value);
    JoinSnoc(lines, again);
    LinesOfJoin(lines + [again]);
    ReadEncodedPrefix(fmt, cp, 6);
    assert lines[1..7] == lines[1..];
    ReadSnoc(fmt.keys, lines[1..], again, After(cp, 6));
    assert (lines + [again])[1..] == lines[1..] + [again];
  }

  // ---- Torn writes -------------------------------------------------------------------------------

  /** A prefix of a text of lines is some whole lines and part of the next. */
  lemma {:induction false} LinesOfPrefix(lines: seq<string>, n: nat) returns (k: nat, j: nat)
    requires n <= |Join(lines)| && forall i :: 0 <= i < |lines| ==> OneLine(lines[i])
    ensures k <= |lines| && (k < |lines| ==> j <= |lines[k]|) && (k == |lines| ==> j == 0)
    ensures Lines(Join(lines)[..n]) == lines[..k] + (if j == 0 then [] else [lines[k][..j]])
    ensures n == |Join(lines[..k])| + j
  {
    if lines == [] {
      k, j := 0, 0;
    } else if n <= |lines[0]| {
      k, j := 0, n;
      PartOfFirst(lines, n);
    } else {
      var rest, m := lines[1..], n - |lines[0]| - 1;
      var k', j' := LinesOfPrefix(rest, m);
      k, j := k' + 1, j';
      assert Join(lines)[..n] == lines[0] + "\n" + Join(rest)[..m];
      FirstLine(lines[0], Join(rest)[..m]);
      WholeFirst(lines, k');
    }
  }

  lemma {:induction false} PartOfFirst(lines: seq<string>, n: nat)
    requires lines != [] && OneLine(lines[0]) && n <= |lines[0]|
    ensures Lines(Join(lines)[..n]) == if n == 0 then [] else [lines[0][..n]]
    ensures lines[..0] == [] && Join([]) == ""
  {
    assert Join(lines)[..n] == lines[0][..n];
    LastLine(lines[0][..n]);
  }

  lemma {:induction false} WholeFirst(lines: seq<string>, k: nat)
    requires lines != [] && k <= |lines| - 1
    ensures lines[..k + 1] == [lines[0]] + lines[1..][..k]
    ensures |Join(lines[..k + 1])| == |lines[0]| + 1 + |Join(lines[1..][..k])|
  {
    assert lines[..k + 1][1..] == lines[1..][..k];
  }

  lemma {:induction false} ShortHexFails(h: B256, n: nat)
    requires n < 66
    ensures ParseB256(Hex(h)[..n]).None?
  {
    var s := Hex(h)[..n];
    assert n >= 2 ==> s[0] == '0' && s[1] == 'x';
    assert |StripPrefix(s)| != 64;
  }

  /** Part of a field line stops before the separator, or carries the whole key and part of the value. */
  lemma {:induction false} PartOfField(key: string, value: string, j: nat)
    requires AllPlain(key) && AllPlain(value) && 0 < j <= |Field(key, value)|
    ensures
      var part := Field(key, value)[..j];
      && Trim(part) == part && part != ""
      && (j <= |key| ==> IndexOf(part, '=') == |part|)
      && (j > |key| ==> IndexOf(part, '=') == |key| && part[..|key|] == key)
      && (j > |key| ==> part[|key| + 1..] == value[..j - |key| - 1])
  {
    var part := Field(key, value)[..j];
    assert Printed(part) by { FieldSplits(key, value); }
    PrintedLine(part);
    if j <= |key| {
      assert forall i :: 0 <= i < j ==> part[i] == key[i];
      IndexOfAt(part, '=', j);
    } else {
      assert forall i :: 0 <= i < |key| ==> part[i] == key[i];
      assert part[|key|] == '=';
      IndexOfAt(part, '=', |key|);
    }
  }

  /** Only a parsed hash under the last key sets the last field. */
  lemma {:induction false} HarmlessPair(f: Fields, i: nat, value: string)
    requires i == 5 ==> ParseB256(value).None?
    ensures ReadPair(f, i, value).Some? ==> ReadPair(f, i, value).value.l2BlockHash == f.l2BlockHash
  {
  }

  lemma {:induction false} TornFieldIsHarmless(keys: seq<string>, f: Fields, i: nat, value: string, j: nat)
    requires i < |keys| && KeyIndex(keys, keys[i]) == i
    requires AllPlain(keys[i]) && AllPlain(value) && 0 < j <= |Field(keys[i], value)|
    requires i == 5 && j > |keys[i]| ==> ParseB256(value[..j - |keys[i]| - 1]).None?
    ensures
      var r := ReadLine(keys, f, Field(keys[i], value)[..j]);
      r.Some? ==> r.value.l2BlockHash == f.l2BlockHash
  {
    PartOfField(keys[i], value, j);
    if j > |keys[i]| { HarmlessPair(f, i, value[..j - |keys[i]| - 1]); }
  }

  lemma {:induction false} LastValue(cp: ReconcileCheckpoint)
    ensures ValueAt(cp, 5) == Hex(cp.l2BlockHash)
  {
  }

  /** What a torn write left of a field line never sets the last field. */
  lemma {:induction false} TornLineIsHarmless(fmt: Format, f: Fields, cp: ReconcileCheckpoint, i: nat, j: nat)
    requires Readable(fmt) && i < 6
    requires 0 < j <= |EncodedLines(fmt, cp)[i + 1]| && (i == 5 ==> j < |EncodedLines(fmt, cp)[i + 1]|)
    ensures
      var r := ReadLine(fmt.keys, f, EncodedLines(fmt, cp)[i + 1][..j]);
      r.Some? ==> r.value.l2BlockHash == f.l2BlockHash
  {
    hide ValueAt, ReadLine;
    LineAt(fmt, cp, i);
    PlainValue(cp, i);
    KeyIndexIs(fmt.keys, i);
    LastValue(cp);
    if i == 5 && j > |fmt.keys[i]| { ShortHexFails(cp.l2BlockHash, j - |fmt.keys[i]| - 1); }
    TornFieldIsHarmless(fmt.keys, f, i, ValueAt(cp, i), j);
  }

  lemma {:induction false} TrimShortens(s: string)
    ensures |Trim(s)| <= |s|
  {
    StartShortens(s);
    EndShortens(TrimStart(s));
  }

  lemma {:induction false} StartShortens(s: string)
    ensures |TrimStart(s)| <= |s|
  {
    if s != "" && White(s[0]) { StartShortens(s[1..]); }
  }

  lemma {:induction false} EndShortens(s: string)
    ensures |TrimEnd(s)| <= |s|
  {
    if s != "" && White(s[|s| - 1]) { EndShortens(s[..|s| - 1]); }
  }

  lemma {:induction false} JoinLength(lines: seq<string>, last: string)
    ensures |Join(lines + [last])| == |Join(lines)| + |last| + 1
  {
    if lines == [] {
      assert [last][1..] == [];
      assert lines + [last] == [last];
    } else {
      assert (lines + [last])[1..] == lines[1..] + [last];
      JoinLength(lines[1..], last);
    }
  }

  /** Every torn prefix is rejected: only the whole text, or the text without its final line break,
      decodes, and both to the checkpoint written. */
  lemma {:induction false} PrefixDecodesIff(cp: ReconcileCheckpoint, n: nat)
    requires n <= |Encode(FORMAT, cp)|
    ensures DecodeLines(FORMAT, Lines(Encode(FORMAT, cp)[..n]))
      == if n >= |Encode(FORMAT, cp)| - 1 then Some(cp) else None
  {
    FormatIsReadable();
    FormatPrefix(FORMAT, cp, n);
  }

  lemma {:induction false} FormatPrefix(fmt: Format, cp: ReconcileCheckpoint, n: nat)
    requires Readable(fmt) && n <= |Encode(fmt, cp)|
    ensures DecodeLines(fmt, Lines(Encode(fmt, cp)[..n])) == if n >= |Encode(fmt, cp)| - 1 then Some(cp) else None
  {
    hide ValueAt;
    var lines := EncodedLines(fmt, cp);
    EncodedAreLines(fmt, cp);
    var k, j := LinesOfPrefix(lines, n);
    if n >= |Encode(fmt, cp)| - 1 {
      WholeOrAlmost(lines, n, k, j);
      EncodedDecodes(fmt, cp);
    } else {
      NotTheLast(lines, n, k, j);
      TornText(fmt, cp, k, j);
    }
  }

  lemma {:induction false} TornText(fmt: Format, cp: ReconcileCheckpoint, k: nat, j: nat)
    requires Readable(fmt) && k <= 6
    requires j <= |EncodedLines(fmt, cp)[k]| && (k == 6 ==> j < |EncodedLines(fmt, cp)[6]|)
    ensures
      var lines := EncodedLines(fmt, cp);
      DecodeLines(fmt, lines[..k] + (if j == 0 then [] else [lines[k][..j]])).None?
  {
    hide ValueAt;
    var lines := EncodedLines(fmt, cp);
    var tail := if j == 0 then [] else [lines[k][..j]];
    if k == 0 {
      assert lines[..0] + tail == tail;
      TornHeader(fmt, j);
    } else {
      TornBody(fmt, cp, k, j);
      assert (lines[..k] + tail)[1..] == lines[1..k] + tail;
    }
  }

  lemma {:induction false} TornHeader(fmt: Format, j: nat)
    requires j <= |fmt.version|
    ensures DecodeLines(fmt, if j == 0 then [] else [fmt.version[..j]]).None?
  {
    if 0 < j {
      TrimShortens(fmt.version[..j]);
      assert [fmt.version[..j]][1..] == [];
    }
  }

  lemma {:induction false} NotTheLast(lines: seq<string>, n: nat, k: nat, j: nat)
    requires |lines| > 0 && n < |Join(lines)| - 1 && k <= |lines| && n == |Join(lines[..k])| + j
    ensures k < |lines| && (k == |lines| - 1 ==> j < |lines[k]|)
  {
    var m := |lines| - 1;
    assert lines[..m + 1] == lines && lines == lines[..m] + [lines[m]];
    JoinLength(lines[..m], lines[m]);
  }

  /** All lines present means only the last break can be missing. */
  lemma {:induction false} WholeOrAlmost(lines: seq<string>, n: nat, k: nat, j: nat)
    requires |Join(lines)| - 1 <= n <= |Join(lines)| && k <= |lines|
    requires (k < |lines| ==> j <= |lines[k]|) && (k == |lines| ==> j == 0)
    requires n == |Join(lines[..k])| + j
    requires k < |lines| ==> lines[k] != ""
    ensures lines[..k] + (if j == 0 then [] else [lines[k][..j]]) == lines
  {
    if k == |lines| {
      assert lines[..k] == lines;
    } else {
      assert lines[..k + 1] == lines[..k] + [lines[k]];
      JoinLength(lines[..k], lines[k]);
      if k < |lines| - 1 { JoinGrows(lines, k + 1); }
      assert lines[..k + 1] == lines;
      assert lines[k][..j] == lines[k];
    }
  }

  lemma {:induction false} JoinGrows(lines: seq<string>, k: nat)
    requires k < |lines|
    ensures |Join(lines[..k])| < |Join(lines)|
  {
    var init, last := lines[..|lines| - 1], lines[|lines| - 1];
    assert lines == init + [last];
    JoinLength(init, last);
    if k < |lines| - 1 {
      JoinGrows(init, k);
      assert init[..k] == lines[..k];
    }
  }

  lemma {:induction false} TornBody(fmt: Format, cp: ReconcileCheckpoint, k: nat, j: nat)
    requires Readable(fmt) && 1 <= k <= 6
    requires j <= |EncodedLines(fmt, cp)[k]| && (k == 6 ==> j < |EncodedLines(fmt, cp)[6]|)
    ensures
      var lines := EncodedLines(fmt, cp);
      var r := ReadLines(fmt.keys, lines[1..k] + (if j == 0 then [] else [lines[k][..j]]));
      r.Some? ==> r.value.l2BlockHash.None?
  {
    hide ValueAt;
    var lines, f := EncodedLines(fmt, cp), After(cp, k - 1);
    ReadEncodedPrefix(fmt, cp, k - 1);
    if j == 0 {
      assert lines[1..k] + [] == lines[1..k];
    } else {
      TornLineIsHarmless(fmt, f, cp, k - 1, j);
      ReadSnoc(fmt.keys, lines[1..k], lines[k][..j], f);
    }
  }
}
