/** The textual renderings of a byte string shared by the encrypt and decrypt
    tools: `binascii.hexlify` and its inverse, the two-character chunks of a
    hex string turned into `0x..` tokens, decimal numerals, and the VBA
    `Array(...)` literal wrapped over several lines. */
module ByteLiterals {
  import opened Wrappers
  import opened Text
  import opened Bytes

  // ---------------------------------------------------------------------
  // Hexadecimal

  const HexDigits: string := "0123456789abcdef"

  function HexDigit(n: nat): (r: char)
    requires n < 16
  {
    HexDigits[n]
  }

  /** The two lower-case hex digits of one byte. */
  function HexByte(b: byte): (r: string) {
    [HexDigit(b / 16), HexDigit(b % 16)]
  }

  /** `binascii.hexlify(data).decode('ascii')` */
  function Hexlify(data: seq<byte>): (h: string)
    ensures |h| == 2 * |data|
  {
    if data == [] then "" else HexByte(data[0]) + Hexlify(data[1..])
  }

  /** The value of one hex digit; `binascii.unhexlify` accepts both cases. */
  function HexValue(c: char): (v: Option<nat>)
    ensures v.Some? ==> v.value < 16
  {
    if '0' <= c <= '9' then Some(c as int - '0' as int)
    else if 'a' <= c <= 'f' then Some(c as int - 'a' as int + 10)
    else if 'A' <= c <= 'F' then Some(c as int - 'A' as int + 10)
    else None
  }

  /** `binascii.unhexlify(s)`: `None` for an odd length or a non-hex digit. */
  function Unhexlify(s: string): (r: Option<seq<byte>>)
    decreases |s|
  {
    if |s| % 2 == 1 then None
    else if s == "" then Some([])
    else
      var hi := HexValue(s[0]);
      var lo := HexValue(s[1]);
      var rest := Unhexlify(s[2..]);
      if hi.Some? && lo.Some? && rest.Some? then Some([hi.value * 16 + lo.value] + rest.value)
      else None
  }

  /** `[h[i:i+2] for i in range(0, len(h), 2)]` (the last chunk is short when
      `h` has odd length). */
  function Chunks(h: string): (r: seq<string>) {
    seq((|h| + 1) / 2, i requires 0 <= i < (|h| + 1) / 2 =>
      h[2 * i .. if 2 * i + 2 <= |h| then 2 * i + 2 else |h|])
  }

  /** `[prefix + chunk for chunk in Chunks(h)]`, as the formatters build it. */
  function ChunkTokens(h: string, prefix: string): (r: seq<string>) {
    var chunks := Chunks(h);
    seq(|chunks|, i requires 0 <= i < |chunks| => prefix + chunks[i])
  }

  /** One `prefix`+two-hex-digit token per byte, in order. */
  function HexTokens(data: seq<byte>, prefix: string): (r: seq<string>) {
    seq(|data|, i requires 0 <= i < |data| => prefix + HexByte(data[i]))
  }

  lemma HexValueOfDigit(n: nat)
    requires n < 16
    ensures HexValue(HexDigit(n)) == Some(n)
  {
  }

  /** The two digits of a byte decode to it, whatever text follows them. */
  lemma HexByteThen(b: byte, tail: string, rest: seq<byte>)
    requires Unhexlify(tail) == Some(rest)
    ensures Unhexlify(HexByte(b) + tail) == Some([b] + rest)
  {
    var s := HexByte(b) + tail;
    var hi, lo := b / 16, b % 16;
    assert s[0] == HexDigit(hi) && s[1] == HexDigit(lo);
    HexValueOfDigit(hi);
    HexValueOfDigit(lo);
    assert s[2..] == tail;
    assert hi * 16 + lo == b;
  }

  lemma HexByteDecodes(b: byte)
    ensures Unhexlify(HexByte(b)) == Some([b])
  {
    assert HexByte(b) + "" == HexByte(b);
    assert Unhexlify("") == Some([]);
    HexByteThen(b, "", []);
    assert [b] + [] == [b];
  }

  /** The hex text decodes back to the bytes it was made from. */
  lemma {:induction false} UnhexlifyHexlify(data: seq<byte>)
    ensures Unhexlify(Hexlify(data)) == Some(data)
    decreases |data|
  {
    if data != [] {
      UnhexlifyHexlify(data[1..]);
      HexByteThen(data[0], Hexlify(data[1..]), data[1..]);
      assert [data[0]] + data[1..] == data;
    }
  }

  /** The hex text uses lower-case digits only. */
  lemma {:induction false} HexlifyIsLowerCase(data: seq<byte>)
    ensures forall i :: 0 <= i < |Hexlify(data)| ==> Hexlify(data)[i] in HexDigits
    decreases |data|
  {
    if data != [] {
      HexlifyIsLowerCase(data[1..]);
      var h := Hexlify(data);
      forall i | 0 <= i < |h| ensures h[i] in HexDigits {
        if i >= 2 { assert h[i] == Hexlify(data[1..])[i - 2]; }
      }
    }
  }

  /** Characters `2i` and `2i+1` of the hex text are the digits of byte `i`. */
  lemma {:induction false} HexlifyAt(data: seq<byte>, i: nat)
    requires i < |data|
    ensures Hexlify(data)[2 * i .. 2 * i + 2] == HexByte(data[i])
    decreases i
  {
    var h := Hexlify(data);
    if i == 0 {
      assert h[..2] == HexByte(data[0]);
    } else {
      HexlifyAt(data[1..], i - 1);
      assert h[2..] == Hexlify(data[1..]);
      assert h[2 * i .. 2 * i + 2] == h[2..][2 * (i - 1) .. 2 * (i - 1) + 2];
    }
  }

  /** Slicing the hex text in twos yields one token per byte, in order. */
  lemma ChunkTokensOfHexlify(data: seq<byte>, prefix: string)
    ensures ChunkTokens(Hexlify(data), prefix) == HexTokens(data, prefix)
  {
    var h := Hexlify(data);
    forall i | 0 <= i < |data|
      ensures ChunkTokens(h, prefix)[i] == HexTokens(data, prefix)[i]
    {
      HexlifyAt(data, i);
    }
  }

  /** A list of byte tokens joined by a separator that starts with a character
      that no token holds splits back into the tokens, and each token, with
      its prefix removed, decodes to its byte. */
  lemma HexTokensRoundTrip(data: seq<byte>, prefix: string, sep: string)
    requires |data| > 0 && |sep| > 0 && sep[0] !in prefix && sep[0] !in HexDigits
    ensures SplitOn(Join(HexTokens(data, prefix), sep), sep) == HexTokens(data, prefix)
    ensures forall i :: 0 <= i < |data| ==>
      Unhexlify(HexTokens(data, prefix)[i][|prefix|..]) == Some([data[i]])
  {
    var tokens := HexTokens(data, prefix);
    forall i | 0 <= i < |tokens| ensures sep[0] !in tokens[i] {
      assert tokens[i] == prefix + HexByte(data[i]);
    }
    SplitOfJoin(tokens, sep);
    forall i | 0 <= i < |data|
      ensures Unhexlify(tokens[i][|prefix|..]) == Some([data[i]])
    {
      assert tokens[i][|prefix|..] == HexByte(data[i]);
      HexByteDecodes(data[i]);
    }
  }

  // ---------------------------------------------------------------------
  // Decimal numerals

  function DigitChar(n: nat): (r: char)
    requires n < 10
  {
    "0123456789"[n]
  }

  /** `str(n)` for a non-negative integer. */
  function Decimal(n: nat): (s: string)
    ensures |s| >= 1
    ensures forall i :: 0 <= i < |s| ==> '0' <= s[i] <= '9'
  {
    if n < 10 then [DigitChar(n)] else Decimal(n / 10) + [DigitChar(n % 10)]
  }

  /** The number a string of decimal digits denotes. */
  function DigitsValue(s: string): (r: nat)
    requires forall i :: 0 <= i < |s| ==> '0' <= s[i] <= '9'
  {
    if s == [] then 0
    else DigitsValue(s[..|s| - 1]) * 10 + (s[|s| - 1] as int - '0' as int)
  }

  /** A decimal numeral reads back as the number it was made from. */
  lemma {:induction false} DecimalRoundTrip(n: nat)
    ensures DigitsValue(Decimal(n)) == n
    decreases n
  {
    if n >= 10 {
      DecimalRoundTrip(n / 10);
      var s := Decimal(n);
      assert s[..|s| - 1] == Decimal(n / 10);
    }
  }

  /** A byte needs at most three decimal digits. */
  lemma DecimalOfByteIsShort(b: byte)
    ensures |Decimal(b)| <= 3
  {
    var n := b;
    if n >= 10 {
      assert Decimal(n) == Decimal(n / 10) + [DigitChar(n % 10)];
      if n / 10 >= 10 {
        assert Decimal(n / 10) == Decimal(n / 100) + [DigitChar((n / 10) % 10)];
      }
    }
  }

  /** `[str(b) for b in values]` */
  function Decimals(values: seq<byte>): (r: seq<string>) {
    seq(|values|, i requires 0 <= i < |values| => Decimal(values[i]))
  }

  /** Each element followed by `sep`: `''.join(x + sep for x in xs)`. */
  function Terminated(xs: seq<string>, sep: string): (r: string) {
    if xs == [] then "" else Terminated(xs[..|xs| - 1], sep) + xs[|xs| - 1] + sep
  }

  lemma {:induction false} TerminatedCons(x: string, xs: seq<string>, sep: string)
    ensures Terminated([x] + xs, sep) == x + sep + Terminated(xs, sep)
    decreases |xs|
  {
    if xs != [] {
      var ys := [x] + xs;
      assert ys[..|ys| - 1] == [x] + xs[..|xs| - 1];
      TerminatedCons(x, xs[..|xs| - 1], sep);
    }
  }

  /** Joining a list equals terminating all but its last element with `sep`. */
  lemma {:induction false} JoinSnoc(xs: seq<string>, x: string, sep: string)
    ensures Join(xs + [x], sep) == Terminated(xs, sep) + x
    decreases |xs|
  {
    if xs != [] {
      var ys := xs + [x];
      assert ys[1..] == xs[1..] + [x];
      JoinSnoc(xs[1..], x, sep);
      TerminatedCons(xs[0], xs[1..], sep);
      assert [xs[0]] + xs[1..] == xs;
    }
  }

  /** The decimal numerals joined by commas split back into the numerals. */
  lemma DecimalsSplitBack(values: seq<byte>)
    requires |values| > 0
    ensures SplitOn(Join(Decimals(values), ","), ",") == Decimals(values)
    ensures forall i :: 0 <= i < |values| ==> DigitsValue(Decimals(values)[i]) == values[i]
  {
    var ds := Decimals(values);
    forall i | 0 <= i < |ds| ensures ',' !in ds[i] {
      assert forall j :: 0 <= j < |ds[i]| ==> '0' <= ds[i][j] <= '9';
    }
    SplitOfJoin(ds, ",");
    forall i | 0 <= i < |values| ensures DigitsValue(ds[i]) == values[i] {
      DecimalRoundTrip(values[i]);
    }
  }

  // ---------------------------------------------------------------------
  // The VBA array literal

  const VbaOpen: string := "buf = Array("
  const VbaIndent: string := "        "
  /** Lines grow up to this many characters before the literal is wrapped. */
  const VbaWidth: nat := 80

  /** How line `k` of the literal starts. */
  function LineHead(k: nat): (r: string) {
    if k == 0 then VbaOpen else VbaIndent
  }

  /** How line `k` of `n` lines ends: a continuation mark, or the closing parenthesis. */
  function LineTail(n: nat, k: nat): (r: string) {
    if k + 1 == n then ")" else " _"
  }

  /** The part of a line between its head and its tail. */
  function Body(line: string, head: string, tail: string): (r: string) {
    if |head| + |tail| <= |line| then line[|head|..|line| - |tail|] else ""
  }

  /** The shape of a wrapped literal: the first line opens the array, the
      others are indented, all but the last end with ` _`, the last closes
      the array, and no line holds a newline. */
  predicate WellWrapped(lines: seq<string>) {
    |lines| >= 1 &&
    forall k :: 0 <= k < |lines| ==>
      |LineHead(k)| + |LineTail(|lines|, k)| <= |lines[k]| &&
      StartsWith(lines[k], LineHead(k)) &&
      EndsWith(lines[k], LineTail(|lines|, k)) &&
      '\n' !in lines[k]
  }

  /** The values a wrapped literal lists, with the line breaks taken out. */
  function Unwrapped(lines: seq<string>): (r: string) {
    Join(seq(|lines|, k requires 0 <= k < |lines| =>
      Body(lines[k], LineHead(k), LineTail(|lines|, k))), ",")
  }

  /** `s.rstrip(c)` */
  function RStrip(s: string, c: char): (r: string)
    decreases |s|
  {
    if s != [] && s[|s| - 1] == c then RStrip(s[..|s| - 1], c) else s
  }

  /** What the loop has written after `i` of the values: every value so far
      followed by a comma, except the very last value, which has none. */
  function Emitted(values: seq<byte>, i: nat): (r: string)
    requires i <= |values|
  {
    if i == |values| && i > 0 then Terminated(Decimals(values[..i - 1]), ",") + Decimal(values[i - 1])
    else Terminated(Decimals(values[..i]), ",")
  }

  predicate IsDigit(c: char) {
    '0' <= c <= '9'
  }

  /** The line so far ends in a numeral followed by one comma. */
  predicate EndsInComma(rest: string) {
    |rest| >= 2 && rest[|rest| - 1] == ',' && IsDigit(rest[|rest| - 2])
  }

  /** One more value moves the loop's written text on by its numeral, and by
      a comma unless it is the last value. */
  lemma EmittedNext(values: seq<byte>, i: nat)
    requires i < |values|
    ensures Emitted(values, i + 1) ==
      Emitted(values, i) + Decimal(values[i]) + (if i + 1 < |values| then "," else "")
  {
    var d := Decimal(values[i]);
    assert values[..i + 1] == values[..i] + [values[i]];
    var ds := Decimals(values[..i]) + [d];
    assert Decimals(values[..i + 1]) == ds;
    assert ds[..|ds| - 1] == Decimals(values[..i]);
  }

  /** Breaking a line: `rstrip(",")` removes exactly the one trailing comma,
      and the finished line's body followed by a comma is what the line held
      after its head. */
  lemma BreakLine(head: string, rest: string, prev: seq<string>)
    requires head == VbaOpen || head == VbaIndent
    requires |rest| >= 2 && rest[|rest| - 1] == ',' && IsDigit(rest[|rest| - 2])
    ensures RStrip(head + rest, ',') == head + rest[..|rest| - 1]
    ensures Terminated(prev + [rest[..|rest| - 1]], ",") == Terminated(prev, ",") + rest
  {
    var cur := head + rest;
    assert cur[..|cur| - 1] == head + rest[..|rest| - 1];
    assert cur[..|cur| - 1][|cur| - 2] == rest[|rest| - 2];
    var ps := prev + [rest[..|rest| - 1]];
    assert ps[..|ps| - 1] == prev;
    assert rest[..|rest| - 1] + "," == rest;
  }

  /** A line built from a head, a body and a tail gives its body back. */
  lemma LineParts(head: string, body: string, tail: string)
    ensures |head| + |tail| <= |head + body + tail|
    ensures StartsWith(head + body + tail, head) && EndsWith(head + body + tail, tail)
    ensures Body(head + body + tail, head, tail) == body
  {
    var line := head + body + tail;
    assert line[..|head|] == head;
    assert line[|line| - |tail|..] == tail;
    assert line[|head|..|line| - |tail|] == body;
  }

  /** The lines the loop has broken off: each is its head, a body and ` _`. */
  predicate BrokenLines(lines: seq<string>, bodies: seq<string>) {
    |bodies| == |lines| &&
    forall k :: 0 <= k < |lines| ==>
      lines[k] == LineHead(k) + bodies[k] + " _" && '\n' !in lines[k] && |lines[k]| <= VbaWidth + 1
  }

  /** The lines written so far plus the last one are each a head, a body
      and a tail, with the bodies in order. */
  lemma ClosedLines(lines: seq<string>, bodies: seq<string>, rest: string)
    requires BrokenLines(lines, bodies)
    requires '\n' !in rest
    ensures var all := lines + [LineHead(|lines|) + rest + ")"];
      WellWrapped(all) &&
      forall k :: 0 <= k < |all| ==> Body(all[k], LineHead(k), LineTail(|all|, k)) == (bodies + [rest])[k]
  {
    var all := lines + [LineHead(|lines|) + rest + ")"];
    var n := |all|;
    var bodies' := bodies + [rest];
    forall k | 0 <= k < n
      ensures |LineHead(k)| + |LineTail(n, k)| <= |all[k]|
      ensures StartsWith(all[k], LineHead(k)) && EndsWith(all[k], LineTail(n, k))
      ensures '\n' !in all[k]
      ensures Body(all[k], LineHead(k), LineTail(n, k)) == bodies'[k]
    {
      if k < |lines| {
        assert all[k] == lines[k] && bodies'[k] == bodies[k];
        assert all[k] == LineHead(k) + bodies'[k] + LineTail(n, k);
      } else {
        assert all[k] == LineHead(k) + bodies'[k] + LineTail(n, k);
      }
      LineParts(LineHead(k), bodies'[k], LineTail(n, k));
    }
  }

  /** Closing the literal: the lines written so far plus the last one have
      the promised shape, and their bodies rejoined are the values in order. */
  lemma CloseLiteral(values: seq<byte>, lines: seq<string>, bodies: seq<string>, rest: string)
    requires BrokenLines(lines, bodies)
    requires '\n' !in rest
    requires Terminated(bodies, ",") + rest == Emitted(values, |values|)
    ensures WellWrapped(lines + [LineHead(|lines|) + rest + ")"])
    ensures Unwrapped(lines + [LineHead(|lines|) + rest + ")"]) == Join(Decimals(values), ",")
  {
    var all := lines + [LineHead(|lines|) + rest + ")"];
    var n := |all|;
    ClosedLines(lines, bodies, rest);
    var bs := seq(n, k requires 0 <= k < n => Body(all[k], LineHead(k), LineTail(n, k)));
    assert bs == bodies + [rest];
    JoinSnoc(bodies, rest, ",");
    EmittedAll(values);
  }

  /** Everything written, once the loop is done, is the comma-joined numerals. */
  lemma EmittedAll(values: seq<byte>)
    ensures Emitted(values, |values|) == Join(Decimals(values), ",")
  {
    var m := |values|;
    if m > 0 {
      var ds, d := Decimals(values[..m - 1]), Decimal(values[m - 1]);
      assert Emitted(values, m) == Terminated(ds, ",") + d;
      JoinSnoc(ds, d, ",");
      forall i | 0 <= i < m ensures (ds + [d])[i] == Decimals(values)[i] {
        if i < m - 1 {
          assert values[..m - 1][i] == values[i];
        }
      }
      assert ds + [d] == Decimals(values);
    }
  }

  /** Breaking the current line off keeps the broken lines well formed. */
  lemma BreakKeeps(lines: seq<string>, bodies: seq<string>, rest: string)
    requires BrokenLines(lines, bodies)
    requires |rest| >= 2 && rest[|rest| - 1] == ',' && IsDigit(rest[|rest| - 2]) && '\n' !in rest
    requires |LineHead(|lines|) + rest| <= VbaWidth
    ensures BrokenLines(lines + [RStrip(LineHead(|lines|) + rest, ',') + " _"], bodies + [rest[..|rest| - 1]])
    ensures Terminated(bodies + [rest[..|rest| - 1]], ",") == Terminated(bodies, ",") + rest
  {
    var head := LineHead(|lines|);
    BreakLine(head, rest, bodies);
    var line := RStrip(head + rest, ',') + " _";
    assert line == head + rest[..|rest| - 1] + " _";
    assert '\n' !in line;
    var lines', bodies' := lines + [line], bodies + [rest[..|rest| - 1]];
    forall k | 0 <= k < |lines'|
      ensures lines'[k] == LineHead(k) + bodies'[k] + " _" && '\n' !in lines'[k] && |lines'[k]| <= VbaWidth + 1
    {
      if k < |lines| {
        assert lines'[k] == lines[k] && bodies'[k] == bodies[k];
      }
    }
  }

  /** Appending a numeral, and perhaps a comma, to the current line. */
  lemma AppendNumeral(head: string, rest: string, val: string, comma: string)
    requires comma == "," || comma == ""
    requires |val| >= 1 && forall j :: 0 <= j < |val| ==> IsDigit(val[j])
    requires '\n' !in rest
    ensures head + rest + val + comma == head + (rest + val + comma)
    ensures '\n' !in rest + val + comma
    ensures comma == "," ==> var r := rest + val + comma;
      |r| >= 2 && r[|r| - 1] == ',' && IsDigit(r[|r| - 2])
  {
    var r := rest + val + comma;
    if comma == "," {
      assert r[|r| - 2] == val[|val| - 1];
    }
    forall j | 0 <= j < |r| ensures r[j] != '\n' {
      if |rest| <= j < |rest| + |val| {
        assert r[j] == val[j - |rest|];
      }
    }
  }

  /** Ends the current line with ` _` in place of its trailing comma and
      starts an indented one. */
  method BreakOff(lines: seq<string>, current: string, ghost bodies: seq<string>, ghost rest: string)
    returns (lines': seq<string>, current': string, ghost bodies': seq<string>, ghost rest': string)
    requires BrokenLines(lines, bodies) && current == LineHead(|lines|) + rest && |current| <= VbaWidth
    requires EndsInComma(rest) && '\n' !in rest
    ensures BrokenLines(lines', bodies') && |lines'| == |lines| + 1
    ensures current' == LineHead(|lines'|) + rest' && rest' == ""
    ensures Terminated(bodies', ",") + rest' == Terminated(bodies, ",") + rest
  {
    BreakKeeps(lines, bodies, rest);
    lines' := lines + [RStrip(current, ',') + " _"];
    bodies' := bodies + [rest[..|rest| - 1]];
    current' := VbaIndent;
    rest' := "";
  }

  /** Appends a numeral and, unless it is the last, a comma to the current line. */
  method AppendValue(current: string, val: string, comma: string,
                     ghost head: string, ghost rest: string, ghost done: string)
    returns (current': string, ghost rest': string)
    requires comma == "," || comma == ""
    requires |val| >= 1 && forall j :: 0 <= j < |val| ==> IsDigit(val[j])
    requires current == head + rest && '\n' !in rest
    ensures current' == current + val + comma && current' == head + rest'
    ensures '\n' !in rest' && done + rest' == done + rest + val + comma
    ensures comma == "," ==> EndsInComma(rest')
  {
    AppendNumeral(head, rest, val, comma);
    assert done + (rest + val + comma) == done + rest + val + comma;
    current' := current + val + comma;
    rest' := rest + val + comma;
  }

  /** What holds between iterations of the `vba` loop after `i` values. */
  predicate WrapState(values: seq<byte>, i: nat, lines: seq<string>, current: string,
                      bodies: seq<string>, rest: string)
  {
    i <= |values| &&
    BrokenLines(lines, bodies) &&
    current == LineHead(|lines|) + rest && '\n' !in rest &&
    (i < |values| ==> |current| <= VbaWidth && (rest == "" || EndsInComma(rest))) &&
    Terminated(bodies, ",") + rest == Emitted(values, i)
  }

  /** One iteration of the `vba` loop: break the line if the next value
      would make it longer than `VbaWidth` and is not the last, then append
      the value. */
  method WrapStep(values: seq<byte>, i: nat, lines: seq<string>, current: string,
                  ghost bodies: seq<string>, ghost rest: string)
    returns (lines': seq<string>, current': string, ghost bodies': seq<string>, ghost rest': string)
    requires i < |values| && WrapState(values, i, lines, current, bodies, rest)
    ensures WrapState(values, i + 1, lines', current', bodies', rest')
  {
    var n := |values|;
    var val := Decimal(values[i]);
    DecimalOfByteIsShort(values[i]);
    EmittedNext(values, i);
    lines', current', bodies', rest' := lines, current, bodies, rest;
    if |current + val + ","| > VbaWidth && i < n - 1 {
      lines', current', bodies', rest' := BreakOff(lines, current, bodies, rest);
    }
    var comma := if i < n - 1 then "," else "";
    current', rest' := AppendValue(current', val, comma, LineHead(|lines'|), rest', Terminated(bodies', ","));
  }

  /** The `vba` branch's loop: the decimal values of `values` laid out as
      `buf = Array(v,v,... _` continuation lines of at most `VbaWidth`
      characters (plus the continuation mark), closed by `)`. */
  method VbaArrayLines(values: seq<byte>) returns (lines: seq<string>)
    ensures WellWrapped(lines)
    ensures forall k :: 0 <= k < |lines| - 1 ==> |lines[k]| <= VbaWidth + 1
    ensures Unwrapped(lines) == Join(Decimals(values), ",")
  {
    lines := [];
    var current := VbaOpen;
    ghost var bodies: seq<string> := [];
    ghost var rest: string := "";
    for i := 0 to |values|
      invariant WrapState(values, i, lines, current, bodies, rest)
    {
      lines, current, bodies, rest := WrapStep(values, i, lines, current, bodies, rest);
    }
    CloseLiteral(values, lines, bodies, rest);
    lines := lines + [current + ")"];
  }

  // ---------------------------------------------------------------------
  // Framed literals: what each output format promises about its text

  /** `r` opens with `head` and closes with `tail`, which do not overlap. */
  predicate Framed(r: string, head: string, tail: string) {
    |head| + |tail| <= |r| && StartsWith(r, head) && EndsWith(r, tail)
  }

  /** `body` lists `data` as `prefix`-marked hex tokens separated by `sep`:
      nothing for no bytes, otherwise one token per byte, in order, each
      decoding back to its byte. */
  predicate ListsBytes(body: string, data: seq<byte>, prefix: string, sep: string)
    requires |sep| > 0
  {
    if |data| == 0 then body == ""
    else
      var tokens := SplitOn(body, sep);
      |tokens| == |data| &&
      forall i :: 0 <= i < |data| ==>
        StartsWith(tokens[i], prefix) && Unhexlify(tokens[i][|prefix|..]) == Some([data[i]])
  }

  /** `r` is `head`, a hex string that decodes to `data`, then `tail`. */
  predicate HexBetween(r: string, head: string, tail: string, data: seq<byte>) {
    Framed(r, head, tail) && Unhexlify(Body(r, head, tail)) == Some(data)
  }

  /** `r` is `head`, a token list that lists `data`, then `tail`. */
  predicate TokensBetween(r: string, head: string, tail: string, data: seq<byte>, prefix: string, sep: string)
    requires |sep| > 0
  {
    Framed(r, head, tail) && ListsBytes(Body(r, head, tail), data, prefix, sep)
  }

  /** `r` is a wrapped VBA literal whose values are the decimal numerals of
      `data`, with no line but the last longer than the width plus ` _`. */
  predicate VbaShaped(r: string, data: seq<byte>) {
    var lines := SplitOn(r, "\n");
    WellWrapped(lines) && Unwrapped(lines) == Join(Decimals(data), ",") &&
    forall k :: 0 <= k < |lines| - 1 ==> |lines[k]| <= VbaWidth + 1
  }

  /** A hex string between a head and a tail decodes back to the data. */
  lemma HexFramed(head: string, tail: string, data: seq<byte>)
    ensures HexBetween(head + Hexlify(data) + tail, head, tail, data)
  {
    var r := head + Hexlify(data) + tail;
    assert r[..|head|] == head;
    assert r[|r| - |tail|..] == tail;
    assert Body(r, head, tail) == Hexlify(data);
    UnhexlifyHexlify(data);
  }

  /** A token list between a head and a tail lists the data. */
  lemma TokensFramed(head: string, tail: string, data: seq<byte>, prefix: string, sep: string)
    requires |sep| > 0 && sep[0] !in prefix && sep[0] !in HexDigits
    ensures TokensBetween(head + Join(HexTokens(data, prefix), sep) + tail, head, tail, data, prefix, sep)
  {
    var body := Join(HexTokens(data, prefix), sep);
    var r := head + body + tail;
    assert r[..|head|] == head;
    assert r[|r| - |tail|..] == tail;
    assert Body(r, head, tail) == body;
    if |data| > 0 {
      HexTokensRoundTrip(data, prefix, sep);
      var tokens := HexTokens(data, prefix);
      forall i | 0 <= i < |data| ensures StartsWith(tokens[i], prefix) {
        assert tokens[i][..|prefix|] == prefix;
      }
    }
  }

  /** The hex formats' token list, built from the two-character chunks of
      the hex string, lists the data between the given head and tail. */
  lemma ChunksFramed(head: string, tail: string, data: seq<byte>, prefix: string, sep: string)
    requires |sep| > 0 && sep[0] !in prefix && sep[0] !in HexDigits
    ensures TokensBetween(head + Join(ChunkTokens(Hexlify(data), prefix), sep) + tail, head, tail, data, prefix, sep)
  {
    ChunkTokensOfHexlify(data, prefix);
    TokensFramed(head, tail, data, prefix, sep);
  }

  /** The `vba` branch: the wrapped lines joined by newlines. */
  method VbaArray(values: seq<byte>) returns (r: string)
    ensures VbaShaped(r, values)
  {
    var lines := VbaArrayLines(values);
    r := Join(lines, "\n");
    forall k | 0 <= k < |lines| ensures "\n"[0] !in lines[k] {
    }
    SplitOfJoin(lines, "\n");
  }
}
