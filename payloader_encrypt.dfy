/** The encrypt tool: obfuscates a byte string with exclusive-or, the
    alternating "flip-flop" shift or a Caesar shift, then renders the result
    as a literal for one of several languages. */
module PayloaderEncrypt {
  import opened Wrappers
  import opened Text
  import opened Bytes
  import opened ByteLiterals
  import opened Ciphers

  /** What `encrypt(encryption, data, key)` returns, or the way it fails.
      An algorithm name it does not know (including the command line's
      `flip_flop`, which it spells `flop_flop`) leaves the data as it is. */
  function Encrypted(encryption: string, data: seq<byte>, key: Key): (r: Result<seq<byte>, CipherError>)
    ensures r.Success? ==> |r.value| == |data|
  {
    if encryption == "xor" then XorBytes(data, key)
    else if encryption == "flop_flop" || encryption == "ff" then
      match key
      case StrKey(_) => Failure(NumericKeyRequired)
      case IntKey(k) => Success(seq(|data|, i requires 0 <= i < |data| => Shift(data[i], FlipFlopKey(k, i))))
    else if encryption == "caesar" then
      match key
      case StrKey(_) => Failure(NumericKeyRequired)
      case IntKey(k) => Success(seq(|data|, i requires 0 <= i < |data| => Shift(data[i], k)))
    else Success(data)
  }

  /** The flip-flop loop: the key is negated before each byte is shifted. */
  method FlipFlopLoop(data: seq<byte>, key: int) returns (enc: seq<int>)
    ensures |enc| == |data|
    ensures forall i :: 0 <= i < |data| ==> enc[i] == Shift(data[i], FlipFlopKey(key, i))
  {
    enc := [];
    var k := key;
    for j := 0 to |data|
      invariant k == (if j % 2 == 0 then key else -key)
      invariant |enc| == j
      invariant forall i :: 0 <= i < j ==> enc[i] == Shift(data[i], FlipFlopKey(key, i))
    {
      k := -k;
      enc := enc + [(data[j] + k) % 256];
    }
  }

  /** The Caesar loop: every byte is shifted by the key. */
  method CaesarLoop(data: seq<byte>, key: int) returns (enc: seq<int>)
    ensures |enc| == |data|
    ensures forall i :: 0 <= i < |data| ==> enc[i] == Shift(data[i], key)
  {
    enc := [];
    for j := 0 to |data|
      invariant |enc| == j
      invariant forall i :: 0 <= i < j ==> enc[i] == Shift(data[i], key)
    {
      enc := enc + [(data[j] + key) % 256];
    }
  }

  /** `encrypt(encryption, data, key)`. */
  method Encrypt(encryption: string, data: seq<byte>, key: Key) returns (r: Result<seq<byte>, CipherError>)
    ensures r == Encrypted(encryption, data, key)
  {
    if encryption == "xor" {
      r := XorLoop(data, key);
    } else if encryption == "flop_flop" || encryption == "ff" {
      if key.StrKey? {
        return Failure(NumericKeyRequired);
      }
      var enc := FlipFlopLoop(data, key.n);
      r := AsBytes(enc);
      assert r.value == seq(|data|, i requires 0 <= i < |data| => Shift(data[i], FlipFlopKey(key.n, i)));
    } else if encryption == "caesar" {
      if key.StrKey? {
        return Failure(NumericKeyRequired);
      }
      var enc := CaesarLoop(data, key.n);
      r := AsBytes(enc);
      assert r.value == seq(|data|, i requires 0 <= i < |data| => Shift(data[i], key.n));
    } else {
      var enc: seq<int> := data;
      r := AsBytes(enc);
    }
  }

  /** Exclusive-or with an integer key succeeds on non-empty data exactly
      when the key is a byte, and then flips the bits of every byte by it. */
  lemma XorIntKey(data: seq<byte>, n: int)
    requires |data| > 0
    ensures Encrypted("xor", data, IntKey(n)).Success? <==> 0 <= n < 256
    ensures Encrypted("xor", data, IntKey(n)).Success? ==>
      forall i :: 0 <= i < |data| ==> Encrypted("xor", data, IntKey(n)).value[i] == Xor(data[i], n)
  {
    XorBytesOutcome(data, IntKey(n));
    assert KeyCode(IntKey(n), 0) == n;
  }

  /** Exclusive-or with a string key fails on non-empty data when the key is
      empty; otherwise it succeeds exactly when every key character it uses
      has a code below 256, and combines byte `i` with character `i` modulo
      the key's length. */
  lemma XorStringKey(data: seq<byte>, s: string)
    requires |data| > 0
    ensures |s| == 0 ==> Encrypted("xor", data, StrKey(s)) == Failure(EmptyStringKey)
    ensures |s| > 0 ==>
      (Encrypted("xor", data, StrKey(s)).Success? <==>
        forall i :: 0 <= i < |data| ==> s[i % |s|] as int < 256)
    ensures |s| > 0 && Encrypted("xor", data, StrKey(s)).Success? ==>
      forall i :: 0 <= i < |data| ==>
        Encrypted("xor", data, StrKey(s)).value[i] == Xor(data[i], s[i % |s|] as int)
  {
    if |s| > 0 {
      XorBytesOutcome(data, StrKey(s));
      forall i | 0 <= i < |data| ensures KeyCode(StrKey(s), i) == s[i % |s|] as int {
      }
    }
  }

  /** The flip-flop shift alternates between the Caesar shifts by `-k` (even
      positions) and by `k` (odd positions). */
  lemma FlipFlopAlternates(data: seq<byte>, k: int)
    ensures forall i :: 0 <= i < |data| ==>
      Encrypted("ff", data, IntKey(k)).value[i] ==
        Encrypted("caesar", data, IntKey(if i % 2 == 0 then -k else k)).value[i]
  {
  }

  // ---------------------------------------------------------------------
  // Output formats

  const CHead: string := "unsigned char buf[] = {\n  "
  const ArrayHead: string := "byte[] buf = new byte[] {\n  "
  const ArrayTail: string := "\n};\n"
  const PowerShellHead: string := "[Byte[]] $buf = "
  const PythonHead: string := "bytes.fromhex('"
  const PythonTail: string := "')"
  const JsHead: string := "const buf = new Uint8Array(Buffer.from('"
  const JsTail: string := "', 'hex'));"

  function FallbackHead(language: string): (r: string) {
    "Unsupported language: " + language + ". Using hex format instead:\n"
  }

  /** What `format_output(data, language)` promises for each language:
      every format gives the bytes back, in order, from the text. */
  predicate Rendered(r: string, data: seq<byte>, language: string) {
    if language == "hex" then Unhexlify(r) == Some(data)
    else if language == "python" then HexBetween(r, PythonHead, PythonTail, data)
    else if language == "c" then TokensBetween(r, CHead, ArrayTail, data, "0x", ", ")
    else if language == "csharp" || language == "c#" || language == "java" then
      TokensBetween(r, ArrayHead, ArrayTail, data, "0x", ", ")
    else if language == "powershell" || language == "ps1" then
      TokensBetween(r, PowerShellHead, "\n", data, "0x", ",")
    else if language == "vba" then VbaShaped(r, data)
    else if language == "js" || language == "javascript" then HexBetween(r, JsHead, JsTail, data)
    else HexBetween(r, FallbackHead(language), "", data)
  }

  /** `format_output(encrypted_data, language)`. */
  method FormatOutput(encryptedData: seq<byte>, language: string) returns (r: string)
    ensures Rendered(r, encryptedData, language)
  {
    var hexOutput := Hexlify(encryptedData);
    if language == "hex" {
      r := hexOutput;
      UnhexlifyHexlify(encryptedData);
    } else if language == "python" {
      r := PythonHead + hexOutput + PythonTail;
      HexFramed(PythonHead, PythonTail, encryptedData);
    } else if language == "c" {
      r := CHead + Join(ChunkTokens(hexOutput, "0x"), ", ") + ArrayTail;
      ChunksFramed(CHead, ArrayTail, encryptedData, "0x", ", ");
    } else if language == "csharp" || language == "c#" {
      r := ArrayHead + Join(ChunkTokens(hexOutput, "0x"), ", ") + ArrayTail;
      ChunksFramed(ArrayHead, ArrayTail, encryptedData, "0x", ", ");
    } else if language == "java" {
      r := ArrayHead + Join(ChunkTokens(hexOutput, "0x"), ", ") + ArrayTail;
      ChunksFramed(ArrayHead, ArrayTail, encryptedData, "0x", ", ");
    } else if language == "powershell" || language == "ps1" {
      r := PowerShellHead + Join(ChunkTokens(hexOutput, "0x"), ",") + "\n";
      ChunksFramed(PowerShellHead, "\n", encryptedData, "0x", ",");
    } else if language == "vba" {
      r := VbaArray(encryptedData);
    } else if language == "js" || language == "javascript" {
      r := JsHead + hexOutput + JsTail;
      HexFramed(JsHead, JsTail, encryptedData);
    } else {
      r := FallbackHead(language) + hexOutput;
      HexFramed(FallbackHead(language), "", encryptedData);
      assert r == FallbackHead(language) + hexOutput + "";
    }
  }
}
