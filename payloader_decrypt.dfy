/** The decrypt tool: undoes the encrypt tool's exclusive-or, flip-flop and
    Caesar transformations, then renders the bytes in the same literal
    formats (Java bytes carry a `(byte)` cast; there is no PowerShell
    format). */
module PayloaderDecrypt {
  import opened Wrappers
  import opened Text
  import opened Bytes
  import opened ByteLiterals
  import opened Ciphers
  import PayloaderEncrypt

  /** What `decrypt(decryption, data, key)` returns, or the way it fails.
      A string key for the shifts is not rejected up front: the first
      `b - key` raises, so only empty data gets through. */
  function Decrypted(decryption: string, data: seq<byte>, key: Key): (r: Result<seq<byte>, CipherError>)
    ensures r.Success? ==> |r.value| == |data|
  {
    if decryption == "xor" then XorBytes(data, key)
    else if decryption == "flop_flop" || decryption == "ff" then
      match key
      case StrKey(_) => if |data| > 0 then Failure(OperandTypeError) else Success([])
      case IntKey(k) => Success(seq(|data|, i requires 0 <= i < |data| => Shift(data[i], -FlipFlopKey(k, i))))
    else if decryption == "caesar" then
      match key
      case StrKey(_) => if |data| > 0 then Failure(OperandTypeError) else Success([])
      case IntKey(k) => Success(seq(|data|, i requires 0 <= i < |data| => Shift(data[i], -k)))
    else Success(data)
  }

  /** The flip-flop loop: the key is negated before each byte, which is
      shifted back by it. */
  method FlipFlopLoop(data: seq<byte>, key: int) returns (enc: seq<int>)
    ensures |enc| == |data|
    ensures forall i :: 0 <= i < |data| ==> enc[i] == Shift(data[i], -FlipFlopKey(key, i))
  {
    enc := [];
    var k := key;
    for j := 0 to |data|
      invariant k == (if j % 2 == 0 then key else -key)
      invariant |enc| == j
      invariant forall i :: 0 <= i < j ==> enc[i] == Shift(data[i], -FlipFlopKey(key, i))
    {
      k := -k;
      enc := enc + [(data[j] - k) % 256];
    }
  }

  /** The Caesar loop: every byte is shifted back by the key. */
  method CaesarLoop(data: seq<byte>, key: int) returns (enc: seq<int>)
    ensures |enc| == |data|
    ensures forall i :: 0 <= i < |data| ==> enc[i] == Shift(data[i], -key)
  {
    enc := [];
    for j := 0 to |data|
      invariant |enc| == j
      invariant forall i :: 0 <= i < j ==> enc[i] == Shift(data[i], -key)
    {
      enc := enc + [(data[j] - key) % 256];
    }
  }

  /** `decrypt(decryption, data, key)`. */
  method Decrypt(decryption: string, data: seq<byte>, key: Key) returns (r: Result<seq<byte>, CipherError>)
    ensures r == Decrypted(decryption, data, key)
  {
    if decryption == "xor" {
      r := XorLoop(data, key);
    } else if decryption == "flop_flop" || decryption == "ff" {
      if key.StrKey? {
        // `key *= -1` makes the string empty, and `b - key` then raises
        if |data| > 0 {
          return Failure(OperandTypeError);
        }
        return Success([]);
      }
      var enc := FlipFlopLoop(data, key.n);
      r := AsBytes(enc);
      assert r.value == seq(|data|, i requires 0 <= i < |data| => Shift(data[i], -FlipFlopKey(key.n, i)));
    } else if decryption == "caesar" {
      if key.StrKey? {
        if |data| > 0 {
          return Failure(OperandTypeError);
        }
        return Success([]);
      }
      var enc := CaesarLoop(data, key.n);
      r := AsBytes(enc);
      assert r.value == seq(|data|, i requires 0 <= i < |data| => Shift(data[i], -key.n));
    } else {
      var enc: seq<int> := data;
      r := AsBytes(enc);
    }
  }

  /** Decrypting what the encrypt tool produced, with the same algorithm name
      and key, gives the original bytes back. */
  lemma RoundTrip(algorithm: string, data: seq<byte>, key: Key)
    requires PayloaderEncrypt.Encrypted(algorithm, data, key).Success?
    ensures Decrypted(algorithm, PayloaderEncrypt.Encrypted(algorithm, data, key).value, key) == Success(data)
  {
    var enc := PayloaderEncrypt.Encrypted(algorithm, data, key).value;
    if algorithm == "xor" {
      XorBytesInvolutive(data, key);
    } else if algorithm == "flop_flop" || algorithm == "ff" {
      forall i | 0 <= i < |data| ensures Shift(enc[i], -FlipFlopKey(key.n, i)) == data[i] {
        ShiftBack(data[i], FlipFlopKey(key.n, i));
      }
      assert seq(|enc|, i requires 0 <= i < |enc| => Shift(enc[i], -FlipFlopKey(key.n, i))) == data;
    } else if algorithm == "caesar" {
      forall i | 0 <= i < |data| ensures Shift(enc[i], -key.n) == data[i] {
        ShiftBack(data[i], key.n);
      }
      assert seq(|enc|, i requires 0 <= i < |enc| => Shift(enc[i], -key.n)) == data;
    }
  }

  /** With an integer key, decryption is encryption with the key negated for
      the two shifts, and the very same operation for exclusive-or. */
  lemma DecryptIsEncrypt(algorithm: string, data: seq<byte>, k: int)
    ensures algorithm in {"ff", "flop_flop", "caesar"} ==>
      Decrypted(algorithm, data, IntKey(k)) == PayloaderEncrypt.Encrypted(algorithm, data, IntKey(-k))
    ensures algorithm !in {"ff", "flop_flop", "caesar"} ==>
      Decrypted(algorithm, data, IntKey(k)) == PayloaderEncrypt.Encrypted(algorithm, data, IntKey(k))
  {
    if algorithm == "ff" || algorithm == "flop_flop" {
      assert seq(|data|, i requires 0 <= i < |data| => Shift(data[i], -FlipFlopKey(k, i))) ==
             seq(|data|, i requires 0 <= i < |data| => Shift(data[i], FlipFlopKey(-k, i)));
    }
  }

  // ---------------------------------------------------------------------
  // Output formats

  /** What `format_output(data, language)` promises for each language. It
      is the encrypt tool's promise except that Java tokens read
      `(byte)0x..` and PowerShell falls back to hex. */
  predicate Rendered(r: string, data: seq<byte>, language: string) {
    if language == "hex" then Unhexlify(r) == Some(data)
    else if language == "python" then
      HexBetween(r, PayloaderEncrypt.PythonHead, PayloaderEncrypt.PythonTail, data)
    else if language == "c" then
      TokensBetween(r, PayloaderEncrypt.CHead, PayloaderEncrypt.ArrayTail, data, "0x", ", ")
    else if language == "csharp" || language == "c#" then
      TokensBetween(r, PayloaderEncrypt.ArrayHead, PayloaderEncrypt.ArrayTail, data, "0x", ", ")
    else if language == "java" then
      TokensBetween(r, PayloaderEncrypt.ArrayHead, PayloaderEncrypt.ArrayTail, data, "(byte)0x", ", ")
    else if language == "vba" then VbaShaped(r, data)
    else if language == "js" || language == "javascript" then
      HexBetween(r, PayloaderEncrypt.JsHead, PayloaderEncrypt.JsTail, data)
    else HexBetween(r, PayloaderEncrypt.FallbackHead(language), "", data)
  }

  /** `format_output(decrypted_data, language)`. */
  method FormatOutput(decryptedData: seq<byte>, language: string) returns (r: string)
    ensures Rendered(r, decryptedData, language)
  {
    var hexOutput := Hexlify(decryptedData);
    var head, tail := PayloaderEncrypt.ArrayHead, PayloaderEncrypt.ArrayTail;
    if language == "hex" {
      r := hexOutput;
      UnhexlifyHexlify(decryptedData);
    } else if language == "python" {
      r := PayloaderEncrypt.PythonHead + hexOutput + PayloaderEncrypt.PythonTail;
      HexFramed(PayloaderEncrypt.PythonHead, PayloaderEncrypt.PythonTail, decryptedData);
    } else if language == "c" {
      r := PayloaderEncrypt.CHead + Join(ChunkTokens(hexOutput, "0x"), ", ") + tail;
      ChunksFramed(PayloaderEncrypt.CHead, tail, decryptedData, "0x", ", ");
    } else if language == "csharp" || language == "c#" {
      r := head + Join(ChunkTokens(hexOutput, "0x"), ", ") + tail;
      ChunksFramed(head, tail, decryptedData, "0x", ", ");
    } else if language == "java" {
      r := head + Join(ChunkTokens(hexOutput, "(byte)0x"), ", ") + tail;
      ChunksFramed(head, tail, decryptedData, "(byte)0x", ", ");
    } else if language == "vba" {
      r := VbaArray(decryptedData);
    } else if language == "js" || language == "javascript" {
      r := PayloaderEncrypt.JsHead + hexOutput + PayloaderEncrypt.JsTail;
      HexFramed(PayloaderEncrypt.JsHead, PayloaderEncrypt.JsTail, decryptedData);
    } else {
      r := PayloaderEncrypt.FallbackHead(language) + hexOutput;
      HexFramed(PayloaderEncrypt.FallbackHead(language), "", decryptedData);
      assert r == PayloaderEncrypt.FallbackHead(language) + hexOutput + "";
    }
  }
}
