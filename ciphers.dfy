/** What the encrypt and decrypt tools share: the key, the ways a run can
    fail, the byte-wise primitives, and the exclusive-or loop, which both
    tools run identically. */
module Ciphers {
  import opened Wrappers
  import opened Bytes

  /** The key: an integer, or a string (`parse_int_or_str` keeps a string
      that `int()` rejects). */
  datatype Key = IntKey(n: int) | StrKey(s: string)

  datatype CipherError =
    | ByteOutOfRange      // `bytes(enc)` meets a value outside range(0, 256)
    | EmptyStringKey      // `count % len(key)` with an empty string key
    | NumericKeyRequired  // the encrypt tool rejects a string key and exits
    | OperandTypeError    // `b - key` with a string key in the decrypt tool

  /** `bytes(xs)`: fails unless every value is a byte. */
  function AsBytes(xs: seq<int>): (r: Result<seq<byte>, CipherError>)
    ensures r.Success? <==> forall i :: 0 <= i < |xs| ==> 0 <= xs[i] < 256
    ensures r.Success? ==> r.value == xs
  {
    if forall i :: 0 <= i < |xs| ==> 0 <= xs[i] < 256
    then Success(seq(|xs|, i requires 0 <= i < |xs| => xs[i] as byte))
    else Failure(ByteOutOfRange)
  }

  /** The number byte `i` is combined with: the integer key, or the code
      point of the key character `key[i % len(key)]`. */
  function KeyCode(key: Key, i: nat): (r: int)
    requires key.IntKey? || |key.s| > 0
  {
    match key
    case IntKey(n) => n
    case StrKey(s) => s[i % |s|] as int
  }

  /** `(b + k) & 0xff`; Python's `& 0xff` on a negative number is the
      non-negative remainder modulo 256, which is Dafny's `%`. */
  function Shift(b: byte, k: int): (r: byte) {
    (b + k) % 256
  }

  /** The flip-flop key for byte `i`: the loop negates the key before each
      byte, so byte 0 gets `-k`, byte 1 gets `k`, and so on. */
  function FlipFlopKey(k: int, i: nat): (r: int) {
    if i % 2 == 0 then -k else k
  }

  /** Shifting back by the same amount restores the byte. */
  lemma ShiftBack(b: byte, k: int)
    ensures Shift(Shift(b, k), -k) == b
  {
    var q := (b + k) / 256;
    assert Shift(b, k) == b + k - 256 * q;
    assert Shift(b, k) - k == b - 256 * q;
  }

  /** The numbers `b ^ code` the `xor` branch collects, before `bytes()`. */
  function XorCodes(data: seq<byte>, key: Key): (codes: seq<int>)
    requires key.IntKey? || |key.s| > 0 || |data| == 0
    ensures |codes| == |data|
  {
    seq(|data|, i requires 0 <= i < |data| => PyXor(data[i], KeyCode(key, i)))
  }

  /** The `xor` branch, the same in both tools. */
  function XorBytes(data: seq<byte>, key: Key): (r: Result<seq<byte>, CipherError>)
    ensures r.Success? ==> |r.value| == |data|
  {
    if key.StrKey? && |key.s| == 0 && |data| > 0 then Failure(EmptyStringKey)
    else AsBytes(XorCodes(data, key))
  }

  /** The loop over a string key: characters are taken cyclically, and an
      empty key fails on the first byte. */
  method XorWithString(data: seq<byte>, s: string) returns (r: Result<seq<int>, CipherError>)
    ensures |s| == 0 && |data| > 0 ==> r == Failure(EmptyStringKey)
    ensures |s| > 0 || |data| == 0 ==> r == Success(XorCodes(data, StrKey(s)))
  {
    var enc: seq<int> := [];
    var count := 0;
    for j := 0 to |data|
      invariant count == j && |enc| == j && (j > 0 ==> |s| > 0)
      invariant forall i :: 0 <= i < j ==> enc[i] == PyXor(data[i], KeyCode(StrKey(s), i))
    {
      if |s| == 0 {
        return Failure(EmptyStringKey);
      }
      var token := s[count % |s|];
      enc := enc + [PyXor(data[j], token as int)];
      count := count + 1;
    }
    assert enc == XorCodes(data, StrKey(s));
    r := Success(enc);
  }

  /** The loop over an integer key. */
  method XorWithInt(data: seq<byte>, n: int) returns (enc: seq<int>)
    ensures enc == XorCodes(data, IntKey(n))
  {
    enc := [];
    for j := 0 to |data|
      invariant |enc| == j
      invariant forall i :: 0 <= i < j ==> enc[i] == PyXor(data[i], n)
    {
      enc := enc + [PyXor(data[j], n)];
    }
  }

  /** The `xor` branch's loop, followed by `bytes(enc)`. */
  method XorLoop(data: seq<byte>, key: Key) returns (r: Result<seq<byte>, CipherError>)
    ensures r == XorBytes(data, key)
  {
    var enc: seq<int>;
    match key {
      case StrKey(s) =>
        var codes := XorWithString(data, s);
        if codes.Failure? {
          return Failure(codes.error);
        }
        enc := codes.value;
      case IntKey(n) =>
        enc := XorWithInt(data, n);
    }
    r := AsBytes(enc);
  }

  /** Exclusive-or succeeds exactly when every number a byte meets is itself
      a byte, and it then gives `b ^ code` for each byte. */
  lemma XorBytesOutcome(data: seq<byte>, key: Key)
    requires key.IntKey? || |key.s| > 0
    ensures XorBytes(data, key).Success? <==>
      forall i :: 0 <= i < |data| ==> 0 <= KeyCode(key, i) < 256
    ensures XorBytes(data, key).Success? ==>
      forall i :: 0 <= i < |data| ==> XorBytes(data, key).value[i] == Xor(data[i], KeyCode(key, i))
  {
    var codes := XorCodes(data, key);
    forall i | 0 <= i < |data|
      ensures 0 <= codes[i] < 256 <==> 0 <= KeyCode(key, i) < 256
    {
      PyXorIsByte(data[i], KeyCode(key, i));
    }
  }

  /** Exclusive-or with the same key twice gives the data back. */
  lemma XorBytesInvolutive(data: seq<byte>, key: Key)
    requires XorBytes(data, key).Success?
    ensures XorBytes(XorBytes(data, key).value, key) == Success(data)
  {
    var enc := XorBytes(data, key).value;
    if |data| > 0 {
      XorBytesOutcome(data, key);
      XorBytesOutcome(enc, key);
      forall i | 0 <= i < |data|
        ensures PyXor(enc[i], KeyCode(key, i)) == data[i]
      {
        XorInvolutive(data[i], KeyCode(key, i));
      }
      assert XorCodes(enc, key) == data;
    }
  }
}
