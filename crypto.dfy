/**
  The encryption module: AES-256-GCM keys and the framing of encrypted payloads as
  `iv ++ ciphertext`, the byte/base 64 helpers, and the random user name and room id.

  AES-GCM (NIST SP 800-38D) and the text encoder are foreign capabilities. Each is a
  value holding the primitive as functions, and a `Sound...` predicate states the one
  property the code relies on: decryption undoes encryption under the same key and IV,
  and decoding the UTF-8 of a text gives it back, less one leading byte order mark,
  which a default `new TextDecoder()` consumes. The random values (the 12-byte IV, the key
  bytes and the results of `Math.random()`) are parameters.
*/
module Crypto {
  import opened Wrappers
  import opened Base64

  /** AES-GCM initialisation vector length in bytes (`new Uint8Array(12)`). */
  const IvLength: nat := 12
  /** The authentication tag WebCrypto appends by default: 128 bits. */
  const TagLength: nat := 16
  /** AES-256 key length in bytes. */
  const KeyLength: nat := 32

  /** A CryptoKey for AES-GCM; `raw` is what exportKey('raw', key) returns. */
  datatype Key = Key(raw: Bytes)

  /** AES-GCM: `seal(key, iv, plaintext)` is ciphertext ++ tag, `open` returns None when the tag fails. */
  datatype Aead = Aead(seal: (Bytes, Bytes, Bytes) -> Bytes, open: (Bytes, Bytes, Bytes) -> Option<Bytes>)

  ghost predicate SoundAead(aead: Aead)
  {
    forall k, iv, p ::
      aead.open(k, iv, aead.seal(k, iv, p)) == Some(p) && |aead.seal(k, iv, p)| == |p| + TagLength
  }

  /** TextEncoder / TextDecoder (UTF-8). */
  datatype TextCodec = TextCodec(encode: string -> Bytes, decode: Bytes -> string)

  /** U+FEFF, the byte order mark. */
  const Bom: char := '\U{FEFF}'

  /**
    What `new TextDecoder().decode` returns for the UTF-8 of `s`: with `ignoreBOM`
    false (the default), a leading byte order mark is consumed, and only the first.
  */
  function WithoutBom(s: string): string
  {
    if |s| > 0 && s[0] == Bom then s[1..] else s
  }

  /** Every character takes at least one UTF-8 byte. */
  ghost predicate TextGrows(text: TextCodec)
  {
    forall s :: |text.encode(s)| >= |s|
  }

  /** UTF-8 round-trips up to the byte order mark the decoder drops. */
  ghost predicate SoundText(text: TextCodec)
  {
    TextGrows(text) && forall s :: text.decode(text.encode(s)) == WithoutBom(s)
  }

  // ---------------------------------------------------------------------------
  // Byte / base 64 helpers

  /** arrayBufferToBase64: builds the binary string one character per byte, then `btoa`. */
  method ArrayBufferToBase64(bytes: Bytes) returns (s: string)
    ensures s == Encode(bytes)
  {
    var binary: string := "";
    for i := 0 to |bytes|
      invariant |binary| == i
      invariant forall j :: 0 <= j < i ==> binary[j] as int == bytes[j]
    {
      binary := binary + [bytes[i] as char];
    }
    assert binary == BinaryString(bytes);
    BtoaBinaryString(bytes);
    s := Btoa(binary).value;
  }

  /**
    base64ToArrayBuffer: `atob`, then one byte per character of the binary string
    (a Uint8Array store keeps the character code modulo 256).
  */
  method Base64ToArrayBuffer(text: string) returns (r: Result<Bytes>)
    ensures Decode(text).None? ==> r == Failure(InvalidCharacter)
    ensures Decode(text).Some? ==> r == Success(Decode(text).value)
  {
    match Atob(text)
    case Failure(e) =>
      r := Failure(e);
    case Success(binary) =>
      var codes := CharCodes(binary);
      var bytes := new byte[|binary|];
      for i := 0 to |binary|
        invariant forall j :: 0 <= j < i ==> bytes[j] == codes[j]
      {
        bytes[i] := ToUint8(binary[i] as int);
      }
      assert bytes[..] == codes;
      r := Success(bytes[..]);
  }

  /** The conversion a Uint8Array store applies: the value modulo 256. */
  function ToUint8(n: int): (b: byte)
    ensures 0 <= n < 256 ==> b == n
  {
    n % 256
  }

  // ---------------------------------------------------------------------------
  // Keys

  /** generateKey: a fresh AES-256 key made of the random bytes supplied. */
  function GenerateKey(random: Bytes): (k: Key)
    requires |random| == KeyLength
    ensures |k.raw| == KeyLength && k == Key(random)
  {
    Key(random)
  }

  /** exportKey: the raw key bytes, base 64 encoded. */
  method ExportKey(key: Key) returns (s: string)
    ensures s == Encode(key.raw)
  {
    s := ArrayBufferToBase64(key.raw);
  }

  /** What importKey yields: the decoded bytes, which AES accepts only as 16, 24 or 32 bytes. */
  function ParseKey(keyString: string): Result<Key>
  {
    match Decode(keyString)
    case None => Failure(InvalidCharacter)
    case Some(raw) => if |raw| in {16, 24, 32} then Success(Key(raw)) else Failure(DataError)
  }

  /** importKey. */
  method ImportKey(keyString: string) returns (r: Result<Key>)
    ensures r == ParseKey(keyString)
  {
    var raw := Base64ToArrayBuffer(keyString);
    match raw
    case Failure(e) =>
      r := Failure(e);
    case Success(bytes) =>
      r := if |bytes| in {16, 24, 32} then Success(Key(bytes)) else Failure(DataError);
  }

  // ---------------------------------------------------------------------------
  // Framing: IV ++ ciphertext

  /** `combined.set(iv); combined.set(encrypted, iv.length)` on a fresh buffer. */
  method Combine(iv: Bytes, encrypted: Bytes) returns (combined: Bytes)
    ensures |combined| == |iv| + |encrypted|
    ensures combined[..|iv|] == iv && combined[|iv|..] == encrypted
  {
    var buffer := new byte[|iv| + |encrypted|];
    forall i | 0 <= i < |iv| {
      buffer[i] := iv[i];
    }
    forall i | 0 <= i < |encrypted| {
      buffer[|iv| + i] := encrypted[i];
    }
    combined := buffer[..];
    assert combined[..|iv|] == iv;
    assert combined[|iv|..] == encrypted;
  }

  /** `combined.slice(0, 12)`: slicing stops at the end of a shorter buffer. */
  function IvOf(combined: Bytes): Bytes
  {
    if |combined| < IvLength then combined else combined[..IvLength]
  }

  /** `combined.slice(12)`. */
  function CiphertextOf(combined: Bytes): Bytes
  {
    if |combined| < IvLength then [] else combined[IvLength..]
  }

  /** The string encryptMessage returns. */
  function SealedText(message: string, key: Key, iv: Bytes, aead: Aead, text: TextCodec): string
  {
    Encode(iv + aead.seal(key.raw, iv, text.encode(message)))
  }

  /** encryptMessage: UTF-8 encode, encrypt under the IV, prefix the IV, base 64 encode. */
  method EncryptMessage(message: string, key: Key, iv: Bytes, aead: Aead, text: TextCodec)
    returns (s: string)
    requires |iv| == IvLength
    ensures s == SealedText(message, key, iv, aead, text)
  {
    var data := text.encode(message);
    var encrypted := aead.seal(key.raw, iv, data);
    var combined := Combine(iv, encrypted);
    assert combined == iv + encrypted;
    s := ArrayBufferToBase64(combined);
  }

  /** What decryptMessage yields: it throws on bad base 64 and on a tag that does not verify. */
  function OpenedText(encrypted: string, key: Key, aead: Aead, text: TextCodec): Result<string>
  {
    match Decode(encrypted)
    case None => Failure(InvalidCharacter)
    case Some(combined) =>
      match aead.open(key.raw, IvOf(combined), CiphertextOf(combined))
      case None => Failure(OperationError)
      case Some(plain) => Success(text.decode(plain))
  }

  /** decryptMessage. */
  method DecryptMessage(encrypted: string, key: Key, aead: Aead, text: TextCodec)
    returns (r: Result<string>)
    ensures r == OpenedText(encrypted, key, aead, text)
  {
    var bytes := Base64ToArrayBuffer(encrypted);
    match bytes
    case Failure(e) =>
      r := Failure(e);
    case Success(combined) =>
      var iv := IvOf(combined);
      var data := CiphertextOf(combined);
      match aead.open(key.raw, iv, data)
      case None =>
        r := Failure(OperationError);
      case Some(plain) =>
        r := Success(text.decode(plain));
  }

  /** encryptFile: the IV followed by the ciphertext of the file bytes. */
  method EncryptFile(data: Bytes, key: Key, iv: Bytes, aead: Aead) returns (combined: Bytes)
    requires |iv| == IvLength
    ensures |combined| == IvLength + |aead.seal(key.raw, iv, data)|
    ensures combined[..IvLength] == iv && combined[IvLength..] == aead.seal(key.raw, iv, data)
  {
    var encrypted := aead.seal(key.raw, iv, data);
    combined := Combine(iv, encrypted);
  }

  /**
    decryptFile: split at offset 12 and decrypt; throws when the tag does not verify.
    A buffer framed by encryptFile under the same key decrypts to the framed data.
  */
  function DecryptFile(encrypted: Bytes, key: Key, aead: Aead): (r: Result<Bytes>)
    ensures r.Failure? ==> r.error == OperationError
    ensures SoundAead(aead) ==>
      forall iv, data :: |iv| == IvLength && encrypted == iv + aead.seal(key.raw, iv, data) ==> r == Success(data)
  {
    FrameParts(encrypted);
    match aead.open(key.raw, IvOf(encrypted), CiphertextOf(encrypted))
    case None => Failure(OperationError)
    case Some(plain) => Success(plain)
  }

  // ---------------------------------------------------------------------------
  // Random names

  /** A value of Math.random(). */
  type Unit = r: real | 0.0 <= r < 1.0

  /** `Math.floor(r * n)`: an index below n. */
  function Pick(r: Unit, n: nat): (i: nat)
    requires n > 0
    ensures i < n
  {
    assert 0.0 <= r * n as real < n as real;
    (r * n as real).Floor
  }

  const Adjectives: seq<string> :=
    ["Swift", "Silent", "Shadow", "Cyber", "Ghost", "Phantom", "Stealth", "Cipher", "Quantum", "Neural"]
  const Nouns: seq<string> :=
    ["Fox", "Wolf", "Hawk", "Raven", "Tiger", "Panther", "Falcon", "Viper", "Phoenix", "Dragon"]
  /** `Math.floor(Math.random() * 1000)` is below this bound. */
  const NumberBound: nat := 1000

  predicate IsDigit(c: char) { '0' <= c <= '9' }

  function DigitChar(d: nat): (c: char)
    requires d < 10
    ensures IsDigit(c) && c as int - '0' as int == d
  {
    ('0' as int + d) as char
  }

  /** The decimal form of n that a template literal produces: no sign, no leading zero. */
  function Decimal(n: nat): (s: string)
    ensures |s| >= 1 && forall i :: 0 <= i < |s| ==> IsDigit(s[i])
    decreases n
  {
    if n < 10 then [DigitChar(n)] else Decimal(n / 10) + [DigitChar(n % 10)]
  }

  /** The number a string of decimal digits denotes. */
  function DigitsValue(s: string): nat
    requires forall i :: 0 <= i < |s| ==> IsDigit(s[i])
    decreases |s|
  {
    if |s| == 0 then 0
    else
      assert IsDigit(s[|s| - 1]);
      DigitsValue(s[..|s| - 1]) * 10 + (s[|s| - 1] as int - '0' as int)
  }

  /** A user name made of a listed adjective, a listed noun and a number below 1000. */
  ghost predicate IsUsername(name: string)
  {
    exists i, j, n :: 0 <= i < |Adjectives| && 0 <= j < |Nouns| && 0 <= n < NumberBound
      && name == Adjectives[i] + Nouns[j] + Decimal(n)
  }

  /** generateUsername, with the three Math.random() results as parameters. */
  function GenerateUsername(r1: Unit, r2: Unit, r3: Unit): (name: string)
    ensures IsUsername(name)
    ensures |name| > 0
  {
    var i, j, n := Pick(r1, |Adjectives|), Pick(r2, |Nouns|), Pick(r3, NumberBound);
    var name := Adjectives[i] + Nouns[j] + Decimal(n);
    assert name == Adjectives[i] + Nouns[j] + Decimal(n);
    name
  }

  const RoomIdChars: string := "abcdefghijklmnopqrstuvwxyz0123456789"
  const RoomIdLength: nat := 8

  predicate IsRoomIdChar(c: char) { 'a' <= c <= 'z' || IsDigit(c) }

  /** generateRoomId, with the eight Math.random() results as parameters. */
  method GenerateRoomId(draws: seq<Unit>) returns (id: string)
    requires |draws| == RoomIdLength
    ensures |id| == RoomIdLength
    ensures forall i :: 0 <= i < |id| ==> id[i] == RoomIdChars[Pick(draws[i], |RoomIdChars|)]
    ensures forall i :: 0 <= i < |id| ==> IsRoomIdChar(id[i])
  {
    id := "";
    for i := 0 to RoomIdLength
      invariant |id| == i
      invariant forall j :: 0 <= j < i ==> id[j] == RoomIdChars[Pick(draws[j], |RoomIdChars|)]
    {
      id := id + [RoomIdChars[Pick(draws[i], |RoomIdChars|)]];
    }
    assert forall k :: 0 <= k < |RoomIdChars| ==> IsRoomIdChar(RoomIdChars[k]);
  }

  // ---------------------------------------------------------------------------
  // Properties

  /** Splitting a framed buffer at offset 12 recovers the IV and the ciphertext. */
  lemma SplitFrame(iv: Bytes, ciphertext: Bytes)
    requires |iv| == IvLength
    ensures IvOf(iv + ciphertext) == iv && CiphertextOf(iv + ciphertext) == ciphertext
  {
    assert (iv + ciphertext)[..IvLength] == iv;
    assert (iv + ciphertext)[IvLength..] == ciphertext;
  }

  /** Every way of writing a buffer as a 12-byte IV followed by a ciphertext is the split at offset 12. */
  lemma FrameParts(combined: Bytes)
    ensures forall iv, c :: |iv| == IvLength && combined == iv + c ==> IvOf(combined) == iv && CiphertextOf(combined) == c
  {
    forall iv, c | |iv| == IvLength && combined == iv + c
      ensures IvOf(combined) == iv && CiphertextOf(combined) == c
    {
      SplitFrame(iv, c);
    }
  }

  /** Conversely, every buffer is its IV part followed by its ciphertext part. */
  lemma FrameSplit(combined: Bytes)
    ensures IvOf(combined) + CiphertextOf(combined) == combined
    ensures |IvOf(combined)| <= IvLength
  {
    if |combined| >= IvLength {
      assert combined[..IvLength] + combined[IvLength..] == combined;
    } else {
      assert combined + [] == combined;
    }
  }

  /** importKey(exportKey(k)) is k for every AES key. */
  lemma KeyRoundTrip(key: Key)
    requires |key.raw| in {16, 24, 32}
    ensures ParseKey(Encode(key.raw)) == Success(key)
  {
    DecodeEncode(key.raw);
  }

  /**
    decryptMessage(encryptMessage(m, k), k) is m, except that a leading byte order
    mark of m is lost to the decoder.
  */
  lemma TextRoundTrip(message: string, key: Key, iv: Bytes, aead: Aead, text: TextCodec)
    requires SoundAead(aead) && SoundText(text)
    requires |iv| == IvLength
    ensures OpenedText(SealedText(message, key, iv, aead, text), key, aead, text) == Success(WithoutBom(message))
    ensures (|message| == 0 || message[0] != Bom) ==>
      OpenedText(SealedText(message, key, iv, aead, text), key, aead, text) == Success(message)
    ensures |message| > 0 && message[0] == Bom ==>
      OpenedText(SealedText(message, key, iv, aead, text), key, aead, text) == Success(message[1..])
  {
    var encrypted := aead.seal(key.raw, iv, text.encode(message));
    DecodeEncode(iv + encrypted);
    SplitFrame(iv, encrypted);
  }

  /** The encrypted text is longer than the message, hence different from it. */
  lemma SealedTextDiffers(message: string, key: Key, iv: Bytes, aead: Aead, text: TextCodec)
    requires SoundAead(aead) && TextGrows(text)
    requires |iv| == IvLength
    ensures |SealedText(message, key, iv, aead, text)|
            == 4 * ((IvLength + TagLength + |text.encode(message)| + 2) / 3)
    ensures |SealedText(message, key, iv, aead, text)| > |message|
    ensures SealedText(message, key, iv, aead, text) != message
  {
    var combined := iv + aead.seal(key.raw, iv, text.encode(message));
    EncodeLength(combined);
  }

  /** decryptFile(encryptFile(d, k), k) == d, and the encrypted length is 28 bytes more. */
  lemma FileRoundTrip(data: Bytes, key: Key, iv: Bytes, aead: Aead)
    requires SoundAead(aead)
    requires |iv| == IvLength
    ensures DecryptFile(iv + aead.seal(key.raw, iv, data), key, aead) == Success(data)
    ensures |iv + aead.seal(key.raw, iv, data)| == |data| + IvLength + TagLength
  {
    SplitFrame(iv, aead.seal(key.raw, iv, data));
  }

  /** The digits of Decimal(n) denote n, and there is no leading zero. */
  lemma {:induction false} DecimalValue(n: nat)
    ensures DigitsValue(Decimal(n)) == n
    ensures |Decimal(n)| > 1 ==> Decimal(n)[0] != '0'
    decreases n
  {
    if n >= 10 {
      DecimalValue(n / 10);
      var s := Decimal(n);
      assert s[..|s| - 1] == Decimal(n / 10);
      assert s[0] == Decimal(n / 10)[0];
    }
  }

  /** A number below 1000 takes one to three digits. */
  lemma DecimalLength(n: nat)
    requires n < NumberBound
    ensures 1 <= |Decimal(n)| <= 3
  {
    if n >= 10 {
      assert |Decimal(n)| == |Decimal(n / 10)| + 1;
      if n / 10 >= 10 {
        assert |Decimal(n / 10)| == |Decimal(n / 100)| + 1;
      }
    }
  }
}
