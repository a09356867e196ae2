/** `MessageCrypto`: the byte logic of the push-message cipher. The plaintext
    envelope is `random16 ++ uint32be(len(msg)) ++ msg ++ appId`; the cipher
    pads it to 16-byte blocks; decryption strips the padding, slices the
    envelope apart and checks the trailing app id. AES-256-CBC, base64 and the
    SHA-1 digest are parameters. */
module MessageCrypto {
  import opened Wrappers
  import opened Bytes
  import StringOrder
  import Utils


  /** The block size of the padding encoder and the upper bound the decoder
      accepts for a pad byte. */
  const PAD_BLOCK: nat := 32

  /** The block size of AES, and of the PKCS#7 padding the cipher itself applies. */
  const AES_BLOCK: nat := 16

  // ---------------------------------------------------------------- sha1

  /** `args.join('')`. */
  function Concat(parts: seq<string>): string
  {
    if |parts| == 0 then "" else parts[0] + Concat(parts[1..])
  }

  /** `sha1(...args)`: the hex digest of the sorted arguments, concatenated. */
  function Sha1(digest: string -> string, args: seq<string>): (h: string)
    ensures exists sorted ::
      StringOrder.Sorted(sorted) && multiset(sorted) == multiset(args) && h == digest(Concat(sorted))
  {
    var sorted := StringOrder.Sort(args);
    assert StringOrder.Sorted(sorted) && multiset(sorted) == multiset(args);
    digest(Concat(sorted))
  }

  /** The signature is the digest of the arguments concatenated in ascending
      order, whichever order the caller passed them in. */
  lemma Sha1OfSorted(digest: string -> string, args: seq<string>, sorted: seq<string>)
    requires StringOrder.Sorted(sorted) && multiset(sorted) == multiset(args)
    ensures Sha1(digest, args) == digest(Concat(sorted))
  {
    StringOrder.SortedUnique(StringOrder.Sort(args), sorted);
  }

  /** Reordering the arguments does not change the signature. */
  lemma Sha1OrderIndependent(digest: string -> string, a: seq<string>, b: seq<string>)
    requires multiset(a) == multiset(b)
    ensures Sha1(digest, a) == Sha1(digest, b)
  {
    StringOrder.SortPermutationInvariant(a, b);
  }

  // ---------------------------------------------------------------- key and IV

  /** `getAESKeyIV(aesKey)`: `aesKey.slice(0, 16)`. */
  function GetAESKeyIV(aesKey: seq<byte>): (iv: seq<byte>)
    ensures |iv| == if |aesKey| < AES_BLOCK then |aesKey| else AES_BLOCK
    ensures iv <= aesKey
  {
    Slice(aesKey, 0, AES_BLOCK)
  }

  // ---------------------------------------------------------------- padding

  /** `blockSize - (strSize % blockSize)` in the padding encoder: 1 to 32. */
  function AmountToPad(size: nat): (k: nat)
    ensures 1 <= k <= PAD_BLOCK
    ensures (size + k) % PAD_BLOCK == 0
  {
    PAD_BLOCK - size % PAD_BLOCK
  }

  /** What `PKCS7Encoder` appends: `amountToPad - 1` bytes, each `amountToPad`. */
  function EncoderPadding(size: nat): seq<byte>
  {
    Repeat(AmountToPad(size) as byte, AmountToPad(size) - 1)
  }

  /** `PKCS7Encoder(buff)`: allocates the pad, fills it, and appends it. The
      input is kept as a prefix, the output is one byte short of a multiple of
      32, and nothing is appended when the length is 31 modulo 32. */
  method PKCS7Encoder(buff: seq<byte>) returns (r: seq<byte>)
    ensures r == buff + EncoderPadding(|buff|)
    ensures buff <= r
    ensures (|r| + 1) % PAD_BLOCK == 0
    ensures |buff| % PAD_BLOCK == PAD_BLOCK - 1 ==> r == buff
    ensures forall i :: |buff| <= i < |r| ==> r[i] as int == PAD_BLOCK - |buff| % PAD_BLOCK
  {
    var strSize := |buff|;
    var amountToPad := PAD_BLOCK - strSize % PAD_BLOCK;
    var pad := new byte[amountToPad - 1];
    var i := 0;
    while i < pad.Length
      invariant 0 <= i <= pad.Length
      invariant forall j :: 0 <= j < i ==> pad[j] == amountToPad as byte
    {
      pad[i] := amountToPad as byte;
      i := i + 1;
    }
    r := buff + pad[..];
  }

  /** `PKCS7Decoder(buff)`: reads the last byte as the pad length; a value
      outside [1, 32] counts as no padding. The slice end `length - pad` follows
      `Buffer.slice`: negative counts from the end, and an empty buffer (whose
      last byte is `undefined`) gives an empty result. */
  function PKCS7Decoder(buff: seq<byte>): (r: seq<byte>)
    ensures r <= buff
    ensures |buff| > 0 && 1 <= buff[|buff| - 1] as int <= PAD_BLOCK && buff[|buff| - 1] as int <= |buff| ==>
      |r| == |buff| - buff[|buff| - 1] as int
    ensures |buff| > 0 && 1 <= buff[|buff| - 1] as int <= PAD_BLOCK && buff[|buff| - 1] as int > |buff| ==>
      |r| == if 2 * |buff| > buff[|buff| - 1] as int then 2 * |buff| - buff[|buff| - 1] as int else 0
    ensures |buff| > 0 && !(1 <= buff[|buff| - 1] as int <= PAD_BLOCK) ==> r == buff
    ensures |buff| == 0 ==> r == []
  {
    if |buff| == 0 then []
    else
      var last := buff[|buff| - 1] as int;
      var pad := if last < 1 || last > PAD_BLOCK then 0 else last;
      Slice(buff, 0, |buff| - pad)
  }

  /** The decoder strips exactly `k` trailing copies of the byte `k`, for any
      `k` from 1 to 32. */
  lemma DecoderStripsPadding(x: seq<byte>, k: nat)
    requires 1 <= k <= PAD_BLOCK
    ensures PKCS7Decoder(x + Repeat(k as byte, k)) == x
  {
    var padded := x + Repeat(k as byte, k);
    assert padded[|padded| - 1] == k as byte;
    assert padded[..|x|] == x;
  }

  /** The standard PKCS#7 padding that the cipher applies to 16-byte blocks. */
  function CipherPadding(x: seq<byte>): (r: seq<byte>)
    ensures |r| % AES_BLOCK == 0
  {
    var k := AES_BLOCK - |x| % AES_BLOCK;
    x + Repeat(k as byte, k)
  }

  /** The decoder undoes the cipher's own padding. */
  lemma DecoderUndoesCipherPadding(x: seq<byte>)
    ensures PKCS7Decoder(CipherPadding(x)) == x
  {
    DecoderStripsPadding(x, AES_BLOCK - |x| % AES_BLOCK);
  }

  /** The encoder as written is not undone by the decoder: except when no pad
      is needed, decoding its output loses bytes of the input. */
  lemma EncoderNotInverted(buff: seq<byte>)
    requires |buff| % PAD_BLOCK != PAD_BLOCK - 1
    ensures PKCS7Decoder(buff + EncoderPadding(|buff|)) != buff
  {
    var out := buff + EncoderPadding(|buff|);
    var k := AmountToPad(|buff|);
    assert k >= 2;
    assert out[|out| - 1] as int == k;
    assert |PKCS7Decoder(out)| != |buff|;
  }

  /** The smallest case: the empty buffer. */
  lemma EncoderNotInvertedOnEmpty()
    ensures PKCS7Decoder(EncoderPadding(0)) == Repeat(32, 30)
  {
    var out := EncoderPadding(0);
    assert out == Repeat(32, 31);
    assert out[..30] == Repeat(32, 30);
  }

  /** The encoder as its comment intends: PKCS#7 to 32-byte blocks, appending
      `amountToPad` bytes. The decoder undoes it. */
  method PKCS7Encoder32(buff: seq<byte>) returns (r: seq<byte>)
    ensures buff <= r
    ensures |r| % PAD_BLOCK == 0 && |buff| < |r| <= |buff| + PAD_BLOCK
    ensures PKCS7Decoder(r) == buff
  {
    var amountToPad := AmountToPad(|buff|);
    var pad := new byte[amountToPad];
    var i := 0;
    while i < pad.Length
      invariant 0 <= i <= pad.Length
      invariant forall j :: 0 <= j < i ==> pad[j] == amountToPad as byte
    {
      pad[i] := amountToPad as byte;
      i := i + 1;
    }
    assert pad[..] == Repeat(amountToPad as byte, amountToPad);
    r := buff + pad[..];
    DecoderStripsPadding(buff, amountToPad);
  }

  // ---------------------------------------------------------------- envelope

  /** The plaintext `encrypt` hands to the cipher. */
  function Envelope(random16: seq<byte>, msg: seq<byte>, appId: seq<byte>): seq<byte>
    requires |msg| < UINT32_LIMIT
  {
    random16 + Uint32BE(|msg|) + msg + appId
  }

  /** The envelope is the 16 random bytes, a big-endian length equal to the
      message length, the message, then the app id. */
  lemma EnvelopeLayout(random16: seq<byte>, msg: seq<byte>, appId: seq<byte>)
    requires |random16| == 16 && |msg| < UINT32_LIMIT
    ensures var e := Envelope(random16, msg, appId);
      |e| == 20 + |msg| + |appId| &&
      e[..16] == random16 &&
      ReadUInt32BE(e[16..20]) == |msg| &&
      e[20..20 + |msg|] == msg &&
      e[20 + |msg|..] == appId
  {
    var e := Envelope(random16, msg, appId);
    assert e[16..20] == Uint32BE(|msg|);
    ReadWriteUInt32BE(|msg|);
  }

  datatype CryptoError =
    | LengthOutOfRange   // writeUInt32BE of a message of 2^32 bytes or more
    | CipherFailure      // the decipher rejected the input
    | BufferOutOfBounds  // readUInt32BE on fewer than four bytes

  /** What `decrypt` gives back: the message, `undefined` when the app id does
      not match, or a thrown error. */
  datatype Decrypted =
    | Plaintext(msg: seq<byte>)
    | AppIdMismatch
    | Failed(error: CryptoError)

  /** The slicing in `decrypt`, applied to the unpadded plaintext: skip 16
      bytes, read the length `L`, compare the bytes after `4 + L` with the
      expected app id when one is given, and return bytes `4 .. 4 + L`. All
      slices clamp, so only a buffer too short for the length field fails. */
  function ParseEnvelope(plain: seq<byte>, appId: seq<byte>): (r: Decrypted)
    ensures r.Failed? <==> |plain| < 20
    ensures r.Failed? ==> r.error == BufferOutOfBounds
    ensures r == AppIdMismatch <==>
      |plain| >= 20 && |appId| > 0 && appId != plain[20 + Min(ReadUInt32BE(plain[16..20]), |plain| - 20)..]
    ensures r.Plaintext? ==>
      var n := Min(ReadUInt32BE(plain[16..20]), |plain| - 20);
      r.msg == plain[20..20 + n]
  {
    var data := SliceFrom(plain, 16);
    if |data| < 4 then Failed(BufferOutOfBounds)
    else
      var msgLen := ReadUInt32BE(data[..4]);
      var decryptAppId := SliceFrom(data, msgLen + 4);
      EnvelopeSlices(plain, msgLen);
      if |appId| > 0 && appId != decryptAppId then AppIdMismatch
      else Plaintext(Slice(data, 4, msgLen + 4))
  }

  function Min(a: nat, b: nat): nat { if a < b then a else b }

  /** The clamped slices of `decrypt`, in positions of the unpadded plaintext. */
  lemma EnvelopeSlices(plain: seq<byte>, msgLen: nat)
    requires |plain| >= 20
    ensures SliceFrom(plain, 16) == plain[16..]
    ensures plain[16..][..4] == plain[16..20]
    ensures SliceFrom(plain[16..], msgLen + 4) == plain[20 + Min(msgLen, |plain| - 20)..]
    ensures Slice(plain[16..], 4, msgLen + 4) == plain[20..20 + Min(msgLen, |plain| - 20)]
  {
    var data, n := plain[16..], Min(msgLen, |plain| - 20);
    assert SliceIndex(4, |data|) == 4;
    assert SliceIndex(msgLen + 4, |data|) == n + 4;
    var payload, expected := data[4..n + 4], plain[20..20 + n];
    forall k | 0 <= k < n
      ensures payload[k] == expected[k]
    {
      assert data[4 + k] == plain[20 + k];
    }
    assert payload == expected;
  }

  /** Parsing an envelope returns its message when the expected app id is the
      embedded one or is empty. */
  lemma ParseEnvelopeRoundTrip(random16: seq<byte>, msg: seq<byte>, appId: seq<byte>, expected: seq<byte>)
    requires |random16| == 16 && |msg| < UINT32_LIMIT
    requires expected == [] || expected == appId
    ensures ParseEnvelope(Envelope(random16, msg, appId), expected) == Plaintext(msg)
  {
    EnvelopeLayout(random16, msg, appId);
  }

  /** A non-empty expected app id that differs from the embedded one yields no
      plaintext. */
  lemma ParseEnvelopeRejectsOtherAppId(random16: seq<byte>, msg: seq<byte>, appId: seq<byte>, expected: seq<byte>)
    requires |random16| == 16 && |msg| < UINT32_LIMIT
    requires expected != [] && expected != appId
    ensures ParseEnvelope(Envelope(random16, msg, appId), expected) == AppIdMismatch
  {
    EnvelopeLayout(random16, msg, appId);
  }

  // ---------------------------------------------------------------- encrypt / decrypt

  /** The foreign primitives: raw AES-256-CBC on whole blocks (the cipher's
      padding is `CipherPadding`), and base64. A decipher that throws gives `None`. */
  datatype Primitives = Primitives(
    cbcEncrypt: (seq<byte>, seq<byte>, seq<byte>) -> seq<byte>,
    cbcDecrypt: (seq<byte>, seq<byte>, seq<byte>) -> Option<seq<byte>>,
    toBase64: seq<byte> -> string,
    fromBase64: string -> seq<byte>)

  /** For this key and IV the cipher's decryption undoes its encryption on
      whole blocks, and base64 decoding undoes encoding. */
  ghost predicate Inverse(p: Primitives, aesKey: seq<byte>, iv: seq<byte>)
  {
    && (forall x :: |x| % AES_BLOCK == 0 ==> p.cbcDecrypt(aesKey, iv, p.cbcEncrypt(aesKey, iv, x)) == Some(x))
    && (forall b :: p.fromBase64(p.toBase64(b)) == b)
  }

  /** The base64 ciphertext `encrypt` returns for a message that fits the
      length field. */
  function Ciphertext(p: Primitives, aesKey: seq<byte>, iv: seq<byte>,
                      random16: seq<byte>, msg: seq<byte>, appId: seq<byte>): string
    requires |msg| < UINT32_LIMIT
  {
    p.toBase64(p.cbcEncrypt(aesKey, iv, CipherPadding(Envelope(random16, msg, appId))))
  }

  /** `encrypt(aesKey, iv, msg, appId)`, with the 16 random bytes as input:
      writes the length into a four-byte buffer, concatenates the envelope and
      enciphers it with the cipher's padding. */
  method Encrypt(p: Primitives, aesKey: seq<byte>, iv: seq<byte>, msg: seq<byte>, appId: seq<byte>,
                 random16: seq<byte>) returns (r: Result<string, CryptoError>)
    requires |random16| == 16
    ensures |msg| >= UINT32_LIMIT <==> r == Err(LengthOutOfRange)
    ensures |msg| < UINT32_LIMIT ==> r == Ok(Ciphertext(p, aesKey, iv, random16, msg, appId))
  {
    if |msg| >= UINT32_LIMIT {
      return Err(LengthOutOfRange);
    }
    var msgLen := new byte[4];
    WriteUInt32BE(msgLen, |msg|);
    var rawMsg := random16 + msgLen[..] + msg + appId;
    var cipheredMsg := p.cbcEncrypt(aesKey, iv, CipherPadding(rawMsg));
    r := Ok(p.toBase64(cipheredMsg));
  }

  /** `decrypt(aesKey, iv, str, appId)`: decipher without automatic padding,
      strip the padding with the decoder, then parse the envelope. */
  function Decrypt(p: Primitives, aesKey: seq<byte>, iv: seq<byte>, str: string, appId: seq<byte>): (r: Decrypted)
    ensures r != Failed(LengthOutOfRange)
    ensures r == Failed(CipherFailure) <==> p.cbcDecrypt(aesKey, iv, p.fromBase64(str)).None?
    ensures r == Failed(BufferOutOfBounds) <==>
      (p.cbcDecrypt(aesKey, iv, p.fromBase64(str)).Some? &&
       |PKCS7Decoder(p.cbcDecrypt(aesKey, iv, p.fromBase64(str)).value)| < 20)
    ensures r.Plaintext? ==>
      p.cbcDecrypt(aesKey, iv, p.fromBase64(str)).Some? &&
      |r.msg| + 20 <= |p.cbcDecrypt(aesKey, iv, p.fromBase64(str)).value|
    ensures p.cbcDecrypt(aesKey, iv, p.fromBase64(str)).Some? ==>
      r == ParseEnvelope(PKCS7Decoder(p.cbcDecrypt(aesKey, iv, p.fromBase64(str)).value), appId)
  {
    match p.cbcDecrypt(aesKey, iv, p.fromBase64(str))
    case None => Failed(CipherFailure)
    case Some(deciphered) => ParseEnvelope(PKCS7Decoder(deciphered), appId)
  }

  /** Decrypting what `encrypt` produced returns the original message, when the
      expected app id is the one encrypted or is empty. */
  lemma DecryptEncrypt(p: Primitives, aesKey: seq<byte>, iv: seq<byte>,
                       random16: seq<byte>, msg: seq<byte>, appId: seq<byte>, expected: seq<byte>)
    requires Inverse(p, aesKey, iv)
    requires |random16| == 16 && |msg| < UINT32_LIMIT
    requires expected == [] || expected == appId
    ensures Decrypt(p, aesKey, iv, Ciphertext(p, aesKey, iv, random16, msg, appId), expected) == Plaintext(msg)
  {
    var plain := CipherPadding(Envelope(random16, msg, appId));
    assert p.fromBase64(p.toBase64(p.cbcEncrypt(aesKey, iv, plain))) == p.cbcEncrypt(aesKey, iv, plain);
    assert p.cbcDecrypt(aesKey, iv, p.cbcEncrypt(aesKey, iv, plain)) == Some(plain);
    DecoderUndoesCipherPadding(Envelope(random16, msg, appId));
    ParseEnvelopeRoundTrip(random16, msg, appId, expected);
  }

  /** Decrypting with a different, non-empty app id yields no plaintext. */
  lemma DecryptOtherAppId(p: Primitives, aesKey: seq<byte>, iv: seq<byte>,
                          random16: seq<byte>, msg: seq<byte>, appId: seq<byte>, expected: seq<byte>)
    requires Inverse(p, aesKey, iv)
    requires |random16| == 16 && |msg| < UINT32_LIMIT
    requires expected != [] && expected != appId
    ensures Decrypt(p, aesKey, iv, Ciphertext(p, aesKey, iv, random16, msg, appId), expected) == AppIdMismatch
  {
    var plain := CipherPadding(Envelope(random16, msg, appId));
    assert p.fromBase64(p.toBase64(p.cbcEncrypt(aesKey, iv, plain))) == p.cbcEncrypt(aesKey, iv, plain);
    assert p.cbcDecrypt(aesKey, iv, p.cbcEncrypt(aesKey, iv, plain)) == Some(plain);
    DecoderUndoesCipherPadding(Envelope(random16, msg, appId));
    ParseEnvelopeRejectsOtherAppId(random16, msg, appId, expected);
  }

  // ---------------------------------------------------------------- nonce

  /** `MessageCrypto.createNonceStr(length = 16)`: the same algorithm as the
      helper in `Utils`, whose cap `Utils.NONCE_MAX` is the class's `NONCESTR_MAX`. */
  method CreateNonceStr(picks: seq<int>, length: int := 16) returns (str: string)
    requires forall i :: 0 <= i < |picks| ==> 0 <= picks[i] < |Utils.ALPHABET|
    requires |picks| >= Utils.NonceLength(length)
    ensures |str| == Utils.NonceLength(length)
    ensures forall i :: 0 <= i < |str| ==> str[i] == Utils.ALPHABET[picks[i]] && Utils.IsAlphanumeric(str[i])
  {
    str := Utils.CreateNonceStr(picks, length);
  }
}
