/**
 * The payload cipher of the Go client (packages/sekai-cron/crypt.go): PKCS#7 padding
 * (section 6.3 of RFC 5652) around AES in CBC mode (section 6.2 of NIST SP 800-38A).
 *
 * AES itself is not modelled: it is an abstract keyed block permutation. The CBC chaining
 * that Go's `cipher.NewCBCEncrypter`/`NewCBCDecrypter` perform over it is modelled, so that
 * the round trip `decrypt(encrypt(x)) == x` is proved from the block cipher's invertibility.
 * Every Go panic on this path (`newCipher`, the CBC constructors, `CryptBlocks`, the index and
 * the slice in `decrypt`) is an `Err` value naming the panic.
 */
module GoCrypt {
  import opened Common

  const BlockSize: nat := 16

  type Block = s: seq<bv8> | |s| == BlockSize witness seq(16, _ => 0 as bv8)

  /** AES as an abstract keyed block permutation (`crypto/aes`). */
  datatype Aes = Aes(encryptBlock: (seq<bv8>, Block) -> Block, decryptBlock: (seq<bv8>, Block) -> Block)

  /** Under every valid key, decrypting an encrypted block gives the block back. */
  ghost predicate Invertible(aes: Aes)
  {
    forall key: seq<bv8>, b: Block :: ValidKeyLength(|key|) ==> aes.decryptBlock(key, aes.encryptBlock(key, b)) == b
  }

  /** The key lengths `aes.NewCipher` accepts: AES-128, AES-192 and AES-256. */
  predicate ValidKeyLength(n: nat)
  {
    n == 16 || n == 24 || n == 32
  }

  /** The fields of Go's `Crypt`. `jwt` is carried but not used by this file. */
  datatype Crypt = Crypt(key: seq<bv8>, iv: seq<bv8>, jwt: seq<bv8>)

  /** The runtime panics of the cipher path. */
  datatype CryptPanic =
    | KeySizeError(size: nat)       // aes.NewCipher rejects the key; newCipher panics with it
    | IvLengthError(size: nat)      // cipher.NewCBC* panics: IV length must equal block size
    | InputNotFullBlocks            // CryptBlocks panics on a ciphertext that is not whole blocks
    | IndexOutOfRange               // plaintext[len(plaintext)-1] on an empty plaintext
    | SliceBoundsOutOfRange         // plaintext[:len(plaintext)-paddingSize] with paddingSize > len

  /** `newCipher`: the block cipher for the key, or the panic. The cipher is identified by its key. */
  function NewCipher(c: Crypt): (r: Result<seq<bv8>, CryptPanic>)
    ensures r.Ok? <==> ValidKeyLength(|c.key|)
    ensures r.Ok? ==> r.value == c.key
    ensures r.Err? ==> r.error == KeySizeError(|c.key|)
  {
    if ValidKeyLength(|c.key|) then Ok(c.key) else Err(KeySizeError(|c.key|))
  }

  // ---------------------------------------------------------------- padding

  /** `blockSize - len(plaintext) % blockSize`. */
  function PaddingSize(n: nat): (p: nat)
    ensures 1 <= p <= BlockSize
    ensures (n + p) % BlockSize == 0
    ensures n % BlockSize == 0 <==> p == BlockSize
  {
    BlockSize - n % BlockSize
  }

  /** The plaintext with `paddingSize` copies of the byte `paddingSize` appended. */
  function Pad(plaintext: seq<bv8>): (r: seq<bv8>)
    ensures |r| == |plaintext| + PaddingSize(|plaintext|)
    ensures |r| % BlockSize == 0 && |r| > |plaintext|
    ensures r[..|plaintext|] == plaintext
    ensures forall i :: |plaintext| <= i < |r| ==> r[i] == PaddingSize(|plaintext|) as bv8
  {
    var p := PaddingSize(|plaintext|);
    plaintext + seq(p, _ => p as bv8)
  }

  /**
   * The unpadding step of `decrypt`: drop as many bytes as the last byte says. The padding
   * bytes themselves are never checked; an empty plaintext or a last byte larger than the
   * length panics.
   */
  function Unpad(plaintext: seq<bv8>): (r: Result<seq<bv8>, CryptPanic>)
    ensures |plaintext| == 0 ==> r == Err(IndexOutOfRange)
    ensures |plaintext| > 0 && plaintext[|plaintext| - 1] as int > |plaintext| ==> r == Err(SliceBoundsOutOfRange)
    ensures r.Ok? <==> |plaintext| > 0 && plaintext[|plaintext| - 1] as int <= |plaintext|
    ensures r.Ok? ==> r.value <= plaintext && |plaintext| - |r.value| == plaintext[|plaintext| - 1] as int
  {
    if |plaintext| == 0 then Err(IndexOutOfRange)
    else
      var paddingSize := plaintext[|plaintext| - 1] as int;
      if paddingSize > |plaintext| then Err(SliceBoundsOutOfRange)
      else Ok(plaintext[..|plaintext| - paddingSize])
  }

  /** Unpadding removes exactly what padding added. */
  lemma UnpadPad(x: seq<bv8>)
    ensures Unpad(Pad(x)) == Ok(x)
  {
    var padded := Pad(x);
    assert padded[|padded| - 1] == PaddingSize(|x|) as bv8;
    assert padded[..|x|] == x;
  }

  // ---------------------------------------------------------------- CBC mode

  function XorBlock(a: Block, b: Block): (r: Block)
    ensures forall i :: 0 <= i < BlockSize ==> r[i] == a[i] ^ b[i]
  {
    seq(BlockSize, i requires 0 <= i < BlockSize => a[i] ^ b[i])
  }

  lemma XorBlockCancel(a: Block, b: Block)
    ensures XorBlock(XorBlock(a, b), b) == a
  {
    var r := XorBlock(XorBlock(a, b), b);
    forall i | 0 <= i < BlockSize ensures r[i] == a[i] {
      assert (a[i] ^ b[i]) ^ b[i] == a[i];
    }
  }

  lemma BlockSplit(s: seq<bv8>)
    requires |s| % BlockSize == 0 && |s| > 0
    ensures |s| >= BlockSize && (|s| - BlockSize) % BlockSize == 0
  {
  }

  /** CBC encryption: C1 = E(P1 xor IV) and Cj = E(Pj xor C(j-1)). */
  function CbcEncrypt(aes: Aes, key: seq<bv8>, iv: Block, p: seq<bv8>): (c: seq<bv8>)
    requires |p| % BlockSize == 0
    ensures |c| == |p|
    decreases |p|
  {
    if |p| == 0 then []
    else
      BlockSplit(p);
      var c0 := aes.encryptBlock(key, XorBlock(p[..BlockSize], iv));
      c0 + CbcEncrypt(aes, key, c0, p[BlockSize..])
  }

  /** CBC decryption: P1 = D(C1) xor IV and Pj = D(Cj) xor C(j-1). */
  function CbcDecrypt(aes: Aes, key: seq<bv8>, iv: Block, c: seq<bv8>): (p: seq<bv8>)
    requires |c| % BlockSize == 0
    ensures |p| == |c|
    decreases |c|
  {
    if |c| == 0 then []
    else
      BlockSplit(c);
      var c0: Block := c[..BlockSize];
      XorBlock(aes.decryptBlock(key, c0), iv) + CbcDecrypt(aes, key, c0, c[BlockSize..])
  }

  /** CBC decryption undoes CBC encryption under the same key and IV. */
  lemma {:induction false} CbcRoundTrip(aes: Aes, key: seq<bv8>, iv: Block, p: seq<bv8>)
    requires Invertible(aes) && ValidKeyLength(|key|)
    requires |p| % BlockSize == 0
    ensures CbcDecrypt(aes, key, iv, CbcEncrypt(aes, key, iv, p)) == p
    decreases |p|
  {
    if |p| > 0 {
      BlockSplit(p);
      var p0: Block := p[..BlockSize];
      var c0 := aes.encryptBlock(key, XorBlock(p0, iv));
      var rest := CbcEncrypt(aes, key, c0, p[BlockSize..]);
      var c: seq<bv8> := c0 + rest;
      assert CbcEncrypt(aes, key, iv, p) == c;
      assert c[..BlockSize] == c0 && c[BlockSize..] == rest;
      XorBlockCancel(p0, iv);
      CbcRoundTrip(aes, key, c0, p[BlockSize..]);
      assert p == p0 + p[BlockSize..];
    }
  }

  // ---------------------------------------------------------------- encrypt and decrypt

  /** `Crypt.encrypt`: pad, then CBC-encrypt under the key and IV; panics on a bad key or IV. */
  function Encrypt(c: Crypt, aes: Aes, plaintext: seq<bv8>): (r: Result<seq<bv8>, CryptPanic>)
    ensures r.Ok? <==> ValidKeyLength(|c.key|) && |c.iv| == BlockSize
    ensures !ValidKeyLength(|c.key|) ==> r == Err(KeySizeError(|c.key|))
    ensures r.Ok? ==> |r.value| == |plaintext| + PaddingSize(|plaintext|)
    ensures r.Ok? ==> |r.value| % BlockSize == 0 && |r.value| > |plaintext|
  {
    var padded := Pad(plaintext);
    match NewCipher(c)
    case Err(e) => Err(e)
    case Ok(key) =>
      if |c.iv| != BlockSize then Err(IvLengthError(|c.iv|))
      else Ok(CbcEncrypt(aes, key, c.iv, padded))
  }

  /** `Crypt.decrypt`: CBC-decrypt, then drop `plaintext[last]` bytes without checking them. */
  function Decrypt(c: Crypt, aes: Aes, ciphertext: seq<bv8>): (r: Result<seq<bv8>, CryptPanic>)
    ensures r.Ok? ==> |r.value| <= |ciphertext|
    ensures ValidKeyLength(|c.key|) && |c.iv| == BlockSize && |ciphertext| == 0 ==> r == Err(IndexOutOfRange)
    ensures ValidKeyLength(|c.key|) && |c.iv| == BlockSize && |ciphertext| % BlockSize != 0 ==> r == Err(InputNotFullBlocks)
  {
    match NewCipher(c)
    case Err(e) => Err(e)
    case Ok(key) =>
      if |c.iv| != BlockSize then Err(IvLengthError(|c.iv|))
      else if |ciphertext| % BlockSize != 0 then Err(InputNotFullBlocks)
      else Unpad(CbcDecrypt(aes, key, c.iv, ciphertext))
  }

  /**
   * What `decrypt` silently requires of its input, stated explicitly: a valid key and IV, a
   * non-empty whole-block ciphertext, and a last plaintext byte no larger than the length.
   * Nothing else is checked: the result is the CBC plaintext shortened by its last byte.
   */
  lemma DecryptSucceedsIff(c: Crypt, aes: Aes, ciphertext: seq<bv8>)
    ensures Decrypt(c, aes, ciphertext).Ok? <==>
      && ValidKeyLength(|c.key|) && |c.iv| == BlockSize
      && |ciphertext| > 0 && |ciphertext| % BlockSize == 0
      && CbcDecrypt(aes, c.key, c.iv, ciphertext)[|ciphertext| - 1] as int <= |ciphertext|
    ensures Decrypt(c, aes, ciphertext).Ok? ==>
      var plain := CbcDecrypt(aes, c.key, c.iv, ciphertext);
      Decrypt(c, aes, ciphertext).value == plain[..|plain| - plain[|plain| - 1] as int]
  {
  }

  /** The round trip of the payload cipher: decrypting what `encrypt` produced gives the plaintext back. */
  lemma DecryptEncrypt(c: Crypt, aes: Aes, x: seq<bv8>)
    requires Invertible(aes)
    requires Encrypt(c, aes, x).Ok?
    ensures Decrypt(c, aes, Encrypt(c, aes, x).value) == Ok(x)
  {
    var padded := Pad(x);
    CbcRoundTrip(aes, c.key, c.iv, padded);
    UnpadPad(x);
  }

  /** The identity block "cipher", used only to exhibit what `decrypt` lets through. */
  function IdentityAes(): Aes
  {
    Aes((k: seq<bv8>, b: Block) => b, (k: seq<bv8>, b: Block) => b)
  }

  /**
   * The padding bytes are never checked: a block whose last byte is 2 but whose byte before
   * it is 7 (not valid PKCS#7) still decrypts, to its first 14 bytes.
   */
  lemma DecryptIgnoresPaddingBytes()
    ensures
      var c := Crypt(seq(16, _ => 0 as bv8), seq(16, _ => 0 as bv8), []);
      var block := seq(14, _ => 0 as bv8) + [7 as bv8, 2 as bv8];
      Decrypt(c, IdentityAes(), block) == Ok(seq(14, _ => 0 as bv8))
  {
    var iv: Block := seq(16, _ => 0 as bv8);
    var block: Block := seq(14, _ => 0 as bv8) + [7 as bv8, 2 as bv8];
    var aes := IdentityAes();
    var plain := CbcDecrypt(aes, iv, iv, block);
    assert block[..BlockSize] == block;
    assert CbcDecrypt(aes, iv, block, block[BlockSize..]) == [];
    assert plain == XorBlock(block, iv);
    assert plain[15] == 2;
    assert plain[..14] == seq(14, _ => 0 as bv8);
  }
}
