/** Callback-message security (src/crypto.rs): the request signature and the
    framing of the encrypted envelope. The framing follows the WeCom
    callback message-encryption layout (16 random bytes, a 4-byte big-endian
    length, the text, the receiver id), sealed with AES-256-GCM. SHA-1
    (FIPS 180-4) with lowercase hex output, base64 (section 4 of RFC 4648),
    UTF-8 and the AEAD cipher are parameters of the model. */
module Crypto {

  import opened Common

  /** Library codecs the module relies on. */
  datatype Codecs = Codecs(
    utf8Encode: string -> seq<byte>,
    utf8Decode: seq<byte> -> Option<string>,
    sha1Hex: seq<byte> -> string,
    base64Encode: seq<byte> -> string,
    base64Decode: string -> Option<seq<byte>>)

  /** An AES-256-GCM instance under one key: sealing can fail (the source
      unwraps it), opening fails on a wrong key, nonce or tag. */
  datatype Cipher = Cipher(
    seal: (seq<byte>, seq<byte>) -> Option<seq<byte>>,
    open: (seq<byte>, seq<byte>) -> Option<seq<byte>>)

  /** Length in bytes of an AES-GCM nonce. */
  const NONCE_LEN: nat := 12
  /** Length in bytes of an AES-256 key. */
  const KEY_LEN: nat := 32
  /** Length of the random prefix of a block. */
  const RANDOM_LEN: nat := 16
  /** Offset of the text in a block: the random prefix and the length. */
  const HEADER_LEN: nat := 20

  // ---------------------------------------------------------------------
  // Signature

  /** Lexicographic order on strings (Rust's `Ord for str`: byte order of
      the UTF-8 encoding, which is code-point order). */
  predicate LexLe(a: string, b: string)
  {
    if a == [] then true
    else if b == [] then false
    else if a[0] != b[0] then a[0] < b[0]
    else LexLe(a[1..], b[1..])
  }

  lemma {:induction false} LexLeTotal(a: string, b: string)
    ensures LexLe(a, b) || LexLe(b, a)
  {
    if a != [] && b != [] && a[0] == b[0] {
      LexLeTotal(a[1..], b[1..]);
    }
  }

  lemma {:induction false} LexLeReflexive(a: string)
    ensures LexLe(a, a)
  {
    if a != [] {
      LexLeReflexive(a[1..]);
    }
  }

  lemma {:induction false} LexLeAntisymmetric(a: string, b: string)
    requires LexLe(a, b) && LexLe(b, a)
    ensures a == b
  {
    if a != [] && b != [] {
      LexLeAntisymmetric(a[1..], b[1..]);
      assert a == [a[0]] + a[1..] && b == [b[0]] + b[1..];
    }
  }

  lemma {:induction false} LexLeTransitive(a: string, b: string, c: string)
    requires LexLe(a, b) && LexLe(b, c)
    ensures LexLe(a, c)
  {
    if a != [] && b != [] && c != [] && a[0] == b[0] && b[0] == c[0] {
      LexLeTransitive(a[1..], b[1..], c[1..]);
    }
  }

  predicate SortedStrings(s: seq<string>)
  {
    forall i, j :: 0 <= i < j < |s| ==> LexLe(s[i], s[j])
  }

  function InsertString(x: string, s: seq<string>): (r: seq<string>)
    ensures |r| == |s| + 1
    ensures multiset(r) == multiset(s) + multiset{x}
  {
    if s == [] then [x]
    else if LexLe(x, s[0]) then [x] + s
    else
      assert s == [s[0]] + s[1..];
      [s[0]] + InsertString(x, s[1..])
  }

  lemma {:induction false} InsertStringSorted(x: string, s: seq<string>)
    requires SortedStrings(s)
    ensures SortedStrings(InsertString(x, s))
  {
    if s == [] {
    } else if LexLe(x, s[0]) {
      forall j | 1 < j < |s| + 1 ensures LexLe(x, ([x] + s)[j]) {
        assert LexLe(s[0], s[j - 1]);
        LexLeTransitive(x, s[0], s[j - 1]);
      }
    } else {
      LexLeTotal(x, s[0]);
      InsertStringSorted(x, s[1..]);
      var rest := InsertString(x, s[1..]);
      forall j | 0 <= j < |rest| ensures LexLe(s[0], rest[j]) {
        assert rest[j] in multiset(s[1..]) + multiset{x};
        if rest[j] != x {
          assert rest[j] in s[1..];
        }
      }
    }
  }

  /** `sort_unstable` on the four inputs. Equal strings are identical, so
      stability does not matter: the result is the one sorted arrangement. */
  function SortStrings(s: seq<string>): (r: seq<string>)
    ensures |r| == |s|
  {
    if s == [] then [] else InsertString(s[0], SortStrings(s[1..]))
  }

  /** Sorting yields a sorted permutation of its input. */
  lemma {:induction false} SortStringsCorrect(s: seq<string>)
    ensures SortedStrings(SortStrings(s))
    ensures multiset(SortStrings(s)) == multiset(s)
  {
    if s != [] {
      SortStringsCorrect(s[1..]);
      InsertStringSorted(s[0], SortStrings(s[1..]));
      assert s == [s[0]] + s[1..];
    }
  }

  /** The head of a sorted sequence is below everything in it. */
  lemma SortedHeadLeast(x: seq<string>, e: string)
    requires SortedStrings(x) && e in multiset(x)
    ensures LexLe(x[0], e)
  {
    var i :| 0 <= i < |x| && x[i] == e;
    if i == 0 { LexLeReflexive(e); }
  }

  /** Two sorted arrangements of one multiset start with the same string. */
  lemma SameHeads(x: seq<string>, y: seq<string>)
    requires SortedStrings(x) && SortedStrings(y) && x != [] && y != []
    requires multiset(x) == multiset(y)
    ensures x[0] == y[0]
  {
    assert x[0] in multiset(y) && y[0] in multiset(x);
    SortedHeadLeast(x, y[0]);
    SortedHeadLeast(y, x[0]);
    LexLeAntisymmetric(x[0], y[0]);
  }

  lemma SortedTail(x: seq<string>)
    requires SortedStrings(x) && x != []
    ensures SortedStrings(x[1..])
  {
    forall i, j | 0 <= i < j < |x| - 1 ensures LexLe(x[1..][i], x[1..][j]) {
      assert x[1..][i] == x[i + 1] && x[1..][j] == x[j + 1];
    }
  }

  lemma MultisetTail(x: seq<string>)
    requires x != []
    ensures multiset(x[1..]) == multiset(x) - multiset{x[0]}
  {
    assert x == [x[0]] + x[1..];
  }

  /** There is only one sorted arrangement of a multiset of strings. */
  lemma {:induction false} SortedUnique(x: seq<string>, y: seq<string>)
    requires SortedStrings(x) && SortedStrings(y)
    requires multiset(x) == multiset(y)
    ensures x == y
  {
    if x != [] && y != [] {
      SameHeads(x, y);
      SortedTail(x);
      SortedTail(y);
      MultisetTail(x);
      MultisetTail(y);
      SortedUnique(x[1..], y[1..]);
      assert x == [x[0]] + x[1..] && y == [y[0]] + y[1..];
    } else if x == [] {
      assert |multiset(y)| == |y|;
    } else {
      assert |multiset(x)| == |x|;
    }
  }

  function Concat(parts: seq<string>): string
  {
    if parts == [] then "" else parts[0] + Concat(parts[1..])
  }

  /** The expected signature of some inputs: lowercase hex SHA-1 of their
      sorted concatenation. */
  function SignatureOf(c: Codecs, parts: seq<string>): string
  {
    c.sha1Hex(c.utf8Encode(Concat(SortStrings(parts))))
  }

  /** `check_signature`. */
  function CheckSignature(c: Codecs, signature: string, timestamp: string, nonce: string,
                          token: string, msg: string): bool
  {
    signature == SignatureOf(c, [timestamp, nonce, token, msg])
  }

  /** The signature is checked against the digest of the inputs in
      lexicographic order, whichever sorted arrangement one names. */
  lemma CheckSignatureSorted(c: Codecs, signature: string, timestamp: string, nonce: string,
                             token: string, msg: string, sorted: seq<string>)
    requires SortedStrings(sorted) && multiset(sorted) == multiset([timestamp, nonce, token, msg])
    ensures CheckSignature(c, signature, timestamp, nonce, token, msg)
        <==> signature == c.sha1Hex(c.utf8Encode(Concat(sorted)))
  {
    SortStringsCorrect([timestamp, nonce, token, msg]);
    SortedUnique(sorted, SortStrings([timestamp, nonce, token, msg]));
  }

  /** The verdict does not depend on the order of the four inputs. */
  lemma SignaturePermutationInvariant(c: Codecs, signature: string, a: seq<string>, b: seq<string>)
    requires |a| == 4 && multiset(a) == multiset(b)
    ensures |b| == 4
    ensures CheckSignature(c, signature, a[0], a[1], a[2], a[3])
         == CheckSignature(c, signature, b[0], b[1], b[2], b[3])
  {
    SortFour(a, b);
  }

  lemma SortFour(a: seq<string>, b: seq<string>)
    requires |a| == 4 && multiset(a) == multiset(b)
    ensures |b| == 4
    ensures SortStrings([a[0], a[1], a[2], a[3]]) == SortStrings([b[0], b[1], b[2], b[3]])
  {
    SameLength(a, b);
    assert [a[0], a[1], a[2], a[3]] == a && [b[0], b[1], b[2], b[3]] == b;
    SortPermutationInvariant(a, b);
  }

  lemma SameLength(a: seq<string>, b: seq<string>)
    requires multiset(a) == multiset(b)
    ensures |a| == |b|
  {
    assert |multiset(a)| == |a| && |multiset(b)| == |b|;
  }

  /** Sorting forgets the order of its input. */
  lemma SortPermutationInvariant(a: seq<string>, b: seq<string>)
    requires multiset(a) == multiset(b)
    ensures SortStrings(a) == SortStrings(b)
  {
    SortStringsCorrect(a);
    SortStringsCorrect(b);
    SortedUnique(SortStrings(a), SortStrings(b));
  }

  /** For the inputs "0", "c", "a", "b" the digest is taken over "0abc". */
  lemma SignatureInputExample(c: Codecs)
    ensures SignatureOf(c, ["0", "c", "a", "b"]) == c.sha1Hex(c.utf8Encode("0abc"))
  {
    SortExample();
    ConcatExample();
  }

  /** The sorted inputs of the signature test concatenate to "0abc". */
  lemma ConcatExample()
    ensures Concat(["0", "a", "b", "c"]) == "0abc"
  {
    var e: seq<string> := [];
    assert Concat(e) == "";
    assert Concat(["c"]) == "c" + Concat(e);
    assert Concat(["b", "c"]) == "b" + Concat(["c"]);
    assert Concat(["a", "b", "c"]) == "a" + Concat(["b", "c"]);
    assert Concat(["0", "a", "b", "c"]) == "0" + Concat(["a", "b", "c"]);
  }

  /** The inputs of the signature test sort to "0", "a", "b", "c": each
      insertion step of the sort, innermost first. */
  lemma SortExample()
    ensures SortStrings(["0", "c", "a", "b"]) == ["0", "a", "b", "c"]
  {
    assert ["0", "c", "a", "b"][1..] == ["c", "a", "b"];
    assert ["c", "a", "b"][1..] == ["a", "b"];
    assert ["a", "b"][1..] == ["b"];
    assert ["b"][1..] == [];
    assert LexLe("a", "b");
    assert SortStrings(["a", "b"]) == ["a", "b"];
    assert !LexLe("c", "a") && !LexLe("c", "b");
    assert InsertString("c", ["b"]) == ["b", "c"];
    assert InsertString("c", ["a", "b"]) == ["a", "b", "c"];
    assert SortStrings(["c", "a", "b"]) == ["a", "b", "c"];
    assert LexLe("0", "a");
    assert InsertString("0", ["a", "b", "c"]) == ["0", "a", "b", "c"];
  }

  // ---------------------------------------------------------------------
  // Envelope framing

  datatype CryptoSource = CryptoSource(text: string, receiveId: string)

  /** 256 to the power k. */
  function Pow256(k: nat): (p: nat)
    ensures p > 0
  {
    if k == 0 then 1 else 256 * Pow256(k - 1)
  }

  /** The k low base-256 digits of n, most significant first. */
  function ToBigEndian(n: nat, k: nat): (b: seq<byte>)
    ensures |b| == k
  {
    if k == 0 then [] else ToBigEndian(n / 256, k - 1) + [(n % 256) as byte]
  }

  /** The number whose base-256 digits, most significant first, are b. */
  function FromBigEndian(b: seq<byte>): (n: nat)
    ensures n < Pow256(|b|)
  {
    if b == [] then 0 else FromBigEndian(b[..|b| - 1]) * 256 + b[|b| - 1] as nat
  }

  lemma {:induction false} ToBigEndianRoundTrip(n: nat, k: nat)
    requires n < Pow256(k)
    ensures FromBigEndian(ToBigEndian(n, k)) == n
  {
    if k > 0 {
      var b := ToBigEndian(n, k);
      assert b[..k - 1] == ToBigEndian(n / 256, k - 1);
      ToBigEndianRoundTrip(n / 256, k - 1);
    }
  }

  lemma {:induction false} FromBigEndianRoundTrip(b: seq<byte>)
    ensures ToBigEndian(FromBigEndian(b), |b|) == b
  {
    if b != [] {
      var m := FromBigEndian(b[..|b| - 1]);
      var d := b[|b| - 1] as nat;
      assert (m * 256 + d) / 256 == m && (m * 256 + d) % 256 == d;
      FromBigEndianRoundTrip(b[..|b| - 1]);
      assert b == b[..|b| - 1] + [b[|b| - 1]];
    }
  }

  /** `u32::to_be_bytes`. */
  function BigEndian32(n: nat): (b: seq<byte>)
    requires n < TWO_32
    ensures |b| == 4
  {
    ToBigEndian(n, 4)
  }

  /** `u32::from_be_bytes`. */
  function FromBigEndian32(b: seq<byte>): (n: nat)
    requires |b| == 4
    ensures n < TWO_32
  {
    assert Pow256(4) == TWO_32;
    FromBigEndian(b)
  }

  lemma BigEndian32RoundTrip(n: nat)
    requires n < TWO_32
    ensures FromBigEndian32(BigEndian32(n)) == n
  {
    assert Pow256(4) == TWO_32;
    ToBigEndianRoundTrip(n, 4);
  }

  lemma FromBigEndian32RoundTrip(b: seq<byte>)
    requires |b| == 4
    ensures BigEndian32(FromBigEndian32(b)) == b
  {
    FromBigEndianRoundTrip(b);
  }

  /** The plaintext block of `encrypt`. */
  function Block(random: seq<byte>, text: seq<byte>, receiveId: seq<byte>): seq<byte>
    requires |random| == RANDOM_LEN
  {
    random + BigEndian32(AsU32(|text|)) + text + receiveId
  }

  /** The block's layout: the random prefix, the length field, the text and
      the receiver id at fixed offsets. */
  lemma BlockLayout(random: seq<byte>, text: seq<byte>, receiveId: seq<byte>)
    requires |random| == RANDOM_LEN
    ensures var b := Block(random, text, receiveId);
      && |b| == HEADER_LEN + |text| + |receiveId|
      && b[..RANDOM_LEN] == random
      && b[RANDOM_LEN..HEADER_LEN] == BigEndian32(AsU32(|text|))
      && b[HEADER_LEN..HEADER_LEN + |text|] == text
      && b[HEADER_LEN + |text|..] == receiveId
  {
  }

  datatype DecryptError = Base64Error | Utf8Error

  /** `decrypt`: decode both base64 strings, open the block (the unwrap
      panics on a failed open), read the length at bytes 16..20 and split
      the rest. A nonce that is not 12 bytes long, or a block too short for
      its header or its text, panics. */
  function Decrypt(c: Codecs, cipher: Cipher, encoded: string, nonce: string)
    : (r: Fallible<Result<CryptoSource, DecryptError>>)
    ensures c.base64Decode(encoded).None? || c.base64Decode(nonce).None? ==> r == Returns(Err(Base64Error))
    ensures r == Returns(Err(Base64Error)) ==> c.base64Decode(encoded).None? || c.base64Decode(nonce).None?
    ensures c.base64Decode(encoded).Some? && c.base64Decode(nonce).Some? ==>
      var sealed, nonceBytes := c.base64Decode(encoded).value, c.base64Decode(nonce).value;
      && (|nonceBytes| != NONCE_LEN ==> r.Panics?)
      && (|nonceBytes| == NONCE_LEN && cipher.open(nonceBytes, sealed).None? ==> r.Panics?)
      && (|nonceBytes| == NONCE_LEN && cipher.open(nonceBytes, sealed).Some? ==>
            r == ParseBlock(c, cipher.open(nonceBytes, sealed).value))
  {
    match c.base64Decode(encoded)
    case None => Returns(Err(Base64Error))
    case Some(sealed) =>
      match c.base64Decode(nonce)
      case None => Returns(Err(Base64Error))
      case Some(nonceBytes) =>
        if |nonceBytes| != NONCE_LEN then Panics
        else
          match cipher.open(nonceBytes, sealed)
          case None => Panics
          case Some(block) => ParseBlock(c, block)
  }

  /** The slicing half of `decrypt`. */
  function ParseBlock(c: Codecs, block: seq<byte>): (r: Fallible<Result<CryptoSource, DecryptError>>)
    ensures r.Panics? <==>
      |block| < HEADER_LEN || HEADER_LEN + FromBigEndian32(block[RANDOM_LEN..HEADER_LEN]) > |block|
    ensures r.Returns? && r.value.Ok? ==>
      var n := FromBigEndian32(block[RANDOM_LEN..HEADER_LEN]);
      c.utf8Decode(block[HEADER_LEN..HEADER_LEN + n]) == Some(r.value.value.text) &&
      c.utf8Decode(block[HEADER_LEN + n..]) == Some(r.value.value.receiveId)
    ensures r.Returns? ==>
      var n := FromBigEndian32(block[RANDOM_LEN..HEADER_LEN]);
      (r.value.Ok? <==>
         c.utf8Decode(block[HEADER_LEN..HEADER_LEN + n]).Some? && c.utf8Decode(block[HEADER_LEN + n..]).Some?)
    ensures r.Returns? && r.value.Err? ==> r.value.error == Utf8Error
  {
    if |block| < HEADER_LEN then Panics
    else
      var n := FromBigEndian32(block[RANDOM_LEN..HEADER_LEN]);
      if HEADER_LEN + n > |block| then Panics
      else
        match c.utf8Decode(block[HEADER_LEN..HEADER_LEN + n])
        case None => Returns(Err(Utf8Error))
        case Some(text) =>
          match c.utf8Decode(block[HEADER_LEN + n..])
          case None => Returns(Err(Utf8Error))
          case Some(receiveId) => Returns(Ok(CryptoSource(text, receiveId)))
  }

  /** Framing and parsing are inverse when the text is shorter than 2^32
      bytes and UTF-8 decoding inverts encoding. */
  lemma ParseBlockRoundTrip(c: Codecs, random: seq<byte>, src: CryptoSource)
    requires |random| == RANDOM_LEN
    requires |c.utf8Encode(src.text)| < TWO_32
    requires c.utf8Decode(c.utf8Encode(src.text)) == Some(src.text)
    requires c.utf8Decode(c.utf8Encode(src.receiveId)) == Some(src.receiveId)
    ensures ParseBlock(c, Block(random, c.utf8Encode(src.text), c.utf8Encode(src.receiveId)))
         == Returns(Ok(src))
  {
    var text, rid := c.utf8Encode(src.text), c.utf8Encode(src.receiveId);
    BlockLayout(random, text, rid);
    BigEndian32RoundTrip(|text|);
  }

  /** With a text of 2^32 bytes or more the length field wraps, and the
      parsed text is cut short. */
  lemma LongTextLengthWraps(random: seq<byte>, text: seq<byte>, receiveId: seq<byte>)
    requires |random| == RANDOM_LEN && |text| >= TWO_32
    ensures var b := Block(random, text, receiveId);
      FromBigEndian32(b[RANDOM_LEN..HEADER_LEN]) == |text| % TWO_32 < |text|
  {
    BlockLayout(random, text, receiveId);
    BigEndian32RoundTrip(AsU32(|text|));
  }

  /** `encrypt`: build the block by successive appends, seal it under a
      fresh nonce and base64-encode the sealed block and the nonce. The
      random prefix and the nonce are parameters; a failed seal panics. */
  method Encrypt(c: Codecs, cipher: Cipher, input: CryptoSource, random: seq<byte>, nonce: seq<byte>)
    returns (r: Fallible<(string, string)>)
    requires |random| == RANDOM_LEN
    ensures var block := Block(random, c.utf8Encode(input.text), c.utf8Encode(input.receiveId));
      && (cipher.seal(nonce, block).None? ==> r.Panics?)
      && (cipher.seal(nonce, block).Some? ==>
            r == Returns((c.base64Encode(cipher.seal(nonce, block).value), c.base64Encode(nonce))))
  {
    var block: seq<byte> := [];
    block := block + random;
    var text := c.utf8Encode(input.text);
    block := block + BigEndian32(AsU32(|text|));
    block := block + text;
    block := block + c.utf8Encode(input.receiveId);
    assert block == Block(random, text, c.utf8Encode(input.receiveId));
    var sealed := cipher.seal(nonce, block);
    if sealed.None? {
      return Panics;
    }
    r := Returns((c.base64Encode(sealed.value), c.base64Encode(nonce)));
  }

  /** The codecs invert each other and the cipher opens what it sealed. */
  ghost predicate Coherent(c: Codecs, cipher: Cipher)
  {
    && (forall b :: c.base64Decode(c.base64Encode(b)) == Some(b))
    && (forall s :: c.utf8Decode(c.utf8Encode(s)) == Some(s))
    && (forall n, p :: cipher.seal(n, p).Some? ==> cipher.open(n, cipher.seal(n, p).value) == Some(p))
  }

  /** `decrypt(encrypt(s)) == s` for a text shorter than 2^32 bytes, a
      12-byte nonce and coherent primitives. */
  lemma EncryptDecryptRoundTrip(c: Codecs, cipher: Cipher, src: CryptoSource,
                                random: seq<byte>, nonce: seq<byte>, sealed: seq<byte>)
    requires Coherent(c, cipher)
    requires |random| == RANDOM_LEN && |nonce| == NONCE_LEN
    requires |c.utf8Encode(src.text)| < TWO_32
    requires cipher.seal(nonce, Block(random, c.utf8Encode(src.text), c.utf8Encode(src.receiveId)))
             == Some(sealed)
    ensures Decrypt(c, cipher, c.base64Encode(sealed), c.base64Encode(nonce)) == Returns(Ok(src))
  {
    var block := Block(random, c.utf8Encode(src.text), c.utf8Encode(src.receiveId));
    assert c.base64Decode(c.base64Encode(sealed)) == Some(sealed);
    assert c.base64Decode(c.base64Encode(nonce)) == Some(nonce);
    assert cipher.open(nonce, sealed) == Some(block);
    ParseBlockRoundTrip(c, random, src);
  }

  /** `CryptoAgent::new`: the key's UTF-8 bytes must be exactly 32 long
      (`Key::from_slice` panics otherwise). */
  function NewCipher(c: Codecs, key: string, aes: seq<byte> -> Cipher): (r: Fallible<Cipher>)
    ensures r.Returns? <==> |c.utf8Encode(key)| == KEY_LEN
  {
    if |c.utf8Encode(key)| == KEY_LEN then Returns(aes(c.utf8Encode(key))) else Panics
  }
}
