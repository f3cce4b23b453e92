/**
 * The token codec and key handling: where the signing key pair comes
 * from, how token decoding failures are classified, and how a cache key
 * is cut out of a digest.  The cryptography itself (key generation, PEM
 * parsing, signing, verification, hashing) is supplied as parameters.
 */
module Secure {
  import opened Wrappers
  import opened Strings
  import opened Types
  import opened Utils

  datatype Algorithm = HS256 | HS384 | HS512 | RS256 | RS384 | RS512 | ES256 | ES384 | PS256 | PS384 | PS512 | EdDSA

  /** The algorithm of the process-wide key pair. */
  const PROCESS_ALGORITHM: Algorithm := RS256

  const PRIVATE_KEY_FILE: string := "private.pem"
  const PUBLIC_KEY_FILE: string := "public.pem"

  /** `format!("{}/{}", dir, file)`. */
  function KeyPath(dir: string, file: string): string
  {
    dir + "/" + file
  }

  /** The two key files never share a path. */
  lemma KeyPathsDistinct(dir: string)
    ensures KeyPath(dir, PRIVATE_KEY_FILE) != KeyPath(dir, PUBLIC_KEY_FILE)
  {
    assert |KeyPath(dir, PRIVATE_KEY_FILE)| != |KeyPath(dir, PUBLIC_KEY_FILE)|;
  }

  /** The files the server can see, by path. */
  class FileSystem {
    var files: map<string, seq<bv8>>

    constructor (initial: map<string, seq<bv8>>)
      ensures files == initial
    {
      files := initial;
    }

    /** `File::create(path)?.write_all(content)`. */
    method Write(path: string, content: seq<bv8>)
      modifies this
      ensures files == old(files)[path := content]
    {
      files := files[path := content];
    }
  }

  /** A signing key pair, each key kept as its PEM text. */
  datatype KeyPair = KeyPair(privatePem: seq<bv8>, publicPem: seq<bv8>, algorithm: Algorithm)

  /** A freshly generated 2048-bit RSA pair, as PEM texts. */
  datatype GeneratedPair = GeneratedPair(privatePem: seq<bv8>, publicPem: seq<bv8>)

  datatype KeyError = InvalidPem

  /**
   * `KeyPair::new`: when either key file is missing, one generated pair is
   * written to both files and both keys are taken from it; otherwise both
   * keys are read from their files and nothing is written.  A key that
   * does not parse as PEM is an error.
   */
  method NewKeyPair(fs: FileSystem, dir: string, algorithm: Algorithm, generated: GeneratedPair, parses: seq<bv8> -> bool)
    returns (r: Result<KeyPair, KeyError>)
    modifies fs
    ensures var priv, pub := KeyPath(dir, PRIVATE_KEY_FILE), KeyPath(dir, PUBLIC_KEY_FILE);
      if priv !in old(fs.files) || pub !in old(fs.files) then
        && fs.files == old(fs.files)[priv := generated.privatePem][pub := generated.publicPem]
        && fs.files[priv] == generated.privatePem && fs.files[pub] == generated.publicPem
        && (r.Ok? <==> parses(generated.privatePem) && parses(generated.publicPem))
        && (r.Ok? ==> r.value == KeyPair(generated.privatePem, generated.publicPem, algorithm))
      else
        && fs.files == old(fs.files)
        && (r.Ok? <==> parses(old(fs.files)[priv]) && parses(old(fs.files)[pub]))
        && (r.Ok? ==> r.value == KeyPair(old(fs.files)[priv], old(fs.files)[pub], algorithm))
  {
    var privatePath := KeyPath(dir, PRIVATE_KEY_FILE);
    var publicPath := KeyPath(dir, PUBLIC_KEY_FILE);
    KeyPathsDistinct(dir);
    var privateKey: Option<seq<bv8>> := None;
    var publicKey: Option<seq<bv8>> := None;
    if privatePath !in fs.files || publicPath !in fs.files {
      fs.Write(privatePath, generated.privatePem);
      fs.Write(publicPath, generated.publicPem);
      if !parses(generated.privatePem) || !parses(generated.publicPem) {
        return Err(InvalidPem);
      }
      privateKey := Some(generated.privatePem);
      publicKey := Some(generated.publicPem);
    } else {
      var privatePem := fs.files[privatePath];
      var publicPem := fs.files[publicPath];
      if !parses(privatePem) || !parses(publicPem) {
        return Err(InvalidPem);
      }
      privateKey := Some(privatePem);
      publicKey := Some(publicPem);
    }
    r := Ok(KeyPair(privateKey.value, publicKey.value, algorithm));
  }

  // ---------------------------------------------------------------------
  // Tokens

  /** The failure kinds of the JWT library. */
  datatype ErrorKind =
    | InvalidToken
    | InvalidSignature
    | InvalidEcdsaKey
    | InvalidRsaKey
    | InvalidAlgorithmName
    | InvalidKeyFormat
    | InvalidIssuer
    | InvalidAudience
    | InvalidSubject
    | ImmatureSignature
    | ExpiredSignature
    | InvalidAlgorithm
    | Base64
    | JsonError
    | Utf8
    | Crypto

  /** How the broker reports a token that does not decode. */
  datatype JWTError = Expired | Invalid

  /** A claim set as the library sees it. */
  type Claims = map<string, Json>

  /** The library's `encode`: header algorithm, claims and private key to a token, or a signing failure. */
  type Encoder = (Algorithm, Claims, seq<bv8>) -> Option<string>

  /** The library's `decode`: token, public key and expected algorithm to the verified claims, or a failure kind. */
  type Decoder = (string, seq<bv8>, Algorithm) -> Result<Claims, ErrorKind>

  /** Only an expired signature is reported as expiry; every other failure is an invalid token. */
  function Classify(kind: ErrorKind): (e: JWTError)
    ensures e == Expired <==> kind == ExpiredSignature
  {
    if kind == ExpiredSignature then Expired else Invalid
  }

  /** `KeyPair::sign_jwt`: signs with the pair's own algorithm and private key. */
  function SignJwt(kp: KeyPair, claims: Claims, encode: Encoder): Option<string>
  {
    encode(kp.algorithm, claims, kp.privatePem)
  }

  /**
   * `KeyPair::decode_jwt`: verifies with the pair's own algorithm and
   * public key, then reads the claims into the expected shape; claims of
   * the wrong shape make the token invalid.
   */
  function DecodeJwt<T>(kp: KeyPair, token: string, decode: Decoder, shape: Claims -> Option<T>): (r: Result<T, JWTError>)
    ensures r == Err(Expired) <==> decode(token, kp.publicPem, kp.algorithm) == Err(ExpiredSignature)
    ensures r.Ok? <==> decode(token, kp.publicPem, kp.algorithm).Ok? && shape(decode(token, kp.publicPem, kp.algorithm).value).Some?
    ensures r.Ok? ==> r.value == shape(decode(token, kp.publicPem, kp.algorithm).value).value
  {
    match decode(token, kp.publicPem, kp.algorithm)
    case Ok(claims) =>
      (match shape(claims)
       case Some(t) => Ok(t)
       case None => Err(Classify(JsonError)))
    case Err(kind) => Err(Classify(kind))
  }

  /** A library whose decode gives back, under the pair's keys, exactly the claims its encode signed. */
  ghost predicate Inverts(kp: KeyPair, encode: Encoder, decode: Decoder)
  {
    forall c: Claims ::
      encode(kp.algorithm, c, kp.privatePem).Some? ==>
        decode(encode(kp.algorithm, c, kp.privatePem).value, kp.publicPem, kp.algorithm) == Ok(c)
  }

  /**
   * For a library whose decode gives back what its encode signed under the
   * same algorithm, a signed phase-1 token decodes to the same claims as a
   * phase-1 token, and is refused where a session token is expected.
   */
  lemma PhaseOneTokenRoundTrip(kp: KeyPair, t: LoginInfoAuthToken, token: string, encode: Encoder, decode: Decoder)
    requires LoginInfoInRange(t)
    requires SignJwt(kp, EncodeLoginInfo(t), encode) == Some(token)
    requires Inverts(kp, encode, decode)
    ensures DecodeJwt(kp, token, decode, DecodeLoginInfo) == Ok(t)
    ensures DecodeJwt(kp, token, decode, DecodeAuthToken) == Err(Invalid)
  {
    assert decode(token, kp.publicPem, kp.algorithm) == Ok(EncodeLoginInfo(t));
    LoginInfoRoundTrip(t);
    ClaimShapesExclusive(t, AuthToken("", "", UserProfileShortValue("", "", "", "", ""), 0, 0));
  }

  /** The same for a session token, which is refused where a phase-1 token is expected. */
  lemma SessionTokenRoundTrip(kp: KeyPair, t: AuthToken, token: string, encode: Encoder, decode: Decoder)
    requires AuthTokenInRange(t)
    requires SignJwt(kp, EncodeAuthToken(t), encode) == Some(token)
    requires Inverts(kp, encode, decode)
    ensures DecodeJwt(kp, token, decode, DecodeAuthToken) == Ok(t)
    ensures DecodeJwt(kp, token, decode, DecodeLoginInfo) == Err(Invalid)
  {
    assert decode(token, kp.publicPem, kp.algorithm) == Ok(EncodeAuthToken(t));
    AuthTokenRoundTrip(t);
    ClaimShapesExclusive(LoginInfoAuthToken("", "", "", false, 0, 0), t);
  }

  // ---------------------------------------------------------------------
  // Cache keys

  /** The UTF-8 encoding of one character. */
  function Utf8Char(c: char): (bytes: seq<bv8>)
    ensures |bytes| == Utf8Width(c)
  {
    var n := c as int;
    if n < 0x80 then [n as bv8]
    else if n < 0x800 then [(0xC0 + n / 0x40) as bv8, (0x80 + n % 0x40) as bv8]
    else if n < 0x1_0000 then [(0xE0 + n / 0x1000) as bv8, (0x80 + n / 0x40 % 0x40) as bv8, (0x80 + n % 0x40) as bv8]
    else [(0xF0 + n / 0x4_0000) as bv8, (0x80 + n / 0x1000 % 0x40) as bv8, (0x80 + n / 0x40 % 0x40) as bv8, (0x80 + n % 0x40) as bv8]
  }

  /** `str::as_bytes`. */
  function Utf8(s: string): (bytes: seq<bv8>)
    ensures |bytes| == ByteLength(s)
  {
    if s == [] then [] else Utf8Char(s[0]) + Utf8(s[1..])
  }

  lemma {:induction false} Utf8Append(a: string, b: string)
    ensures Utf8(a + b) == Utf8(a) + Utf8(b)
    decreases |a|
  {
    if a != [] {
      assert (a + b)[0] == a[0] && (a + b)[1..] == a[1..] + b;
      Utf8Append(a[1..], b);
    } else {
      assert a + b == b;
    }
  }

  /** The bytes hashed for a cache key: the three strings' bytes, back to back, with no separator. */
  function CacheKeyInput(schoolNumber: string, username: string, className: string): seq<bv8>
  {
    Utf8(schoolNumber) + Utf8(username) + Utf8(className)
  }

  /** With no separator, any split of the same text gives the same input, and so the same key. */
  lemma CacheKeyInputAmbiguous(a: string, b: string, c: string, x: string, y: string, z: string)
    requires a + b + c == x + y + z
    ensures CacheKeyInput(a, b, c) == CacheKeyInput(x, y, z)
  {
    Utf8Append(a, b);
    Utf8Append(a + b, c);
    Utf8Append(x, y);
    Utf8Append(x + y, z);
  }

  /** The length of a SHA-512 digest in bytes. */
  const SHA512_LENGTH: nat := 64

  /**
   * `create_cache_key` as written: the lowercased digest is cut at
   * [0, 32), [34, 98) and [81, 113); a digest shorter than 113 bytes makes
   * the slicing panic (None).  The key and the vector share [81, 98).
   */
  function CreateCacheKey(schoolNumber: string, username: string, className: string, sha512: seq<bv8> -> seq<bv8>): (r: Option<CacheKeyData>)
    ensures r.Some? <==> |sha512(CacheKeyInput(schoolNumber, username, className))| >= 113
    ensures r.Some? ==> |r.value.id| == 32 && |r.value.key| == 64 && |r.value.iv| == 32
    ensures r.Some? ==> r.value.key[47..] == r.value.iv[..17]
  {
    var hash := AsciiLowercase(sha512(CacheKeyInput(schoolNumber, username, className)));
    if |hash| < 113 then None
    else Some(CacheKeyData(hash[0..32], hash[34..98], hash[81..113]))
  }

  /** As written, a real SHA-512 digest (64 bytes) is too short, so creating a cache key always panics. */
  lemma CacheKeyAlwaysPanics(schoolNumber: string, username: string, className: string, sha512: seq<bv8> -> seq<bv8>)
    requires |sha512(CacheKeyInput(schoolNumber, username, className))| == SHA512_LENGTH
    ensures CreateCacheKey(schoolNumber, username, className, sha512) == None
  {
  }

  /** The byte of a hex digit. */
  function HexDigitByte(c: char): (b: bv8)
    requires IsLowerHex(c)
    ensures b as int == c as int
  {
    c as bv8
  }

  /** The ASCII bytes of a string of lowercase hex digits. */
  function HexBytes(hex: string): (bytes: seq<bv8>)
    requires forall i | 0 <= i < |hex| :: IsLowerHex(hex[i])
    ensures |bytes| == |hex|
    ensures forall i | 0 <= i < |hex| :: bytes[i] as int == hex[i] as int
  {
    seq(|hex|, i requires 0 <= i < |hex| => HexDigitByte(hex[i]))
  }

  /**
   * The cache key with the digest first written as 128 lowercase hex
   * digits, which the slice bounds and the lowercasing fit: defined for
   * every SHA-512 digest, with the same lengths and the same overlap.
   */
  function CreateCacheKeyHex(schoolNumber: string, username: string, className: string, sha512: seq<bv8> -> seq<bv8>): (r: CacheKeyData)
    requires |sha512(CacheKeyInput(schoolNumber, username, className))| == SHA512_LENGTH
    ensures |r.id| == 32 && |r.key| == 64 && |r.iv| == 32
    ensures r.key[47..] == r.iv[..17]
    ensures r.id == HexBytes(HexString(sha512(CacheKeyInput(schoolNumber, username, className))[..16]))
  {
    var digest := sha512(CacheKeyInput(schoolNumber, username, className));
    var hex := HexString(digest);
    HexStringPrefix(digest, 16);
    var hash := HexBytes(hex);
    assert hash[0..32] == HexBytes(hex[..32]);
    CacheKeyData(hash[0..32], hash[34..98], hash[81..113])
  }
}
