/**
 The OpenSSH Ed25519 key writer and reader: strings as in section 5 of RFC 4251,
 the public key blob as in section 4 of RFC 8709, inside OpenSSH's own
 openssh-key-v1 container. All text is bytes.
*/
module SshCodec {
  import opened Options

  type Byte = x: int | 0 <= x < 256

  type Bytes = seq<Byte>

  const WORD := 0x1_0000_0000

  /** "ssh-ed25519" */
  const KEY_TYPE: Bytes := [115, 115, 104, 45, 101, 100, 50, 53, 53, 49, 57]
  /** "openssh-key-v1" and a zero byte */
  const MAGIC: Bytes := [111, 112, 101, 110, 115, 115, 104, 45, 107, 101, 121, 45, 118, 49, 0]
  /** "none" */
  const NONE: Bytes := [110, 111, 110, 101]
  /** "affentserve" */
  const COMMENT: Bytes := [97, 102, 102, 101, 110, 116, 115, 101, 114, 118, 101]
  const SPACE: Byte := 32

  const PUBLIC_KEY_SIZE := 32
  const PRIVATE_KEY_SIZE := 64

  /** The two library functions the key lines go through. */
  datatype Text = Text(base64: Bytes -> Bytes, trim: Bytes -> Bytes)

  /** A 32-bit length, most significant byte first; longer lengths wrap around. */
  function BigEndian(n: nat): (r: Bytes)
    ensures |r| == 4
  {
    var m := n % WORD;
    [m / 0x100_0000, m / 0x1_0000 % 256, m / 256 % 256, m % 256]
  }

  function Uint32(raw: Bytes): nat
    requires |raw| == 4
  {
    raw[0] as int * 0x100_0000 + raw[1] as int * 0x1_0000 + raw[2] as int * 256 + raw[3] as int
  }

  function Written(value: Bytes): Bytes {
    BigEndian(|value|) + value
  }

  /** The first string and what follows it; the length is compared with the number
      of remaining bytes cut to 32 bits. */
  function ReadString(raw: Bytes): Option<(Bytes, Bytes)> {
    if |raw| < 4 then None
    else
      var length, rest := Uint32(raw[..4]), raw[4..];
      if length > |rest| % WORD then None else Some((rest[..length], rest[length..]))
  }

  lemma BigEndianRoundTrip(n: nat)
    ensures Uint32(BigEndian(n)) == n % WORD
  {
    var m := n % WORD;
    assert m == m / 256 * 256 + m % 256;
    assert m / 256 == m / 0x1_0000 * 256 + m / 256 % 256;
    assert m / 0x1_0000 == m / 0x100_0000 * 256 + m / 0x1_0000 % 256;
  }

  /** Reading undoes writing exactly for values whose length fits 32 bits and that
      are not longer than what remains, cut to 32 bits. */
  lemma StringRoundTripIff(value: Bytes, rest: Bytes)
    ensures ReadString(Written(value) + rest) == Some((value, rest))
            <==> |value| < WORD && |value| <= (|value| + |rest|) % WORD
  {
    ReadStep(value, rest, value + rest, |value| % WORD);
    if |value| < WORD {
      assert (value + rest)[..|value|] == value && (value + rest)[|value|..] == rest;
    }
  }

  lemma ReadStep(value: Bytes, rest: Bytes, all: Bytes, length: nat)
    requires all == value + rest && length == |value| % WORD
    ensures length <= |value|
    ensures ReadString(Written(value) + rest)
         == if length > |all| % WORD then None else Some((all[..length], all[length..]))
  {
    var raw := Written(value) + rest;
    BigEndianRoundTrip(|value|);
    assert raw[..4] == BigEndian(|value|) && raw[4..] == all;
  }

  /** A value that fits is read back or refused, never misread. */
  lemma ReadBackOrRefused(value: Bytes, rest: Bytes)
    requires |value| < WORD
    ensures ReadString(Written(value) + rest)
            == if |value| <= (|value| + |rest|) % WORD then Some((value, rest)) else None
  {
    StringRoundTripIff(value, rest);
    var raw := Written(value) + rest;
    BigEndianRoundTrip(|value|);
    assert raw[..4] == BigEndian(|value|);
  }

  // ---- The key formats ----

  function PublicBlob(publicKey: Bytes): Bytes {
    Written(KEY_TYPE) + Written(publicKey)
  }

  /** 1, 2, 3, ... up to the next multiple of eight. */
  function Padding(length: nat): (pad: Bytes)
    ensures |pad| < 8 && (length + |pad|) % 8 == 0
    ensures forall i :: 0 <= i < |pad| ==> pad[i] == i + 1
  {
    seq((8 - length % 8) % 8, i requires 0 <= i < 8 => i + 1)
  }

  function PrivateFields(publicKey: Bytes, privateKey: Bytes, comment: Bytes): Bytes {
    Written(KEY_TYPE) + (Written(publicKey) + (Written(privateKey) + Written(comment)))
  }

  function PrivateBlob(publicKey: Bytes, privateKey: Bytes, comment: Bytes, check: Bytes): Bytes {
    var fields := check + check + PrivateFields(publicKey, privateKey, comment);
    fields + Padding(|fields|)
  }

  function Container(publicBlob: Bytes, privateBlob: Bytes): Bytes {
    var counted := BigEndian(1) + (Written(publicBlob) + Written(privateBlob));
    MAGIC + (Written(NONE) + (Written(NONE) + (Written([]) + counted)))
  }

  /** The payload inside the PEM block; a key of the wrong size is refused. */
  function PrivateKeyPayload(text: Text, privateKey: Bytes, publicKey: Bytes, comment: Bytes, check: Bytes)
    : Option<Bytes>
  {
    if |privateKey| != PRIVATE_KEY_SIZE || |publicKey| != PUBLIC_KEY_SIZE then None
    else
      Some(Container(PublicBlob(publicKey), PrivateBlob(publicKey, privateKey, text.trim(comment), check)))
  }

  function KeyLine(text: Text, keyType: Bytes, blob: Bytes, comment: Bytes): Bytes {
    keyType + [SPACE] + text.base64(blob)
    + if text.trim(comment) != [] then [SPACE] + text.trim(comment) else []
  }

  function PublicKeyLine(text: Text, publicKey: Bytes, comment: Bytes): Bytes {
    KeyLine(text, KEY_TYPE, PublicBlob(publicKey), comment)
  }

  function PublicBlobLine(text: Text, blob: Bytes, comment: Bytes): Option<Bytes> {
    match ReadString(blob)
    case None => None
    case Some((keyType, _)) => if keyType == [] then None else Some(KeyLine(text, keyType, blob, comment))
  }

  /** The reader's way to the public key of a private key payload. */
  function DerivedPublicLine(text: Text, raw: Bytes): Option<Bytes> {
    if !(MAGIC <= raw) then None
    else match ReadString(raw[|MAGIC|..])
         case None => None
         case Some((_, afterCipher)) =>
           match ReadString(afterCipher)
           case None => None
           case Some((_, afterKdf)) =>
             match ReadString(afterKdf)
             case None => None
             case Some((_, rest)) => AfterOptions(text, rest)
  }

  /** The reader's last two steps: the key count and the public blob. */
  function AfterOptions(text: Text, rest: Bytes): Option<Bytes> {
    if |rest| < 4 || Uint32(rest[..4]) != 1 then None
    else match ReadString(rest[4..])
         case None => None
         case Some((blob, _)) => PublicBlobLine(text, blob, COMMENT)
  }

  // ---- The writers append to buffers ----

  /** There is one way to pad by fewer than eight bytes. */
  lemma PadsAlike(length: nat, p: nat, q: nat)
    requires p < 8 && q < 8 && (length + q) % 8 == 0
    ensures (length + p) % 8 == 0 <==> p == q
  {
  }

  class Buffer {
    var bytes: Bytes

    constructor ()
      ensures bytes == []
    {
      bytes := [];
    }

    method Write(value: Bytes)
      modifies this
      ensures bytes == old(bytes) + value
    {
      bytes := bytes + value;
    }

    method WriteString(value: Bytes)
      modifies this
      ensures bytes == old(bytes) + Written(value)
    {
      Write(BigEndian(|value|));
      Write(value);
    }

    /** The padding loop. */
    method Pad()
      modifies this
      ensures bytes == old(bytes) + Padding(|old(bytes)|)
      ensures |bytes| % 8 == 0
    {
      var pad := 1;
      ghost var padding := Padding(|bytes|);
      while |bytes| % 8 != 0
        invariant 1 <= pad <= |padding| + 1
        invariant bytes == old(bytes) + padding[..pad - 1]
        decreases |padding| + 1 - pad
      {
        PadsAlike(|old(bytes)|, pad - 1, |padding|);
        bytes := bytes + [pad];
        pad := pad + 1;
      }
      PadsAlike(|old(bytes)|, pad - 1, |padding|);
      assert padding[..|padding|] == padding;
    }
  }

  method MarshalPrivateKey(text: Text, privateKey: Bytes, publicKey: Bytes, comment: Bytes, check: Bytes)
    returns (payload: Option<Bytes>)
    ensures payload == PrivateKeyPayload(text, privateKey, publicKey, comment, check)
  {
    if |privateKey| != PRIVATE_KEY_SIZE || |publicKey| != PUBLIC_KEY_SIZE {
      return None;
    }
    var publicBlob := new Buffer();
    publicBlob.WriteString(KEY_TYPE);
    publicBlob.WriteString(publicKey);
    assert publicBlob.bytes == PublicBlob(publicKey);
    var privateBlob := MarshalPrivateBlob(publicKey, privateKey, text.trim(comment), check);
    var container := MarshalContainer(publicBlob.bytes, privateBlob);
    return Some(container);
  }

  method MarshalPrivateBlob(publicKey: Bytes, privateKey: Bytes, comment: Bytes, check: Bytes)
    returns (blob: Bytes)
    ensures blob == PrivateBlob(publicKey, privateKey, comment, check)
  {
    var out := new Buffer();
    out.Write(check);
    out.Write(check);
    out.WriteString(KEY_TYPE);
    out.WriteString(publicKey);
    out.WriteString(privateKey);
    out.WriteString(comment);
    assert out.bytes == check + check + PrivateFields(publicKey, privateKey, comment);
    out.Pad();
    return out.bytes;
  }

  method MarshalContainer(publicBlob: Bytes, privateBlob: Bytes) returns (payload: Bytes)
    ensures payload == Container(publicBlob, privateBlob)
  {
    var out := new Buffer();
    out.Write(MAGIC);
    out.WriteString(NONE);
    out.WriteString(NONE);
    out.WriteString([]);
    out.Write(BigEndian(1));
    out.WriteString(publicBlob);
    out.WriteString(privateBlob);
    Regroup(MAGIC, Written(NONE), Written(NONE), Written([]), BigEndian(1), Written(publicBlob), Written(privateBlob));
    return out.bytes;
  }

  lemma Regroup(a: Bytes, b: Bytes, c: Bytes, d: Bytes, e: Bytes, f: Bytes, g: Bytes)
    ensures [] + a + b + c + d + e + f + g == a + (b + (c + (d + (e + (f + g)))))
  {
  }

  // ---- What is written reads back ----

  /** The four length checks of the reader, in terms of how many bytes follow the
      public key in the container. */
  predicate Readable(following: nat) {
    && 4 <= (75 + following) % WORD
    && 4 <= (67 + following) % WORD
    && 51 <= (51 + following) % WORD
  }

  /** For every pair of keys, comment and check bytes, deriving the public key from
      the written private key gives the line the public key writer prints, exactly
      when none of the reader's length checks is upset by a private part that
      wraps around 32 bits. */
  lemma PublicKeyReadsBackIff(text: Text, privateKey: Bytes, publicKey: Bytes, comment: Bytes, check: Bytes)
    requires |privateKey| == PRIVATE_KEY_SIZE && |publicKey| == PUBLIC_KEY_SIZE
    ensures var payload := PrivateKeyPayload(text, privateKey, publicKey, comment, check);
            var following := 4 + |PrivateBlob(publicKey, privateKey, text.trim(comment), check)|;
            payload.Some? &&
            (DerivedPublicLine(text, payload.value) == Some(PublicKeyLine(text, publicKey, COMMENT))
             <==> Readable(following))
  {
    ContainerReadsBackIff(text, publicKey, PrivateBlob(publicKey, privateKey, text.trim(comment), check));
  }

  lemma OptionsReadBack(text: Text, publicKey: Bytes, tail: Bytes)
    requires |publicKey| == PUBLIC_KEY_SIZE
    ensures AfterOptions(text, BigEndian(1) + (Written(PublicBlob(publicKey)) + tail))
            == if 51 <= (51 + |tail|) % WORD then Some(PublicKeyLine(text, publicKey, COMMENT)) else None
  {
    var blob := PublicBlob(publicKey);
    var rest := BigEndian(1) + (Written(blob) + tail);
    assert rest[..4] == BigEndian(1) && rest[4..] == Written(blob) + tail;
    BigEndianRoundTrip(1);
    ReadBackOrRefused(blob, tail);
    ReadBackOrRefused(KEY_TYPE, Written(publicKey));
  }

  lemma ContainerReadsBackIff(text: Text, publicKey: Bytes, privateBlob: Bytes)
    requires |publicKey| == PUBLIC_KEY_SIZE
    ensures DerivedPublicLine(text, Container(PublicBlob(publicKey), privateBlob))
            == if Readable(4 + |privateBlob|) then Some(PublicKeyLine(text, publicKey, COMMENT)) else None
  {
    var raw := Container(PublicBlob(publicKey), privateBlob);
    var tail := Written(privateBlob);
    var counted := BigEndian(1) + (Written(PublicBlob(publicKey)) + tail);
    var afterKdf := Written([]) + counted;
    var afterCipher := Written(NONE) + afterKdf;
    assert |counted| == 59 + |tail| && |afterKdf| == 63 + |tail| && |afterCipher| == 71 + |tail|;
    assert MAGIC <= raw && raw[|MAGIC|..] == Written(NONE) + afterCipher;
    ReadBackOrRefused(NONE, afterCipher);
    ReadBackOrRefused(NONE, afterKdf);
    ReadBackOrRefused([], counted);
    OptionsReadBack(text, publicKey, tail);
    DerivedSteps(text, raw, afterCipher, afterKdf, counted);
  }

  lemma DerivedSteps(text: Text, raw: Bytes, afterCipher: Bytes, afterKdf: Bytes, counted: Bytes)
    requires MAGIC <= raw
    requires ReadString(raw[|MAGIC|..]) == Some((NONE, afterCipher)) || ReadString(raw[|MAGIC|..]).None?
    requires ReadString(afterCipher) == Some((NONE, afterKdf)) || ReadString(afterCipher).None?
    requires ReadString(afterKdf) == Some(([], counted))
    ensures DerivedPublicLine(text, raw)
            == if ReadString(raw[|MAGIC|..]).Some? && ReadString(afterCipher).Some? then AfterOptions(text, counted)
               else None
  {
  }

  /** Which lengths upset the reader: only those within 75 bytes below a multiple of
      2^32, and not all of them. */
  lemma ReadableIff(following: nat)
    ensures Readable(following) <==>
            var r := following % WORD;
            r < WORD - 75 || WORD - 71 <= r < WORD - 67 || WORD - 63 <= r < WORD - 51
  {
    var q, r := following / WORD, following % WORD;
    assert following == q * WORD + r;
    AddWithin(q, r, 75);
    AddWithin(q, r, 67);
    AddWithin(q, r, 51);
  }

  lemma AddWithin(q: nat, r: nat, n: nat)
    requires r < WORD && n < WORD
    ensures (n + (q * WORD + r)) % WORD == if n + r < WORD then n + r else n + r - WORD
  {
    var m := if n + r < WORD then n + r else n + r - WORD;
    var k := if n + r < WORD then q else q + 1;
    assert n + (q * WORD + r) == k * WORD + m;
  }

  /** A private part with a comment just short of 4 GiB upsets the reader, so the public
      key is not read back. */
  lemma LongCommentNotReadBack(text: Text, privateKey: Bytes, publicKey: Bytes, comment: Bytes, check: Bytes)
    requires |privateKey| == PRIVATE_KEY_SIZE && |publicKey| == PUBLIC_KEY_SIZE && |check| == 4
    requires |comment| == WORD - 139 && text.trim(comment) == comment
    ensures var payload := PrivateKeyPayload(text, privateKey, publicKey, comment, check);
            payload.Some? && DerivedPublicLine(text, payload.value) != Some(PublicKeyLine(text, publicKey, COMMENT))
  {
    var privateBlob := PrivateBlob(publicKey, privateKey, text.trim(comment), check);
    BlobLength(publicKey, privateKey, comment, check);
    NotReadable(4 + |privateBlob|);
    ContainerReadsBackIff(text, publicKey, privateBlob);
  }

  lemma NotReadable(following: nat)
    requires following == WORD - 4
    ensures !Readable(following)
  {
    ReadableIff(following);
  }

  lemma BlobLength(publicKey: Bytes, privateKey: Bytes, comment: Bytes, check: Bytes)
    requires |privateKey| == PRIVATE_KEY_SIZE && |publicKey| == PUBLIC_KEY_SIZE && |check| == 4
    requires |comment| == WORD - 139
    ensures |PrivateBlob(publicKey, privateKey, comment, check)| == WORD - 8
  {
    var fields := check + check + PrivateFields(publicKey, privateKey, comment);
    assert |KEY_TYPE| == 11;
    assert |fields| == WORD - 8;
    PadsAlike(|fields|, 0, |Padding(|fields|)|);
  }

  /** Four strings in a row read back one by one, up to the bytes after them. */
  predicate FourStrings(raw: Bytes, a: Bytes, b: Bytes, c: Bytes, d: Bytes, rest: Bytes) {
    var tailC := Written(d) + rest;
    var tailB := Written(c) + tailC;
    var tailA := Written(b) + tailB;
    && ReadString(raw) == Some((a, tailA)) && ReadString(tailA) == Some((b, tailB))
    && ReadString(tailB) == Some((c, tailC)) && ReadString(tailC) == Some((d, rest))
  }

  lemma FourStringsReadBack(a: Bytes, b: Bytes, c: Bytes, d: Bytes, rest: Bytes)
    requires |a| + |b| + |c| + |d| + |rest| + 12 < WORD
    ensures FourStrings(Written(a) + (Written(b) + (Written(c) + (Written(d) + rest))), a, b, c, d, rest)
  {
    var tailC := Written(d) + rest;
    var tailB := Written(c) + tailC;
    var tailA := Written(b) + tailB;
    ShortReadsBack(d, rest);
    ShortReadsBack(c, tailC);
    ShortReadsBack(b, tailB);
    ShortReadsBack(a, tailA);
  }

  lemma ShortReadsBack(value: Bytes, rest: Bytes)
    requires |value| + |rest| < WORD
    ensures ReadString(Written(value) + rest) == Some((value, rest))
  {
    ReadBackOrRefused(value, rest);
  }

  /** The private section reads back field by field: both check copies, the key
      type, both keys and the comment, and nothing but padding after them; its
      length is a multiple of eight. */
  lemma PrivateSectionReadsBack(publicKey: Bytes, privateKey: Bytes, comment: Bytes, check: Bytes) returns (pad: Bytes)
    requires |check| == 4
    requires |publicKey| + |privateKey| + |comment| + 31 < WORD
    ensures var blob := PrivateBlob(publicKey, privateKey, comment, check);
            && |blob| % 8 == 0 && 8 <= |blob| && blob[..4] == check && blob[4..8] == check
            && FourStrings(blob[8..], KEY_TYPE, publicKey, privateKey, comment, pad)
    ensures |pad| < 8 && forall i :: 0 <= i < |pad| ==> pad[i] == i + 1
  {
    var blob := PrivateBlob(publicKey, privateKey, comment, check);
    pad := Padding(|check + check + PrivateFields(publicKey, privateKey, comment)|);
    assert |KEY_TYPE| == 11;
    BlobParts(publicKey, privateKey, comment, check, pad);
    FourStringsReadBack(KEY_TYPE, publicKey, privateKey, comment, pad);
    AfterCheck(check, Written(KEY_TYPE), Written(publicKey), Written(privateKey), Written(comment), pad);
  }

  lemma BlobParts(publicKey: Bytes, privateKey: Bytes, comment: Bytes, check: Bytes, pad: Bytes)
    requires pad == Padding(|check + check + PrivateFields(publicKey, privateKey, comment)|)
    ensures PrivateBlob(publicKey, privateKey, comment, check)
         == check + check + (Written(KEY_TYPE) + (Written(publicKey) + (Written(privateKey) + Written(comment)))) + pad
    ensures |PrivateBlob(publicKey, privateKey, comment, check)| % 8 == 0
  {
  }

  lemma AfterCheck(check: Bytes, a: Bytes, b: Bytes, c: Bytes, d: Bytes, rest: Bytes)
    requires |check| == 4
    ensures var all := check + check + (a + (b + (c + d))) + rest;
            all[..4] == check && all[4..8] == check && all[8..] == a + (b + (c + (d + rest)))
  {
  }

  // ---- The whole payload ----

  /** A payload read with the reader's own steps: no cipher, no key derivation, no options,
      one key, its public blob and its private section, and nothing after them. */
  predicate PayloadHolds(raw: Bytes, publicBlob: Bytes, privateBlob: Bytes) {
    MAGIC <= raw
    && match ReadString(raw[|MAGIC|..])
       case None => false
       case Some((cipher, afterCipher)) =>
         cipher == NONE
         && match ReadString(afterCipher)
            case None => false
            case Some((kdf, afterKdf)) => kdf == NONE && AfterKdfHolds(afterKdf, publicBlob, privateBlob)
  }

  predicate AfterKdfHolds(raw: Bytes, publicBlob: Bytes, privateBlob: Bytes) {
    match ReadString(raw)
    case None => false
    case Some((options, rest)) =>
      options == [] && 4 <= |rest| && Uint32(rest[..4]) == 1
      && match ReadString(rest[4..])
         case None => false
         case Some((blob, tail)) => blob == publicBlob && ReadString(tail) == Some((privateBlob, []))
  }

  /** The blob is the key type and the public key. */
  predicate PublicHolds(blob: Bytes, publicKey: Bytes) {
    ReadString(blob) == Some((KEY_TYPE, Written(publicKey))) && ReadString(Written(publicKey)) == Some((publicKey, []))
  }

  /** The section is two copies of the check bytes, the key type, the public key, the
      private key and the comment, and fewer than eight bytes 1, 2, 3, ... of padding. */
  predicate PrivateHolds(blob: Bytes, publicKey: Bytes, privateKey: Bytes, comment: Bytes, check: Bytes, pad: Bytes) {
    && |blob| % 8 == 0 && 8 <= |blob| && blob[..4] == check && blob[4..8] == check
    && FourStrings(blob[8..], KEY_TYPE, publicKey, privateKey, comment, pad)
    && |pad| < 8 && forall i :: 0 <= i < |pad| ==> pad[i] == i + 1
  }

  /** For every pair of keys, and every comment and check bytes that fit, the payload reads
      back: in its place stands this public key, and in the private section both check
      copies, this public key, this private key and the trimmed comment. */
  lemma PayloadReadsBack(text: Text, privateKey: Bytes, publicKey: Bytes, comment: Bytes, check: Bytes)
    returns (publicBlob: Bytes, privateBlob: Bytes, pad: Bytes)
    requires |privateKey| == PRIVATE_KEY_SIZE && |publicKey| == PUBLIC_KEY_SIZE && |check| == 4
    requires |text.trim(comment)| + 0x1000 < WORD
    ensures var payload := PrivateKeyPayload(text, privateKey, publicKey, comment, check);
            payload.Some? && PayloadHolds(payload.value, publicBlob, privateBlob)
    ensures PublicHolds(publicBlob, publicKey)
    ensures PrivateHolds(privateBlob, publicKey, privateKey, text.trim(comment), check, pad)
  {
    publicBlob := PublicBlob(publicKey);
    privateBlob := PrivateBlob(publicKey, privateKey, text.trim(comment), check);
    pad := PrivateSectionReadsBack(publicKey, privateKey, text.trim(comment), check);
    PublicBlobReadsBack(publicKey);
    PrivateBlobBound(publicKey, privateKey, text.trim(comment), check);
    ContainerHolds(publicBlob, privateBlob);
  }

  lemma PublicBlobReadsBack(publicKey: Bytes)
    requires |publicKey| == PUBLIC_KEY_SIZE
    ensures PublicHolds(PublicBlob(publicKey), publicKey) && |PublicBlob(publicKey)| == 51
  {
    ShortReadsBack(KEY_TYPE, Written(publicKey));
    ShortReadsBack(publicKey, []);
    assert Written(publicKey) + [] == Written(publicKey);
  }

  lemma PrivateBlobBound(publicKey: Bytes, privateKey: Bytes, comment: Bytes, check: Bytes)
    requires |privateKey| == PRIVATE_KEY_SIZE && |publicKey| == PUBLIC_KEY_SIZE && |check| == 4
    ensures |PrivateBlob(publicKey, privateKey, comment, check)| < |comment| + 0x100
  {
  }

  lemma ContainerHolds(publicBlob: Bytes, privateBlob: Bytes)
    requires |publicBlob| + |privateBlob| + 0x100 < WORD
    ensures PayloadHolds(Container(publicBlob, privateBlob), publicBlob, privateBlob)
  {
    var raw := Container(publicBlob, privateBlob);
    var tail := Written(privateBlob);
    var counted := BigEndian(1) + (Written(publicBlob) + tail);
    var afterKdf := Written([]) + counted;
    var afterCipher := Written(NONE) + afterKdf;
    assert MAGIC <= raw && raw[|MAGIC|..] == Written(NONE) + afterCipher;
    ShortReadsBack(NONE, afterCipher);
    ShortReadsBack(NONE, afterKdf);
    CountedHolds(publicBlob, privateBlob);
  }

  lemma CountedHolds(publicBlob: Bytes, privateBlob: Bytes)
    requires |publicBlob| + |privateBlob| + 0x100 < WORD
    ensures AfterKdfHolds(Written([]) + (BigEndian(1) + (Written(publicBlob) + Written(privateBlob))),
                          publicBlob, privateBlob)
  {
    var tail := Written(privateBlob);
    var counted := BigEndian(1) + (Written(publicBlob) + tail);
    ShortReadsBack([], counted);
    assert counted[..4] == BigEndian(1) && counted[4..] == Written(publicBlob) + tail;
    BigEndianRoundTrip(1);
    ShortReadsBack(publicBlob, tail);
    ShortReadsBack(privateBlob, []);
    assert tail + [] == tail;
  }

  // ---- What the reader accepts ----

  lemma LengthIsWritten(raw: Bytes)
    requires |raw| == 4
    ensures BigEndian(Uint32(raw)) == raw && Uint32(raw) < WORD
  {
    BytesOf(raw[0], raw[1], raw[2], raw[3], Uint32(raw));
    assert raw == [raw[0], raw[1], raw[2], raw[3]];
  }

  lemma BytesOf(a: Byte, b: Byte, c: Byte, d: Byte, n: nat)
    requires n == a as int * 0x100_0000 + b as int * 0x1_0000 + c as int * 256 + d as int
    ensures n < WORD && n / 0x100_0000 == a && n / 0x1_0000 % 256 == b && n / 256 % 256 == c && n % 256 == d
  {
    assert n / 256 == (a as int * 256 + b as int) * 256 + c as int;
    assert n / 0x1_0000 == a as int * 256 + b as int;
  }

  /** What is read was written: the string and the rest make up the input again. */
  lemma ReadIsWritten(raw: Bytes)
    requires ReadString(raw).Some?
    ensures var (value, rest) := ReadString(raw).value; raw == Written(value) + rest && |value| < WORD
  {
    LengthIsWritten(raw[..4]);
    assert raw == raw[..4] + raw[4..];
  }

  /** The parts of an input the reader accepts. */
  datatype Parts = Parts(cipher: Bytes, kdf: Bytes, options: Bytes, blob: Bytes, tail: Bytes,
                         keyType: Bytes, key: Bytes)

  /** The reader accepts nothing but the container format: a magic header, three strings,
      the count one and a public blob that names its key type. The line it gives is that of
      the blob. */
  lemma AcceptedIsWellFormed(text: Text, raw: Bytes) returns (p: Parts)
    requires DerivedPublicLine(text, raw).Some?
    ensures raw == MAGIC + (Written(p.cipher) + (Written(p.kdf) + (Written(p.options)
                                                 + (BigEndian(1) + (Written(p.blob) + p.tail)))))
    ensures p.blob == Written(p.keyType) + p.key && p.keyType != []
    ensures DerivedPublicLine(text, raw) == Some(KeyLine(text, p.keyType, p.blob, COMMENT))
  {
    var (cipher, afterCipher) := ReadString(raw[|MAGIC|..]).value;
    var (kdf, afterKdf) := ReadString(afterCipher).value;
    var (options, rest) := ReadString(afterKdf).value;
    var (blob, tail) := ReadString(rest[4..]).value;
    var (keyType, key) := ReadString(blob).value;
    ReadIsWritten(raw[|MAGIC|..]);
    ReadIsWritten(afterCipher);
    ReadIsWritten(afterKdf);
    LengthIsWritten(rest[..4]);
    ReadIsWritten(rest[4..]);
    ReadIsWritten(blob);
    assert rest == BigEndian(1) + (Written(blob) + tail);
    assert raw == MAGIC + raw[|MAGIC|..];
    p := Parts(cipher, kdf, options, blob, tail, keyType, key);
  }

  // ---- The public key line ----

  /** The fields of a line between single spaces. */
  function SplitAtSpaces(line: Bytes): (fields: seq<Bytes>)
    ensures |fields| > 0
  {
    if line == [] then [[]]
    else
      var rest := SplitAtSpaces(line[1..]);
      if line[0] == SPACE then [[]] + rest else [[line[0]] + rest[0]] + rest[1..]
  }

  lemma {:induction false} SplitFirstField(field: Bytes, rest: Bytes)
    requires SPACE !in field
    ensures SplitAtSpaces(field) == [field]
    ensures SplitAtSpaces(field + ([SPACE] + rest)) == [field] + SplitAtSpaces(rest)
  {
    var line := field + ([SPACE] + rest);
    if field == [] {
      assert line[1..] == rest;
    } else {
      SplitFirstField(field[1..], rest);
      assert line[1..] == field[1..] + ([SPACE] + rest);
      assert [field[0]] + field[1..] == field;
    }
  }

  /** The public key line has the key type, the encoded blob and, if there is one, the
      trimmed comment, in this order; the blob holds this public key. */
  lemma PublicKeyLineFields(text: Text, publicKey: Bytes, comment: Bytes)
    requires |publicKey| == PUBLIC_KEY_SIZE && SPACE !in text.base64(PublicBlob(publicKey))
    ensures SplitAtSpaces(PublicKeyLine(text, publicKey, comment))
         == [KEY_TYPE] + [text.base64(PublicBlob(publicKey))]
          + if text.trim(comment) == [] then [] else SplitAtSpaces(text.trim(comment))
    ensures PublicHolds(PublicBlob(publicKey), publicKey)
  {
    PublicBlobReadsBack(publicKey);
    var encoded, trimmed := text.base64(PublicBlob(publicKey)), text.trim(comment);
    var line := PublicKeyLine(text, publicKey, comment);
    if trimmed == [] {
      TwoFields(KEY_TYPE, encoded, line);
    } else {
      ThreeFields(KEY_TYPE, encoded, trimmed, line);
    }
  }

  lemma TwoFields(first: Bytes, second: Bytes, line: Bytes)
    requires SPACE !in first && SPACE !in second && line == first + [SPACE] + second
    ensures SplitAtSpaces(line) == [first] + [second]
  {
    SplitFirstField(second, []);
    SplitFirstField(first, second);
    assert line == first + ([SPACE] + second);
  }

  lemma ThreeFields(first: Bytes, second: Bytes, third: Bytes, line: Bytes)
    requires SPACE !in first && SPACE !in second && line == first + [SPACE] + second + ([SPACE] + third)
    ensures SplitAtSpaces(line) == [first] + [second] + SplitAtSpaces(third)
  {
    var rest := second + ([SPACE] + third);
    FirstOfFields(second, third, rest, SplitAtSpaces(third));
    Grouped(first, [SPACE], second, [SPACE] + third);
    FirstOfFields(first, rest, line, [second] + SplitAtSpaces(third));
  }

  lemma FirstOfFields(field: Bytes, rest: Bytes, line: Bytes, fields: seq<Bytes>)
    requires SPACE !in field && line == field + ([SPACE] + rest) && fields == SplitAtSpaces(rest)
    ensures SplitAtSpaces(line) == [field] + fields
  {
    SplitFirstField(field, rest);
  }

  lemma Grouped(a: Bytes, b: Bytes, c: Bytes, d: Bytes)
    ensures a + b + c + d == a + (b + (c + d))
  {
  }
}
