/** The 49-byte commitment wire form and the 89-byte preimage of an intent id. */
module CommitmentCodec {
  import opened Wrappers

  const COMMITMENT_BYTES := 49
  const BLOB_ID_BYTES := 32
  const SENDER_BYTES := 32

  datatype Commitment = Commitment(blobId: seq<Byte>, size: int, encodingType: int, storageEpochs: int, deadline: int)

  // ---------- big-endian integers ----------

  function Pow256(n: nat): (p: nat)
    ensures 1 <= p
  {
    if n == 0 then 1 else 256 * Pow256(n - 1)
  }

  /** The n low bytes of an integer, most significant first; a negative one in two's complement. */
  function BigEndian(value: int, n: nat): (s: seq<Byte>)
    ensures |s| == n
    decreases n
  {
    if n == 0 then [] else BigEndian(value / 256, n - 1) + [value % 256]
  }

  function FromBigEndian(s: seq<Byte>): (value: nat)
    ensures value < Pow256(|s|)
  {
    if s == [] then 0 else FromBigEndian(s[..|s| - 1]) * 256 + s[|s| - 1]
  }

  lemma {:induction false} ReadOfWritten(value: int, n: nat)
    ensures FromBigEndian(BigEndian(value, n)) == value % Pow256(n)
    decreases n
  {
    if n > 0 {
      var s := BigEndian(value, n);
      assert s[..n - 1] == BigEndian(value / 256, n - 1) && s[n - 1] == value % 256;
      ReadOfWritten(value / 256, n - 1);
      ModStep(value, Pow256(n - 1));
    }
  }

  lemma ModStep(v: int, p: int)
    requires 1 <= p
    ensures ((v / 256) % p) * 256 + v % 256 == v % (256 * p)
  {
    var q, r := v / 256, v % 256;
    var a, b := q / p, q % p;
    assert v == 256 * (a * p + b) + r;
    assert v == (256 * p) * a + (256 * b + r) by { Regroup(p, a, b); }
    assert 0 <= 256 * b + r < 256 * p;
    ModIs(v, 256 * p, a, 256 * b + r);
  }

  lemma Regroup(p: int, a: int, b: int)
    ensures 256 * (a * p + b) == (256 * p) * a + 256 * b
  {
  }

  lemma ModIs(v: int, m: int, k: int, r: int)
    requires 0 <= r < m && v == m * k + r
    ensures v % m == r
  {
    var d := k - v / m;
    assert m * d == v % m - r;
    Multiples(m, d);
  }

  lemma Multiples(m: int, d: int)
    requires 0 < m
    ensures 1 <= d ==> m <= m * d
    ensures d <= -1 ==> m * d <= -m
  {
  }

  lemma {:induction false} WriteOfRead(s: seq<Byte>)
    ensures BigEndian(FromBigEndian(s), |s|) == s
  {
    if s != [] {
      var rest, last := s[..|s| - 1], s[|s| - 1];
      WriteOfRead(rest);
      var v := FromBigEndian(s);
      assert v / 256 == FromBigEndian(rest) && v % 256 == last;
    }
  }

  /** Two integers have the same n bytes exactly when they agree modulo 256^n. */
  lemma SameBytes(a: int, b: int, n: nat)
    ensures BigEndian(a, n) == BigEndian(b, n) <==> a % Pow256(n) == b % Pow256(n)
  {
    ReadOfWritten(a, n);
    ReadOfWritten(b, n);
    WriteOfRead(BigEndian(a, n));
    WriteOfRead(BigEndian(b, n));
  }

  /** view with `bytes` written at `offset`. */
  function Patched(view: seq<Byte>, offset: nat, bytes: seq<Byte>): seq<Byte>
    requires offset + |bytes| <= |view|
  {
    view[..offset] + bytes + view[offset + |bytes|..]
  }

  method WriteUintBE(view: array<Byte>, offset: nat, value: int, byteLength: nat)
    requires offset + byteLength <= view.Length
    modifies view
    ensures view[..] == Patched(old(view[..]), offset, BigEndian(value, byteLength))
  {
    var v := value;
    var i := byteLength;
    while i > 0
      invariant 0 <= i <= byteLength
      invariant BigEndian(value, byteLength) == BigEndian(v, i) + view[offset + i..offset + byteLength]
      invariant view[..offset + i] == old(view[..offset + i])
      invariant view[offset + byteLength..] == old(view[offset + byteLength..])
    {
      i := i - 1;
      ghost var done := view[offset + i + 1..offset + byteLength];
      view[offset + i] := v % 256;
      assert view[offset + i..offset + byteLength] == [v % 256] + done;
      v := v / 256;
    }
    assert view[..] == view[..offset] + view[offset..offset + byteLength] + view[offset + byteLength..];
  }

  method ReadUintBE(view: array<Byte>, offset: nat, byteLength: nat) returns (value: nat)
    requires offset + byteLength <= view.Length
    ensures value == FromBigEndian(view[offset..offset + byteLength])
  {
    value := 0;
    for i := 0 to byteLength
      invariant value == FromBigEndian(view[offset..offset + i])
    {
      value := value * 256 + view[offset + i];
      assert view[offset..offset + i + 1][..i] == view[offset..offset + i];
    }
  }

  /** Uint8Array.set. */
  method SetBytes(view: array<Byte>, bytes: seq<Byte>, offset: nat)
    requires offset + |bytes| <= view.Length
    modifies view
    ensures view[..] == Patched(old(view[..]), offset, bytes)
  {
    for i := 0 to |bytes|
      invariant view[..offset] == old(view[..offset])
      invariant view[offset..offset + i] == bytes[..i]
      invariant view[offset + i..] == old(view[offset + i..])
    {
      view[offset + i] := bytes[i];
      assert view[offset..offset + i + 1] == bytes[..i] + [bytes[i]];
    }
    assert bytes[..|bytes|] == bytes;
    assert view[..] == view[..offset] + view[offset..offset + |bytes|] + view[offset + |bytes|..];
  }

  // ---------- the commitment ----------

  function Encoded(c: Commitment): (bytes: seq<Byte>)
    requires |c.blobId| == BLOB_ID_BYTES
    ensures |bytes| == COMMITMENT_BYTES
  {
    c.blobId + BigEndian(c.size, 4) + [c.encodingType % 256] + BigEndian(c.storageEpochs, 4) + BigEndian(c.deadline, 8)
  }

  function Decoded(bytes: seq<Byte>): (c: Commitment)
    requires |bytes| == COMMITMENT_BYTES
    ensures |c.blobId| == BLOB_ID_BYTES
  {
    Commitment(bytes[..32], FromBigEndian(bytes[32..36]), bytes[36], FromBigEndian(bytes[37..41]), FromBigEndian(bytes[41..49]))
  }

  method EncodeCommitment(c: Commitment) returns (r: Result<seq<Byte>>)
    ensures r.Success? <==> |c.blobId| == BLOB_ID_BYTES
    ensures r.Success? ==> r.value == Encoded(c)
  {
    if |c.blobId| != BLOB_ID_BYTES {
      return Failure("blobId must be 32 bytes");
    }
    var out := new Byte[COMMITMENT_BYTES](_ => 0);
    SetBytes(out, c.blobId, 0);
    ghost var s := out[..];
    WriteUintBE(out, 32, c.size, 4);
    assert out[..36] == c.blobId + BigEndian(c.size, 4);
    out[36] := c.encodingType % 256;
    assert out[..37] == c.blobId + BigEndian(c.size, 4) + [c.encodingType % 256];
    s := out[..37];
    WriteUintBE(out, 37, c.storageEpochs, 4);
    assert out[..41] == s + BigEndian(c.storageEpochs, 4);
    s := out[..41];
    WriteUintBE(out, 41, c.deadline, 8);
    assert out[..] == s + BigEndian(c.deadline, 8);
    r := Success(out[..]);
  }

  method DecodeCommitment(bytes: array<Byte>) returns (r: Result<Commitment>)
    ensures r.Success? <==> bytes.Length == COMMITMENT_BYTES
    ensures r.Success? ==> r.value == Decoded(bytes[..])
  {
    if bytes.Length != COMMITMENT_BYTES {
      return Failure("commitment must be 49 bytes");
    }
    var size := ReadUintBE(bytes, 32, 4);
    var epochs := ReadUintBE(bytes, 37, 4);
    var deadline := ReadUintBE(bytes, 41, 8);
    assert bytes[..][32..36] == bytes[32..36] && bytes[..][37..41] == bytes[37..41] && bytes[..][41..49] == bytes[41..49];
    r := Success(Commitment(bytes[..BLOB_ID_BYTES], size, bytes[36], epochs, deadline));
  }

  /** What the wire keeps of a commitment: its fields modulo their widths. */
  function Truncated(c: Commitment): Commitment {
    Commitment(c.blobId, c.size % Pow256(4), c.encodingType % 256, c.storageEpochs % Pow256(4), c.deadline % Pow256(8))
  }

  predicate InRange(c: Commitment) {
    && 0 <= c.size < 0x1_0000_0000
    && 0 <= c.encodingType < 0x100
    && 0 <= c.storageEpochs < 0x1_0000_0000
    && 0 <= c.deadline < 0x1_0000_0000_0000_0000
  }

  lemma Widths()
    ensures Pow256(4) == 0x1_0000_0000 && Pow256(8) == 0x1_0000_0000_0000_0000
  {
    assert Pow256(1) == 256 && Pow256(2) == 0x1_0000 && Pow256(3) == 0x100_0000 && Pow256(4) == 0x1_0000_0000;
    assert Pow256(5) == 0x100_0000_0000 && Pow256(6) == 0x1_0000_0000_0000 && Pow256(7) == 0x100_0000_0000_0000;
  }

  lemma Parts(c: Commitment)
    requires |c.blobId| == BLOB_ID_BYTES
    ensures var b := Encoded(c);
            && b[..32] == c.blobId && b[32..36] == BigEndian(c.size, 4) && b[36] == c.encodingType % 256
            && b[37..41] == BigEndian(c.storageEpochs, 4) && b[41..49] == BigEndian(c.deadline, 8)
  {
  }

  lemma DecodeOfEncode(c: Commitment)
    requires |c.blobId| == BLOB_ID_BYTES
    ensures Decoded(Encoded(c)) == Truncated(c)
  {
    Parts(c);
    ReadOfWritten(c.size, 4);
    ReadOfWritten(c.storageEpochs, 4);
    ReadOfWritten(c.deadline, 8);
  }

  /** Decode undoes encode exactly on the commitments whose fields fit; the others come back reduced, with no error. */
  lemma RoundTripWhenInRange(c: Commitment)
    requires |c.blobId| == BLOB_ID_BYTES
    ensures Decoded(Encoded(c)) == c <==> InRange(c)
  {
    DecodeOfEncode(c);
    UnchangedWhenInRange(c);
  }

  lemma UnchangedWhenInRange(c: Commitment)
    ensures Truncated(c) == c <==> InRange(c)
  {
    Widths();
    FitsWhenReduced(c.size, Pow256(4));
    FitsWhenReduced(c.storageEpochs, Pow256(4));
    FitsWhenReduced(c.deadline, Pow256(8));
  }

  lemma FitsWhenReduced(v: int, m: int)
    requires 0 < m
    ensures v % m == v <==> 0 <= v < m
  {
    if 0 <= v < m { ModIs(v, m, 0, v); }
  }

  /** Encode undoes decode on every 49-byte string, and decoding never leaves the range. */
  lemma EncodeOfDecode(bytes: seq<Byte>)
    requires |bytes| == COMMITMENT_BYTES
    ensures Encoded(Decoded(bytes)) == bytes && InRange(Decoded(bytes))
  {
    WriteOfRead(bytes[32..36]);
    WriteOfRead(bytes[37..41]);
    WriteOfRead(bytes[41..49]);
    Widths();
    assert bytes == bytes[..32] + bytes[32..36] + [bytes[36]] + bytes[37..41] + bytes[41..49];
  }

  /** Two commitments share a wire form exactly when they agree field by field modulo the widths. */
  lemma EncodedEqual(c: Commitment, d: Commitment)
    requires |c.blobId| == BLOB_ID_BYTES == |d.blobId|
    ensures Encoded(c) == Encoded(d) <==> Truncated(c) == Truncated(d)
  {
    DecodeOfEncode(c);
    DecodeOfEncode(d);
    SameBytes(c.size, d.size, 4);
    SameBytes(c.storageEpochs, d.storageEpochs, 4);
    SameBytes(c.deadline, d.deadline, 8);
  }

  // ---------- the intent id ----------

  function Zeros(n: nat): (s: seq<Byte>)
    ensures |s| == n
  {
    seq(n, _ => 0)
  }

  function Padded(sender: seq<Byte>): (s: seq<Byte>)
    requires |sender| <= SENDER_BYTES
    ensures |s| == SENDER_BYTES
  {
    Zeros(SENDER_BYTES - |sender|) + sender
  }

  function Preimage(c: Commitment, sender: seq<Byte>, nonce: int): (s: seq<Byte>)
    requires |c.blobId| == BLOB_ID_BYTES && |sender| <= SENDER_BYTES
    ensures |s| == 89
  {
    Encoded(c) + Padded(sender) + BigEndian(nonce, 8)
  }

  method DeriveIntentId(c: Commitment, sender: seq<Byte>, nonce: int, keccak: seq<Byte> -> seq<Byte>) returns (r: Result<seq<Byte>>)
    ensures r.Success? <==> |sender| <= SENDER_BYTES && |c.blobId| == BLOB_ID_BYTES
    ensures r.Success? ==> r.value == keccak(Preimage(c, sender, nonce))
  {
    if |sender| > SENDER_BYTES {
      return Failure("sender must be <= 32 bytes");
    }
    var preimage := new Byte[COMMITMENT_BYTES + SENDER_BYTES + 8](_ => 0);
    assert preimage[..] == Zeros(89);
    var encoded := EncodeCommitment(c);
    if encoded.Failure? {
      return Failure(encoded.error);
    }
    AssembledInThreeWrites(encoded.value, sender, BigEndian(nonce, 8));
    SetBytes(preimage, encoded.value, 0);
    SetBytes(preimage, sender, COMMITMENT_BYTES + (SENDER_BYTES - |sender|));
    WriteUintBE(preimage, COMMITMENT_BYTES + SENDER_BYTES, nonce, 8);
    r := Success(keccak(preimage[..]));
  }

  /** The three writes into the zeroed buffer leave the sender's padding in place. */
  lemma AssembledInThreeWrites(encoded: seq<Byte>, sender: seq<Byte>, nonce: seq<Byte>)
    requires |encoded| == COMMITMENT_BYTES && |sender| <= SENDER_BYTES && |nonce| == 8
    ensures Patched(Patched(Patched(Zeros(89), 0, encoded), 81 - |sender|, sender), 81, nonce) == encoded + Padded(sender) + nonce
  {
    var first := Patched(Zeros(89), 0, encoded);
    assert first == encoded + Zeros(40);
    assert first[..81 - |sender|] == encoded + Zeros(32 - |sender|);
    assert Patched(first, 81 - |sender|, sender) == encoded + Padded(sender) + Zeros(8);
  }

  /** The preimage determines the commitment, the padded sender and the nonce, each modulo its width, and nothing more. */
  lemma PreimageInjective(c: Commitment, a: seq<Byte>, m: int, d: Commitment, b: seq<Byte>, n: int)
    requires |c.blobId| == BLOB_ID_BYTES == |d.blobId| && |a| <= SENDER_BYTES && |b| <= SENDER_BYTES
    ensures Preimage(c, a, m) == Preimage(d, b, n)
       <==> Truncated(c) == Truncated(d) && Padded(a) == Padded(b) && m % Pow256(8) == n % Pow256(8)
  {
    EncodedEqual(c, d);
    SameBytes(m, n, 8);
    PreimageParts(c, a, m);
    PreimageParts(d, b, n);
  }

  lemma PreimageParts(c: Commitment, a: seq<Byte>, m: int)
    requires |c.blobId| == BLOB_ID_BYTES && |a| <= SENDER_BYTES
    ensures var p := Preimage(c, a, m); p[..49] == Encoded(c) && p[49..81] == Padded(a) && p[81..] == BigEndian(m, 8)
  {
  }

  /** Padding loses only leading zeros: senders of one width never meet, and a shorter one meets its zero-extension. */
  lemma PaddedEqual(a: seq<Byte>, b: seq<Byte>)
    requires |b| <= |a| <= SENDER_BYTES
    ensures Padded(a) == Padded(b) <==> a == Zeros(|a| - |b|) + b
  {
    var k := SENDER_BYTES - |a|;
    if Padded(a) == Padded(b) {
      assert a == Padded(a)[k..];
      assert Padded(b)[k..] == Zeros(|a| - |b|) + b;
    }
    if a == Zeros(|a| - |b|) + b {
      assert Padded(a) == Padded(b);
    }
  }

  // ---------- the layout, byte by byte ----------

  lemma {:induction false} Joined(a: seq<Byte>, b: seq<Byte>)
    ensures FromBigEndian(a + b) == FromBigEndian(a) * Pow256(|b|) + FromBigEndian(b)
  {
    if b == [] {
      assert a + b == a;
    } else {
      var rest, last := b[..|b| - 1], b[|b| - 1];
      assert (a + b)[..|a + b| - 1] == a + rest;
      Joined(a, rest);
      Carried(FromBigEndian(a), Pow256(|rest|), FromBigEndian(rest), last);
    }
  }

  lemma Carried(a: int, p: int, b: int, last: int)
    ensures (a * p + b) * 256 + last == a * (256 * p) + (b * 256 + last)
  {
  }

  /** Four bytes, most significant first. */
  function Word(s: seq<Byte>, at: nat): nat
    requires at + 4 <= |s|
  {
    0x100_0000 * (s[at] as int) + 0x1_0000 * (s[at + 1] as int) + 0x100 * (s[at + 2] as int) + s[at + 3] as int
  }

  lemma WordSpells(s: seq<Byte>, at: nat)
    requires at + 4 <= |s|
    ensures FromBigEndian(s[at..at + 4]) == Word(s, at)
  {
    var w := s[at..at + 4];
    assert w[..3][..2] == w[..2] && w[..2][..1] == w[..1] && w[..1][..0] == [];
    assert FromBigEndian(w[..1]) == w[0];
    assert FromBigEndian(w[..2]) == FromBigEndian(w[..1]) * 256 + w[1];
    assert FromBigEndian(w[..3]) == FromBigEndian(w[..2]) * 256 + w[2];
  }

  lemma TwoWordsSpell(s: seq<Byte>, at: nat)
    requires at + 8 <= |s|
    ensures FromBigEndian(s[at..at + 8]) == Word(s, at) * 0x1_0000_0000 + Word(s, at + 4)
  {
    assert s[at..at + 8] == s[at..at + 4] + s[at + 4..at + 8];
    Joined(s[at..at + 4], s[at + 4..at + 8]);
    WordSpells(s, at);
    WordSpells(s, at + 4);
    Widths();
  }

  /** Where each field is and how it is spelled: blob id, size, encoding, epochs, deadline. */
  lemma EncodedLayout(c: Commitment)
    requires |c.blobId| == BLOB_ID_BYTES
    ensures var b := Encoded(c);
            && b[..32] == c.blobId
            && Word(b, 32) == c.size % 0x1_0000_0000
            && b[36] == c.encodingType % 256
            && Word(b, 37) == c.storageEpochs % 0x1_0000_0000
            && Word(b, 41) * 0x1_0000_0000 + Word(b, 45) == c.deadline % 0x1_0000_0000_0000_0000
  {
    Parts(c);
    Widths();
    ReadOfWritten(c.size, 4);
    ReadOfWritten(c.storageEpochs, 4);
    ReadOfWritten(c.deadline, 8);
    WordSpells(Encoded(c), 32);
    WordSpells(Encoded(c), 37);
    TwoWordsSpell(Encoded(c), 41);
  }

  /** The hashed bytes: the commitment, the sender behind its zeros, and the nonce. */
  lemma PreimageLayout(c: Commitment, sender: seq<Byte>, nonce: int)
    requires |c.blobId| == BLOB_ID_BYTES && |sender| <= SENDER_BYTES
    ensures var p := Preimage(c, sender, nonce);
            && p[..49] == Encoded(c)
            && p[81 - |sender|..81] == sender && (forall k :: 49 <= k < 81 - |sender| ==> p[k] == 0)
            && Word(p, 81) * 0x1_0000_0000 + Word(p, 85) == nonce % 0x1_0000_0000_0000_0000
  {
    var p := Preimage(c, sender, nonce);
    PreimageParts(c, sender, nonce);
    Widths();
    ReadOfWritten(nonce, 8);
    assert p[81..] == p[81..89];
    TwoWordsSpell(p, 81);
    var padded := p[49..81];
    assert padded[32 - |sender|..] == sender && padded[32 - |sender|..] == p[81 - |sender|..81];
    forall k | 49 <= k < 81 - |sender| ensures p[k] == 0 {
      assert p[k] == padded[k - 49];
    }
  }
}
