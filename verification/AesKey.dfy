/** Key expansion: the standard's, and the facts that tie the kernel's steps to it. */
module AesKey {
  import opened AesField
  import opened AesCipher

  const EINVAL: int := 22
  const MAX_WORDS: nat := 60

  // ----- The standard's key expansion (section 5.2 of FIPS 197) ----------------------

  /** The powers of x that make the round constants. */
  function RconByte(i: nat): bv8
    requires 0 < i
  {
    if i == 1 then 1 else XTime(RconByte(i - 1))
  }

  function RconWord(i: nat): bv32
    requires 0 < i
  {
    Pack(RconByte(i), 0, 0, 0)
  }

  predicate KeyWords(nk: nat) { nk == 4 || nk == 6 || nk == 8 }

  /** Word `i` of the expanded key. */
  function ExpandedWord(box: Box, key: seq<bv32>, i: nat): bv32
    requires KeyWords(|key|)
  {
    var nk := |key|;
    if i < nk then key[i]
    else
      var t := ExpandedWord(box, key, i - 1);
      var u := if i % nk == 0 then Xor(SubWord(box.fwd, Ror8(t)), RconWord(i / nk))
               else if nk > 6 && i % nk == 4 then SubWord(box.fwd, t)
               else t;
      Xor(ExpandedWord(box, key, i - nk), u)
  }

  // ----- The kernel's tables ---------------------------------------------------------

  const RCO_TAB: seq<bv32> := [1, 2, 4, 8, 16, 32, 64, 128, 27, 54]

  function LsBox(box: Box, x: bv32): bv32 {
    Xor(Xor(Xor(Fl0(box, B0(x)), Fl1(box, B1(x))), Fl2(box, B2(x))), Fl3(box, B3(x)))
  }

  lemma LsBoxIsSubWord(box: Box, x: bv32)
    ensures LsBox(box, x) == SubWord(box.fwd, x)
  {
    hide Xor, Pack, B0, B1, B2, B3, Sum4;
    var p, q, r, s := box.fwd(B0(x)), box.fwd(B1(x)), box.fwd(B2(x)), box.fwd(B3(x));
    PackSum(p, 0, 0, 0, 0, q, 0, 0, 0, 0, r, 0, 0, 0, 0, s);
    OneOfFour(p);
    OneOfFour(q);
    OneOfFour(r);
    OneOfFour(s);
  }

  lemma FirstRcons()
    ensures RconByte(1) == 1 && RconByte(2) == 2 && RconByte(3) == 4 && RconByte(4) == 8 && RconByte(5) == 16
  {
    assert XTime(1) == 2 && XTime(2) == 4 && XTime(4) == 8 && XTime(8) == 16;
    hide XTime;
    assert RconByte(3) == XTime(RconByte(2));
    assert RconByte(4) == XTime(RconByte(3));
    assert RconByte(5) == XTime(RconByte(4));
  }

  lemma LaterRcons()
    ensures RconByte(6) == 32 && RconByte(7) == 64 && RconByte(8) == 128 && RconByte(9) == 27 && RconByte(10) == 54
  {
    assert XTime(16) == 32 && XTime(32) == 64 && XTime(64) == 128 && XTime(128) == 27 && XTime(27) == 54;
    hide XTime;
    FirstRcons();
    assert RconByte(6) == XTime(RconByte(5));
    assert RconByte(7) == XTime(RconByte(6));
    assert RconByte(8) == XTime(RconByte(7));
    assert RconByte(9) == XTime(RconByte(8));
    assert RconByte(10) == XTime(RconByte(9));
  }

  lemma PackByte(b: bv8)
    ensures Pack(b, 0, 0, 0) == b as bv32
  {
  }

  /** The table of round constants holds the standard's. */
  lemma RcoTabIsRcon(i: nat)
    requires i < 10
    ensures RCO_TAB[i] == RconWord(i + 1)
  {
    FirstRcons();
    LaterRcons();
    PackByte(RconByte(i + 1));
    hide Pack, RconByte;
  }

  lemma XorComm(x: bv32, y: bv32)
    ensures Xor(x, y) == Xor(y, x)
  {
  }

  /** Words of a key or a block, in the byte order of memory. */
  function Words(bytes: seq<bv8>): (w: seq<bv32>)
    ensures |w| == |bytes| / 4
  {
    seq(|bytes| / 4, i requires 0 <= i < |bytes| / 4 =>
      Pack(bytes[4 * i], bytes[4 * i + 1], bytes[4 * i + 2], bytes[4 * i + 3]))
  }

  /** The first `n` words of `enc` are those of the expanded key. */
  ghost predicate Matches(box: Box, key: seq<bv32>, enc: seq<bv32>, n: nat)
    requires KeyWords(|key|)
  {
    n <= |enc| && forall k :: 0 <= k < n ==> enc[k] == ExpandedWord(box, key, k)
  }

  lemma Fewer(box: Box, key: seq<bv32>, enc: seq<bv32>, n: nat, m: nat)
    requires KeyWords(|key|) && Matches(box, key, enc, n) && m <= n
    ensures Matches(box, key, enc, m)
  {
  }

  /** Word `i` is the sum of the previous word and the one `nk` words back. */
  predicate Plain(nk: nat, i: nat)
    requires 0 < nk
  {
    i % nk != 0 && !(nk > 6 && i % nk == 4)
  }

  lemma RowStart(nk: nat, i: nat)
    requires KeyWords(nk)
    ensures (nk * i + nk) % nk == 0 && (nk * i + nk) / nk == i + 1
  {
  }

  lemma StepIndices(nk: nat, i: nat, count: nat)
    requires KeyWords(nk) && 0 < count <= nk && (nk == 8 ==> count == 4)
    ensures forall j :: nk * i + nk < j < nk * i + nk + count ==> Plain(nk, j)
  {
  }

  lemma FirstOfRow(box: Box, key: seq<bv32>, nk: nat, i: nat)
    requires KeyWords(nk) && nk == |key|
    ensures ExpandedWord(box, key, nk * i + nk) ==
            Xor(ExpandedWord(box, key, nk * i),
                Xor(SubWord(box.fwd, Ror8(ExpandedWord(box, key, nk * i + nk - 1))), RconWord(i + 1)))
  {
    hide Xor, SubWord, Ror8, RconWord;
    RowStart(nk, i);
  }

  /** The middle word of a run of eight goes through the S-box too. */
  lemma MiddleOfRow(box: Box, key: seq<bv32>, i: nat)
    requires |key| == 8
    ensures ExpandedWord(box, key, 8 * i + 12) ==
            Xor(ExpandedWord(box, key, 8 * i + 4), SubWord(box.fwd, ExpandedWord(box, key, 8 * i + 11)))
    ensures forall j :: 8 * i + 12 < j < 8 * i + 16 ==> Plain(8, j)
  {
    hide Xor, SubWord, Ror8, RconWord;
    assert (8 * i + 12) % 8 == 4;
  }

  /** Where word `i` of the encryption keys goes among the decryption keys. */
  function Mirror(last: nat, i: nat): (j: nat)
    requires last % 4 == 0 && 4 <= i < last
    ensures 4 <= j < last
  {
    last - (i - i % 4) + i % 4
  }

  lemma MirrorTwice(last: nat, i: nat)
    requires last % 4 == 0 && 4 <= i < last
    ensures Mirror(last, Mirror(last, i)) == i
  {
  }

  // ----- Schedules -------------------------------------------------------------------

  function KeyBytes(n: nat): bool { n == 16 || n == 24 || n == 32 }

  /** Rounds of the cipher for a key of `n` bytes. */
  function Rounds(n: nat): nat { n / 4 + 6 }

  /** The two schedules of a key: the expanded key, and its reverse for decryption. */
  ghost predicate Expanded(box: Box, key: seq<bv8>, enc: seq<bv32>, dec: seq<bv32>)
    requires KeyBytes(|key|)
  {
    && Matches(box, Words(key), enc, |key| + 28)
    && Reversed(enc, dec, Rounds(|key|))
  }

  /** Mirrored words, each through the inverse column mix, make a reversed schedule. */
  lemma MirroredIsReversed(enc: seq<bv32>, dec: seq<bv32>, rounds: nat)
    requires 0 < rounds && 4 * rounds + 4 <= |enc| && 4 * rounds + 4 <= |dec|
    requires forall k :: 4 <= k < 4 * rounds ==> dec[Mirror(4 * rounds, k)] == ImixCol(enc[k])
    requires Key(dec, 0) == Key(enc, rounds) && Key(dec, rounds) == Key(enc, 0)
    ensures Reversed(enc, dec, rounds)
  {
    hide ImixCol, InvMixCol, Key, Mirror;
    forall r | 0 < r < rounds ensures Key(dec, r) == InvMixColumns(Key(enc, rounds - r)) {
      MirroredRound(enc, dec, rounds, r);
    }
  }

  lemma MirroredRound(enc: seq<bv32>, dec: seq<bv32>, rounds: nat, r: nat)
    requires 0 < r < rounds && 4 * rounds + 4 <= |enc| && 4 * rounds + 4 <= |dec|
    requires forall k :: 4 <= k < 4 * rounds ==> dec[Mirror(4 * rounds, k)] == ImixCol(enc[k])
    ensures Key(dec, r) == InvMixColumns(Key(enc, rounds - r))
  {
    hide ImixCol, InvMixCol;
    var from := 4 * (rounds - r);
    assert Mirror(4 * rounds, from) == 4 * r && Mirror(4 * rounds, from + 1) == 4 * r + 1;
    assert Mirror(4 * rounds, from + 2) == 4 * r + 2 && Mirror(4 * rounds, from + 3) == 4 * r + 3;
    ImixColIsInvMixCol(enc[from]);
    ImixColIsInvMixCol(enc[from + 1]);
    ImixColIsInvMixCol(enc[from + 2]);
    ImixColIsInvMixCol(enc[from + 3]);
  }

  // ----- Bytes -----------------------------------------------------------------------

  /** Sixteen bytes as four words, the first byte of each the least significant. */
  function Load(bytes: seq<bv8>): Block
    requires |bytes| == 16
  {
    Block(Pack(bytes[0], bytes[1], bytes[2], bytes[3]), Pack(bytes[4], bytes[5], bytes[6], bytes[7]),
          Pack(bytes[8], bytes[9], bytes[10], bytes[11]), Pack(bytes[12], bytes[13], bytes[14], bytes[15]))
  }

  function WordBytes(w: bv32): (bytes: seq<bv8>)
    ensures |bytes| == 4
  {
    [B0(w), B1(w), B2(w), B3(w)]
  }

  function Store(b: Block): (bytes: seq<bv8>)
    ensures |bytes| == 16
  {
    WordBytes(b.w0) + WordBytes(b.w1) + WordBytes(b.w2) + WordBytes(b.w3)
  }

  lemma StoreLoad(bytes: seq<bv8>)
    requires |bytes| == 16
    ensures Store(Load(bytes)) == bytes
  {
    hide Pack, B0, B1, B2, B3;
    UnpackAll(bytes[0], bytes[1], bytes[2], bytes[3]);
    UnpackAll(bytes[4], bytes[5], bytes[6], bytes[7]);
    UnpackAll(bytes[8], bytes[9], bytes[10], bytes[11]);
    UnpackAll(bytes[12], bytes[13], bytes[14], bytes[15]);
  }

  lemma LoadStore(b: Block)
    ensures Load(Store(b)) == b
  {
    hide Pack, B0, B1, B2, B3;
    Repack(b.w0);
    Repack(b.w1);
    Repack(b.w2);
    Repack(b.w3);
  }

  function EncryptBytes(box: Box, enc: seq<bv32>, rounds: nat, bytes: seq<bv8>): (r: seq<bv8>)
    requires 0 < rounds && 4 * rounds + 4 <= |enc| && |bytes| == 16
    ensures |r| == 16
  {
    Store(Encrypt(box, enc, rounds, Load(bytes)))
  }

  function DecryptBytes(box: Box, dec: seq<bv32>, rounds: nat, bytes: seq<bv8>): (r: seq<bv8>)
    requires 0 < rounds && 4 * rounds + 4 <= |dec| && |bytes| == 16
    ensures |r| == 16
  {
    Store(Decrypt(box, dec, rounds, Load(bytes)))
  }

  /** For every key of 16, 24 or 32 bytes, every block and every S-box with an inverse,
      decryption with the expanded schedule undoes encryption with it. */
  lemma CipherRoundTrip(box: Box, key: seq<bv8>, enc: seq<bv32>, dec: seq<bv32>, bytes: seq<bv8>)
    requires Bijective(box) && KeyBytes(|key|) && Expanded(box, key, enc, dec) && |bytes| == 16
    ensures DecryptBytes(box, dec, Rounds(|key|), EncryptBytes(box, enc, Rounds(|key|), bytes)) == bytes
  {
    hide Bijective, Encrypt, Decrypt, Load, Store, Reversed, Matches;
    assert 4 * Rounds(|key|) + 4 <= |enc| && 4 * Rounds(|key|) + 4 <= |dec| by { Fits(box, key, enc, dec); }
    DecryptUndoesEncrypt(box, enc, dec, Rounds(|key|), Load(bytes));
    LoadStore(Encrypt(box, enc, Rounds(|key|), Load(bytes)));
    StoreLoad(bytes);
  }

  lemma Fits(box: Box, key: seq<bv8>, enc: seq<bv32>, dec: seq<bv32>)
    requires KeyBytes(|key|) && Expanded(box, key, enc, dec)
    ensures 4 * Rounds(|key|) + 4 <= |enc| && 4 * Rounds(|key|) + 4 <= |dec|
  {
  }

  // ----- The standard's cipher -------------------------------------------------------

  /** Round key `r` of the standard: four words of the expanded key. */
  function RoundKey(box: Box, key: seq<bv32>, r: nat): Block
    requires KeyWords(|key|)
  {
    Block(ExpandedWord(box, key, 4 * r), ExpandedWord(box, key, 4 * r + 1),
          ExpandedWord(box, key, 4 * r + 2), ExpandedWord(box, key, 4 * r + 3))
  }

  /** The state after `r` rounds (section 5.1 of FIPS 197). */
  function StandardRounds(box: Box, key: seq<bv32>, r: nat, x: Block): Block
    requires KeyWords(|key|)
  {
    if r == 0 then AddRoundKey(x, RoundKey(box, key, 0))
    else AddRoundKey(MixColumns(ShiftRows(SubBytes(box.fwd, StandardRounds(box, key, r - 1, x)))), RoundKey(box, key, r))
  }

  /** The cipher of section 5.1 of FIPS 197 over the key expansion of section 5.2. */
  function StandardCipher(box: Box, key: seq<bv32>, x: Block): Block
    requires KeyWords(|key|)
  {
    AddRoundKey(ShiftRows(SubBytes(box.fwd, StandardRounds(box, key, |key| + 5, x))), RoundKey(box, key, |key| + 6))
  }

  lemma {:induction false} RoundsAreStandard(box: Box, key: seq<bv32>, enc: seq<bv32>, r: nat, x: Block)
    requires KeyWords(|key|) && Matches(box, key, enc, 4 * |key| + 28) && r <= |key| + 6
    ensures EncryptRounds(box, enc, r, x) == StandardRounds(box, key, r, x)
  {
    hide AddRoundKey, MixColumns, ShiftRows, SubBytes, ForwardRound, ExpandedWord;
    KeyMatches(box, key, enc, r);
    if r > 0 {
      RoundsAreStandard(box, key, enc, r - 1, x);
      ForwardRoundIsStandard(box, EncryptRounds(box, enc, r - 1, x), Key(enc, r));
    }
  }

  lemma LoadedMatches(box: Box, key: seq<bv32>, enc: seq<bv32>)
    requires KeyWords(|key|) && |key| <= |enc| && forall i :: 0 <= i < |key| ==> enc[i] == key[i]
    ensures Matches(box, key, enc, |key|) && ExpandedWord(box, key, |key| - 1) == key[|key| - 1]
  {
  }

  lemma EndKeys(box: Box, key: seq<bv32>, enc: seq<bv32>, dec: seq<bv32>)
    requires KeyWords(|key|) && Matches(box, key, enc, 4 * |key| + 28) && 4 * |key| + 28 <= |dec|
    requires forall c :: 0 <= c < 4 ==> dec[c] == enc[4 * |key| + 24 + c]
    requires forall c :: 0 <= c < 4 ==> dec[4 * |key| + 24 + c] == key[c]
    ensures Key(dec, 0) == Key(enc, |key| + 6) && Key(dec, |key| + 6) == Key(enc, 0)
  {
    hide Xor, SubWord, Ror8, RconWord;
    assert forall c :: 0 <= c < 4 ==> key[c] == enc[c];
  }

  lemma KeyMatches(box: Box, key: seq<bv32>, enc: seq<bv32>, r: nat)
    requires KeyWords(|key|) && Matches(box, key, enc, 4 * |key| + 28) && r <= |key| + 6
    ensures 4 * r + 4 <= |enc| && Key(enc, r) == RoundKey(box, key, r)
  {
    hide ExpandedWord;
  }

  /** The table-driven cipher with the expanded schedule is the standard's cipher. */
  lemma EncryptIsStandard(box: Box, key: seq<bv32>, enc: seq<bv32>, x: Block)
    requires KeyWords(|key|) && Matches(box, key, enc, 4 * |key| + 28)
    ensures Encrypt(box, enc, |key| + 6, x) == StandardCipher(box, key, x)
  {
    hide AddRoundKey, MixColumns, ShiftRows, SubBytes, ForwardLast, ExpandedWord, EncryptRounds, StandardRounds;
    KeyMatches(box, key, enc, |key| + 6);
    RoundsAreStandard(box, key, enc, |key| + 5, x);
    ForwardRoundIsStandard(box, EncryptRounds(box, enc, |key| + 5, x), Key(enc, |key| + 6));
  }
}
