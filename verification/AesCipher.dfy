/** The table-driven cipher against the standard's description of it.  The tables are the
    formulas they tabulate, over any S-box that has an inverse. */
module AesCipher {
  import opened AesField

  /** A substitution of bytes and its inverse. */
  datatype Box = Box(fwd: bv8 -> bv8, inv: bv8 -> bv8)

  ghost predicate Bijective(box: Box) {
    forall x: bv8 :: box.inv(box.fwd(x)) == x && box.fwd(box.inv(x)) == x
  }

  /** Four columns of state, or four words of round key. */
  datatype Block = Block(w0: bv32, w1: bv32, w2: bv32, w3: bv32)

  // ----- The tables ------------------------------------------------------------------

  /** Forward tables: the S-box with the column mix. */
  function Ft0(box: Box, x: bv8): bv32 { var s := box.fwd(x); Pack(XTime(s), s, s, Mul3(s)) }
  function Ft1(box: Box, x: bv8): bv32 { var s := box.fwd(x); Pack(Mul3(s), XTime(s), s, s) }
  function Ft2(box: Box, x: bv8): bv32 { var s := box.fwd(x); Pack(s, Mul3(s), XTime(s), s) }
  function Ft3(box: Box, x: bv8): bv32 { var s := box.fwd(x); Pack(s, s, Mul3(s), XTime(s)) }

  /** Forward tables of the last round: the S-box alone. */
  function Fl0(box: Box, x: bv8): bv32 { var s := box.fwd(x); Pack(s, 0, 0, 0) }
  function Fl1(box: Box, x: bv8): bv32 { var s := box.fwd(x); Pack(0, s, 0, 0) }
  function Fl2(box: Box, x: bv8): bv32 { var s := box.fwd(x); Pack(0, 0, s, 0) }
  function Fl3(box: Box, x: bv8): bv32 { var s := box.fwd(x); Pack(0, 0, 0, s) }

  /** Inverse tables: the inverse S-box with the inverse column mix. */
  function It0(box: Box, x: bv8): bv32 { var s := box.inv(x); Pack(MulE(s), Mul9(s), MulD(s), MulB(s)) }
  function It1(box: Box, x: bv8): bv32 { var s := box.inv(x); Pack(MulB(s), MulE(s), Mul9(s), MulD(s)) }
  function It2(box: Box, x: bv8): bv32 { var s := box.inv(x); Pack(MulD(s), MulB(s), MulE(s), Mul9(s)) }
  function It3(box: Box, x: bv8): bv32 { var s := box.inv(x); Pack(Mul9(s), MulD(s), MulB(s), MulE(s)) }

  /** Inverse tables of the last round: the inverse S-box alone. */
  function Il0(box: Box, x: bv8): bv32 { var s := box.inv(x); Pack(s, 0, 0, 0) }
  function Il1(box: Box, x: bv8): bv32 { var s := box.inv(x); Pack(0, s, 0, 0) }
  function Il2(box: Box, x: bv8): bv32 { var s := box.inv(x); Pack(0, 0, s, 0) }
  function Il3(box: Box, x: bv8): bv32 { var s := box.inv(x); Pack(0, 0, 0, s) }

  // ----- Rounds ----------------------------------------------------------------------

  function ForwardWord(box: Box, a: bv32, b: bv32, c: bv32, d: bv32, k: bv32): bv32 {
    Xor(Xor(Xor(Xor(Ft0(box, B0(a)), Ft1(box, B1(b))), Ft2(box, B2(c))), Ft3(box, B3(d))), k)
  }

  function ForwardLastWord(box: Box, a: bv32, b: bv32, c: bv32, d: bv32, k: bv32): bv32 {
    Xor(Xor(Xor(Xor(Fl0(box, B0(a)), Fl1(box, B1(b))), Fl2(box, B2(c))), Fl3(box, B3(d))), k)
  }

  function InverseWord(box: Box, a: bv32, b: bv32, c: bv32, d: bv32, k: bv32): bv32 {
    Xor(Xor(Xor(Xor(It0(box, B0(a)), It1(box, B1(b))), It2(box, B2(c))), It3(box, B3(d))), k)
  }

  function InverseLastWord(box: Box, a: bv32, b: bv32, c: bv32, d: bv32, k: bv32): bv32 {
    Xor(Xor(Xor(Xor(Il0(box, B0(a)), Il1(box, B1(b))), Il2(box, B2(c))), Il3(box, B3(d))), k)
  }

  /** A round of encryption: row r of a column comes from the r-th next column. */
  function ForwardRound(box: Box, b: Block, k: Block): Block {
    Block(ForwardWord(box, b.w0, b.w1, b.w2, b.w3, k.w0), ForwardWord(box, b.w1, b.w2, b.w3, b.w0, k.w1),
          ForwardWord(box, b.w2, b.w3, b.w0, b.w1, k.w2), ForwardWord(box, b.w3, b.w0, b.w1, b.w2, k.w3))
  }

  /** The last round of encryption. */
  function ForwardLast(box: Box, b: Block, k: Block): Block {
    Block(ForwardLastWord(box, b.w0, b.w1, b.w2, b.w3, k.w0), ForwardLastWord(box, b.w1, b.w2, b.w3, b.w0, k.w1),
          ForwardLastWord(box, b.w2, b.w3, b.w0, b.w1, k.w2), ForwardLastWord(box, b.w3, b.w0, b.w1, b.w2, k.w3))
  }

  /** A round of decryption: row r of a column comes from the r-th previous column. */
  function InverseRound(box: Box, b: Block, k: Block): Block {
    Block(InverseWord(box, b.w0, b.w3, b.w2, b.w1, k.w0), InverseWord(box, b.w1, b.w0, b.w3, b.w2, k.w1),
          InverseWord(box, b.w2, b.w1, b.w0, b.w3, k.w2), InverseWord(box, b.w3, b.w2, b.w1, b.w0, k.w3))
  }

  /** The last round of decryption. */
  function InverseLast(box: Box, b: Block, k: Block): Block {
    Block(InverseLastWord(box, b.w0, b.w3, b.w2, b.w1, k.w0), InverseLastWord(box, b.w1, b.w0, b.w3, b.w2, k.w1),
          InverseLastWord(box, b.w2, b.w1, b.w0, b.w3, k.w2), InverseLastWord(box, b.w3, b.w2, b.w1, b.w0, k.w3))
  }

  // ----- The standard's description --------------------------------------------------

  function SubWord(f: bv8 -> bv8, w: bv32): bv32 { Pack(f(B0(w)), f(B1(w)), f(B2(w)), f(B3(w))) }

  /** Sections 5.1.1 and 5.3.2 of FIPS 197. */
  function SubBytes(f: bv8 -> bv8, b: Block): Block {
    Block(SubWord(f, b.w0), SubWord(f, b.w1), SubWord(f, b.w2), SubWord(f, b.w3))
  }

  /** Section 5.1.2 of FIPS 197. */
  function ShiftRows(b: Block): Block {
    Block(Pack(B0(b.w0), B1(b.w1), B2(b.w2), B3(b.w3)), Pack(B0(b.w1), B1(b.w2), B2(b.w3), B3(b.w0)),
          Pack(B0(b.w2), B1(b.w3), B2(b.w0), B3(b.w1)), Pack(B0(b.w3), B1(b.w0), B2(b.w1), B3(b.w2)))
  }

  /** Section 5.3.1 of FIPS 197. */
  function InvShiftRows(b: Block): Block {
    Block(Pack(B0(b.w0), B1(b.w3), B2(b.w2), B3(b.w1)), Pack(B0(b.w1), B1(b.w0), B2(b.w3), B3(b.w2)),
          Pack(B0(b.w2), B1(b.w1), B2(b.w0), B3(b.w3)), Pack(B0(b.w3), B1(b.w2), B2(b.w1), B3(b.w0)))
  }

  function MixColumns(b: Block): Block { Block(MixCol(b.w0), MixCol(b.w1), MixCol(b.w2), MixCol(b.w3)) }

  function InvMixColumns(b: Block): Block {
    Block(InvMixCol(b.w0), InvMixCol(b.w1), InvMixCol(b.w2), InvMixCol(b.w3))
  }

  /** Section 5.1.4 of FIPS 197. */
  function AddRoundKey(b: Block, k: Block): Block {
    Block(Xor(b.w0, k.w0), Xor(b.w1, k.w1), Xor(b.w2, k.w2), Xor(b.w3, k.w3))
  }

  // ----- The tables compute the rounds -----------------------------------------------

  lemma LeftSum(a: bv8, b: bv8, c: bv8, d: bv8)
    ensures Add(Add(Add(a, b), c), d) == Sum4(a, b, c, d)
  {
    hide Add;
    AddAssoc(Add(a, b), c, d);
  }

  /** Four packed words added up, column of bytes by column of bytes. */
  lemma PackSum(a0: bv8, a1: bv8, a2: bv8, a3: bv8, b0: bv8, b1: bv8, b2: bv8, b3: bv8,
                c0: bv8, c1: bv8, c2: bv8, c3: bv8, d0: bv8, d1: bv8, d2: bv8, d3: bv8)
    ensures Xor(Xor(Xor(Pack(a0, a1, a2, a3), Pack(b0, b1, b2, b3)), Pack(c0, c1, c2, c3)), Pack(d0, d1, d2, d3)) ==
            Pack(Sum4(a0, b0, c0, d0), Sum4(a1, b1, c1, d1), Sum4(a2, b2, c2, d2), Sum4(a3, b3, c3, d3))
  {
    hide Xor, Pack, Add, Sum4;
    PackAdd(a0, a1, a2, a3, b0, b1, b2, b3);
    PackAdd(Add(a0, b0), Add(a1, b1), Add(a2, b2), Add(a3, b3), c0, c1, c2, c3);
    PackAdd(Add(Add(a0, b0), c0), Add(Add(a1, b1), c1), Add(Add(a2, b2), c2), Add(Add(a3, b3), c3), d0, d1, d2, d3);
    LeftSum(a0, b0, c0, d0);
    LeftSum(a1, b1, c1, d1);
    LeftSum(a2, b2, c2, d2);
    LeftSum(a3, b3, c3, d3);
  }

  lemma AddZeroLeft(a: bv8)
    ensures Add(0, a) == a
  {
    hide Add;
    AddComm(0, a);
    AddZero(a);
  }

  lemma OneOfFour(a: bv8)
    ensures Sum4(a, 0, 0, 0) == a && Sum4(0, a, 0, 0) == a && Sum4(0, 0, a, 0) == a && Sum4(0, 0, 0, a) == a
  {
    hide Add;
    AddZero(a);
    AddZero(0);
    AddZeroLeft(a);
  }

  lemma ForwardWordIsMix(box: Box, a: bv32, b: bv32, c: bv32, d: bv32, k: bv32)
    ensures ForwardWord(box, a, b, c, d, k) ==
            Xor(MixCol(Pack(box.fwd(B0(a)), box.fwd(B1(b)), box.fwd(B2(c)), box.fwd(B3(d)))), k)
  {
    hide Xor, Pack, B0, B1, B2, B3, Sum4, XTime, Mul3;
    var p, q, r, s := box.fwd(B0(a)), box.fwd(B1(b)), box.fwd(B2(c)), box.fwd(B3(d));
    PackSum(XTime(p), p, p, Mul3(p), Mul3(q), XTime(q), q, q,
            r, Mul3(r), XTime(r), r, s, s, Mul3(s), XTime(s));
    UnpackAll(p, q, r, s);
  }

  lemma InverseWordIsMix(box: Box, a: bv32, b: bv32, c: bv32, d: bv32, k: bv32)
    ensures InverseWord(box, a, b, c, d, k) ==
            Xor(InvMixCol(Pack(box.inv(B0(a)), box.inv(B1(b)), box.inv(B2(c)), box.inv(B3(d)))), k)
  {
    hide Xor, Pack, B0, B1, B2, B3, Sum4, XTime, Mul9, MulB, MulD, MulE;
    var p, q, r, s := box.inv(B0(a)), box.inv(B1(b)), box.inv(B2(c)), box.inv(B3(d));
    PackSum(MulE(p), Mul9(p), MulD(p), MulB(p), MulB(q), MulE(q), Mul9(q), MulD(q),
            MulD(r), MulB(r), MulE(r), Mul9(r), Mul9(s), MulD(s), MulB(s), MulE(s));
    UnpackAll(p, q, r, s);
  }

  lemma ForwardLastWordIsSub(box: Box, a: bv32, b: bv32, c: bv32, d: bv32, k: bv32)
    ensures ForwardLastWord(box, a, b, c, d, k) ==
            Xor(Pack(box.fwd(B0(a)), box.fwd(B1(b)), box.fwd(B2(c)), box.fwd(B3(d))), k)
  {
    hide Xor, Pack, B0, B1, B2, B3, Sum4;
    var p, q, r, s := box.fwd(B0(a)), box.fwd(B1(b)), box.fwd(B2(c)), box.fwd(B3(d));
    PackSum(p, 0, 0, 0, 0, q, 0, 0, 0, 0, r, 0, 0, 0, 0, s);
    OneOfFour(p);
    OneOfFour(q);
    OneOfFour(r);
    OneOfFour(s);
  }

  lemma InverseLastWordIsSub(box: Box, a: bv32, b: bv32, c: bv32, d: bv32, k: bv32)
    ensures InverseLastWord(box, a, b, c, d, k) ==
            Xor(Pack(box.inv(B0(a)), box.inv(B1(b)), box.inv(B2(c)), box.inv(B3(d))), k)
  {
    hide Xor, Pack, B0, B1, B2, B3, Sum4;
    var p, q, r, s := box.inv(B0(a)), box.inv(B1(b)), box.inv(B2(c)), box.inv(B3(d));
    PackSum(p, 0, 0, 0, 0, q, 0, 0, 0, 0, r, 0, 0, 0, 0, s);
    OneOfFour(p);
    OneOfFour(q);
    OneOfFour(r);
    OneOfFour(s);
  }

  lemma SubWordBytes(f: bv8 -> bv8, w: bv32)
    ensures B0(SubWord(f, w)) == f(B0(w)) && B1(SubWord(f, w)) == f(B1(w))
    ensures B2(SubWord(f, w)) == f(B2(w)) && B3(SubWord(f, w)) == f(B3(w))
  {
    hide Pack, B0, B1, B2, B3;
    UnpackAll(f(B0(w)), f(B1(w)), f(B2(w)), f(B3(w)));
  }

  lemma SubBytesBytes(f: bv8 -> bv8, b: Block)
    ensures ShiftRows(SubBytes(f, b)) == Block(
      Pack(f(B0(b.w0)), f(B1(b.w1)), f(B2(b.w2)), f(B3(b.w3))), Pack(f(B0(b.w1)), f(B1(b.w2)), f(B2(b.w3)), f(B3(b.w0))),
      Pack(f(B0(b.w2)), f(B1(b.w3)), f(B2(b.w0)), f(B3(b.w1))), Pack(f(B0(b.w3)), f(B1(b.w0)), f(B2(b.w1)), f(B3(b.w2))))
    ensures InvShiftRows(SubBytes(f, b)) == Block(
      Pack(f(B0(b.w0)), f(B1(b.w3)), f(B2(b.w2)), f(B3(b.w1))), Pack(f(B0(b.w1)), f(B1(b.w0)), f(B2(b.w3)), f(B3(b.w2))),
      Pack(f(B0(b.w2)), f(B1(b.w1)), f(B2(b.w0)), f(B3(b.w3))), Pack(f(B0(b.w3)), f(B1(b.w2)), f(B2(b.w1)), f(B3(b.w0))))
  {
    hide Pack, B0, B1, B2, B3, SubWord;
    SubWordBytes(f, b.w0);
    SubWordBytes(f, b.w1);
    SubWordBytes(f, b.w2);
    SubWordBytes(f, b.w3);
  }

  /** A table-driven round of encryption is the standard's round (section 5.1 of FIPS 197). */
  lemma ForwardRoundIsStandard(box: Box, b: Block, k: Block)
    ensures ForwardRound(box, b, k) == AddRoundKey(MixColumns(ShiftRows(SubBytes(box.fwd, b))), k)
    ensures ForwardLast(box, b, k) == AddRoundKey(ShiftRows(SubBytes(box.fwd, b)), k)
  {
    hide Xor, Pack, B0, B1, B2, B3, MixCol, ForwardWord, ForwardLastWord, ShiftRows, SubBytes;
    SubBytesBytes(box.fwd, b);
    ForwardWordIsMix(box, b.w0, b.w1, b.w2, b.w3, k.w0);
    ForwardWordIsMix(box, b.w1, b.w2, b.w3, b.w0, k.w1);
    ForwardWordIsMix(box, b.w2, b.w3, b.w0, b.w1, k.w2);
    ForwardWordIsMix(box, b.w3, b.w0, b.w1, b.w2, k.w3);
    ForwardLastWordIsSub(box, b.w0, b.w1, b.w2, b.w3, k.w0);
    ForwardLastWordIsSub(box, b.w1, b.w2, b.w3, b.w0, k.w1);
    ForwardLastWordIsSub(box, b.w2, b.w3, b.w0, b.w1, k.w2);
    ForwardLastWordIsSub(box, b.w3, b.w0, b.w1, b.w2, k.w3);
  }

  /** A table-driven round of decryption is the round of the Equivalent Inverse Cipher
      (section 5.3.5 of FIPS 197). */
  lemma InverseRoundIsStandard(box: Box, b: Block, k: Block)
    ensures InverseRound(box, b, k) == AddRoundKey(InvMixColumns(InvShiftRows(SubBytes(box.inv, b))), k)
    ensures InverseLast(box, b, k) == AddRoundKey(InvShiftRows(SubBytes(box.inv, b)), k)
  {
    hide Xor, Pack, B0, B1, B2, B3, InvMixCol, InverseWord, InverseLastWord, InvShiftRows, SubBytes;
    SubBytesBytes(box.inv, b);
    InverseWordIsMix(box, b.w0, b.w3, b.w2, b.w1, k.w0);
    InverseWordIsMix(box, b.w1, b.w0, b.w3, b.w2, k.w1);
    InverseWordIsMix(box, b.w2, b.w1, b.w0, b.w3, k.w2);
    InverseWordIsMix(box, b.w3, b.w2, b.w1, b.w0, k.w3);
    InverseLastWordIsSub(box, b.w0, b.w3, b.w2, b.w1, k.w0);
    InverseLastWordIsSub(box, b.w1, b.w0, b.w3, b.w2, k.w1);
    InverseLastWordIsSub(box, b.w2, b.w1, b.w0, b.w3, k.w2);
    InverseLastWordIsSub(box, b.w3, b.w2, b.w1, b.w0, k.w3);
  }

  // ----- Undoing ---------------------------------------------------------------------

  /** Substitution commutes with shifting rows, and the inverses undo the two. */
  lemma InvSubShiftUndoes(box: Box, b: Block)
    requires Bijective(box)
    ensures InvShiftRows(SubBytes(box.inv, ShiftRows(SubBytes(box.fwd, b)))) == b
  {
    var f, g := box.fwd, box.inv;
    var c := ShiftRows(SubBytes(f, b));
    SubBytesBytes(f, b);
    SubBytesBytes(g, c);
    hide Pack, B0, B1, B2, B3, SubBytes, ShiftRows, InvShiftRows;
    UnpackAll(f(B0(b.w0)), f(B1(b.w1)), f(B2(b.w2)), f(B3(b.w3)));
    UnpackAll(f(B0(b.w1)), f(B1(b.w2)), f(B2(b.w3)), f(B3(b.w0)));
    UnpackAll(f(B0(b.w2)), f(B1(b.w3)), f(B2(b.w0)), f(B3(b.w1)));
    UnpackAll(f(B0(b.w3)), f(B1(b.w0)), f(B2(b.w1)), f(B3(b.w2)));
    Repack(b.w0);
    Repack(b.w1);
    Repack(b.w2);
    Repack(b.w3);
  }

  lemma AddRoundKeyTwice(b: Block, k: Block)
    ensures AddRoundKey(AddRoundKey(b, k), k) == b
  {
    hide Xor;
    WordXorCancel(b.w0, k.w0);
    WordXorCancel(b.w1, k.w1);
    WordXorCancel(b.w2, k.w2);
    WordXorCancel(b.w3, k.w3);
  }

  lemma InvMixUndoesMix(b: Block, k: Block)
    ensures InvMixColumns(AddRoundKey(MixColumns(b), k)) == AddRoundKey(b, InvMixColumns(k))
  {
    hide Xor, MixCol, InvMixCol;
    InvMixColMixCol(b.w0);
    InvMixColMixCol(b.w1);
    InvMixColMixCol(b.w2);
    InvMixColMixCol(b.w3);
    InvMixColXor(MixCol(b.w0), k.w0);
    InvMixColXor(MixCol(b.w1), k.w1);
    InvMixColXor(MixCol(b.w2), k.w2);
    InvMixColXor(MixCol(b.w3), k.w3);
  }

  // ----- The cipher ------------------------------------------------------------------

  /** Round key number `r` of a schedule. */
  function Key(ks: seq<bv32>, r: nat): Block
    requires 4 * r + 4 <= |ks|
  {
    Block(ks[4 * r], ks[4 * r + 1], ks[4 * r + 2], ks[4 * r + 3])
  }

  function EncryptRounds(box: Box, enc: seq<bv32>, r: nat, x: Block): Block
    requires 4 * r + 4 <= |enc|
  {
    if r == 0 then AddRoundKey(x, Key(enc, 0))
    else ForwardRound(box, EncryptRounds(box, enc, r - 1, x), Key(enc, r))
  }

  function Encrypt(box: Box, enc: seq<bv32>, rounds: nat, x: Block): Block
    requires 0 < rounds && 4 * rounds + 4 <= |enc|
  {
    ForwardLast(box, EncryptRounds(box, enc, rounds - 1, x), Key(enc, rounds))
  }

  function DecryptRounds(box: Box, dec: seq<bv32>, r: nat, y: Block): Block
    requires 4 * r + 4 <= |dec|
  {
    if r == 0 then AddRoundKey(y, Key(dec, 0))
    else InverseRound(box, DecryptRounds(box, dec, r - 1, y), Key(dec, r))
  }

  function Decrypt(box: Box, dec: seq<bv32>, rounds: nat, y: Block): Block
    requires 0 < rounds && 4 * rounds + 4 <= |dec|
  {
    InverseLast(box, DecryptRounds(box, dec, rounds - 1, y), Key(dec, rounds))
  }

  /** The round keys of decryption are those of encryption in reverse order, the inner ones
      through the inverse column mix (section 5.3.5 of FIPS 197). */
  ghost predicate Reversed(enc: seq<bv32>, dec: seq<bv32>, rounds: nat) {
    && 4 * rounds + 4 <= |enc| && 4 * rounds + 4 <= |dec|
    && Key(dec, 0) == Key(enc, rounds) && Key(dec, rounds) == Key(enc, 0)
    && forall r :: 0 < r < rounds ==> Key(dec, r) == InvMixColumns(Key(enc, rounds - r))
  }

  /** After r rounds of decryption the state is what it was r rounds before the end of
      encryption, just before the columns were mixed. */
  lemma {:induction false} HalfwayBack(box: Box, enc: seq<bv32>, dec: seq<bv32>, rounds: nat, r: nat, x: Block)
    requires Bijective(box) && Reversed(enc, dec, rounds) && r < rounds
    ensures DecryptRounds(box, dec, r, Encrypt(box, enc, rounds, x)) ==
            ShiftRows(SubBytes(box.fwd, EncryptRounds(box, enc, rounds - 1 - r, x)))
  {
    hide Bijective, SubBytes, ShiftRows, InvShiftRows, MixColumns, InvMixColumns, AddRoundKey,
         ForwardRound, ForwardLast, InverseRound, Key;
    var y := Encrypt(box, enc, rounds, x);
    if r == 0 {
      var last := EncryptRounds(box, enc, rounds - 1, x);
      ForwardRoundIsStandard(box, last, Key(enc, rounds));
      AddRoundKeyTwice(ShiftRows(SubBytes(box.fwd, last)), Key(enc, rounds));
    } else {
      HalfwayBack(box, enc, dec, rounds, r - 1, x);
      var here, before := EncryptRounds(box, enc, rounds - r, x), EncryptRounds(box, enc, rounds - r - 1, x);
      var k := Key(enc, rounds - r);
      InverseRoundIsStandard(box, DecryptRounds(box, dec, r - 1, y), Key(dec, r));
      InvSubShiftUndoes(box, here);
      ForwardRoundIsStandard(box, before, k);
      InvMixUndoesMix(ShiftRows(SubBytes(box.fwd, before)), k);
      AddRoundKeyTwice(ShiftRows(SubBytes(box.fwd, before)), InvMixColumns(k));
    }
  }

  /** Decryption with the reversed schedule undoes encryption, for every block, every
      schedule and every S-box with an inverse. */
  lemma DecryptUndoesEncrypt(box: Box, enc: seq<bv32>, dec: seq<bv32>, rounds: nat, x: Block)
    requires Bijective(box) && 0 < rounds && Reversed(enc, dec, rounds)
    ensures Decrypt(box, dec, rounds, Encrypt(box, enc, rounds, x)) == x
  {
    hide Bijective, SubBytes, ShiftRows, InvShiftRows, AddRoundKey, InverseLast, Key, DecryptRounds, Encrypt;
    var y := Encrypt(box, enc, rounds, x);
    var first := EncryptRounds(box, enc, 0, x);
    assert first == AddRoundKey(x, Key(enc, 0));
    hide EncryptRounds;
    HalfwayBack(box, enc, dec, rounds, rounds - 1, x);
    InverseRoundIsStandard(box, DecryptRounds(box, dec, rounds - 1, y), Key(dec, rounds));
    InvSubShiftUndoes(box, first);
    AddRoundKeyTwice(x, Key(enc, 0));
  }
}
