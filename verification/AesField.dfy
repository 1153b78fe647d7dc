/** Bytes as elements of the field of AES, words as columns of four bytes, the first byte
    of a column in the low bits.  Facts about bits are proved one equation at a time; the
    algebra is built on them with the bit operations hidden. */
module AesField {

  function Add(a: bv8, b: bv8): bv8 { a ^ b }

  function Sum4(a: bv8, b: bv8, c: bv8, d: bv8): bv8 { Add(Add(a, b), Add(c, d)) }

  /** Multiplication by x (section 4.2.1 of FIPS 197). */
  function XTime(b: bv8): bv8 { Add(Shifted(b), Carry(b)) }

  function Shifted(b: bv8): bv8 { (b & 0x7f) << 1 }
  function Carry(b: bv8): bv8 { if b & 0x80 != 0 then 0x1b else 0 }

  function Mul3(b: bv8): bv8 { Add(XTime(b), b) }
  function Mul9(b: bv8): bv8 { Add(XTime(XTime(XTime(b))), b) }
  function MulB(b: bv8): bv8 { Add(Add(XTime(XTime(XTime(b))), XTime(b)), b) }
  function MulD(b: bv8): bv8 { Add(Add(XTime(XTime(XTime(b))), XTime(XTime(b))), b) }
  function MulE(b: bv8): bv8 { Add(Add(XTime(XTime(XTime(b))), XTime(XTime(b))), XTime(b)) }

  function Pack(b0: bv8, b1: bv8, b2: bv8, b3: bv8): bv32 {
    (b0 as bv32) | ((b1 as bv32) << 8) | ((b2 as bv32) << 16) | ((b3 as bv32) << 24)
  }

  function Xor(x: bv32, y: bv32): bv32 { x ^ y }

  function B0(x: bv32): bv8 { (x & 0xff) as bv8 }
  function B1(x: bv32): bv8 { ((x >> 8) & 0xff) as bv8 }
  function B2(x: bv32): bv8 { ((x >> 16) & 0xff) as bv8 }
  function B3(x: bv32): bv8 { ((x >> 24) & 0xff) as bv8 }

  function Ror8(x: bv32): bv32 { (x >> 8) | (x << 24) }
  function Ror16(x: bv32): bv32 { (x >> 16) | (x << 16) }
  function Ror24(x: bv32): bv32 { (x >> 24) | (x << 8) }

  /** Multiplication by x of the four bytes of a word at once. */
  function StarX(x: bv32): bv32 { ((x & 0x7f7f7f7f) << 1) ^ (((x & 0x80808080) >> 7) * 0x1b) }

  // ----- Facts about bits ------------------------------------------------------------

  lemma Unpack0(b0: bv8, b1: bv8, b2: bv8, b3: bv8)
    ensures B0(Pack(b0, b1, b2, b3)) == b0
  {
  }

  lemma Xor0(x: bv32, y: bv32)
    ensures B0(Xor(x, y)) == Add(B0(x), B0(y))
  {
  }

  lemma Star0(x: bv32)
    ensures B0(StarX(x)) == XTime(B0(x))
  {
  }

  lemma Ror8At0(x: bv32)
    ensures B0(Ror8(x)) == B1(x)
  {
  }

  lemma Ror16At0(x: bv32)
    ensures B0(Ror16(x)) == B2(x)
  {
  }

  lemma Ror24At0(x: bv32)
    ensures B0(Ror24(x)) == B3(x)
  {
  }

  lemma Unpack1(b0: bv8, b1: bv8, b2: bv8, b3: bv8)
    ensures B1(Pack(b0, b1, b2, b3)) == b1
  {
  }

  lemma Xor1(x: bv32, y: bv32)
    ensures B1(Xor(x, y)) == Add(B1(x), B1(y))
  {
  }

  lemma Star1(x: bv32)
    ensures B1(StarX(x)) == XTime(B1(x))
  {
  }

  lemma Ror8At1(x: bv32)
    ensures B1(Ror8(x)) == B2(x)
  {
  }

  lemma Ror16At1(x: bv32)
    ensures B1(Ror16(x)) == B3(x)
  {
  }

  lemma Ror24At1(x: bv32)
    ensures B1(Ror24(x)) == B0(x)
  {
  }

  lemma Unpack2(b0: bv8, b1: bv8, b2: bv8, b3: bv8)
    ensures B2(Pack(b0, b1, b2, b3)) == b2
  {
  }

  lemma Xor2(x: bv32, y: bv32)
    ensures B2(Xor(x, y)) == Add(B2(x), B2(y))
  {
  }

  lemma Star2(x: bv32)
    ensures B2(StarX(x)) == XTime(B2(x))
  {
  }

  lemma Ror8At2(x: bv32)
    ensures B2(Ror8(x)) == B3(x)
  {
  }

  lemma Ror16At2(x: bv32)
    ensures B2(Ror16(x)) == B0(x)
  {
  }

  lemma Ror24At2(x: bv32)
    ensures B2(Ror24(x)) == B1(x)
  {
  }

  lemma Unpack3(b0: bv8, b1: bv8, b2: bv8, b3: bv8)
    ensures B3(Pack(b0, b1, b2, b3)) == b3
  {
  }

  lemma Xor3(x: bv32, y: bv32)
    ensures B3(Xor(x, y)) == Add(B3(x), B3(y))
  {
  }

  lemma Star3(x: bv32)
    ensures B3(StarX(x)) == XTime(B3(x))
  {
  }

  lemma Ror8At3(x: bv32)
    ensures B3(Ror8(x)) == B0(x)
  {
  }

  lemma Ror16At3(x: bv32)
    ensures B3(Ror16(x)) == B1(x)
  {
  }

  lemma Ror24At3(x: bv32)
    ensures B3(Ror24(x)) == B2(x)
  {
  }

  lemma Repack(x: bv32)
    ensures Pack(B0(x), B1(x), B2(x), B3(x)) == x
  {
  }

  lemma ShiftedAdd(a: bv8, b: bv8)
    ensures Shifted(Add(a, b)) == Add(Shifted(a), Shifted(b))
  {
  }

  lemma CarryAdd(a: bv8, b: bv8)
    ensures Carry(Add(a, b)) == Add(Carry(a), Carry(b))
  {
  }

  lemma AddComm(a: bv8, b: bv8)
    ensures Add(a, b) == Add(b, a)
  {
  }

  lemma AddSelf(a: bv8)
    ensures Add(a, a) == 0
  {
  }

  lemma AddZero(a: bv8)
    ensures Add(a, 0) == a
  {
  }

  lemma AddAssoc(a: bv8, b: bv8, c: bv8)
    ensures Add(Add(a, b), c) == Add(a, Add(b, c))
  {
  }

  lemma WordXorCancel(x: bv32, y: bv32)
    ensures Xor(Xor(x, y), y) == x
  {
  }

  // ----- Sums ------------------------------------------------------------------------

  lemma AddZeros(a: bv8)
    ensures Sum4(a, 0, 0, 0) == a
  {
    hide Add;
    AddZero(a);
    AddZero(0);
  }

  lemma Swap(p: bv8, q: bv8, r: bv8, s: bv8)
    ensures Add(Add(p, q), Add(r, s)) == Add(Add(p, r), Add(q, s))
  {
    hide Add;
    AddAssoc(p, q, Add(r, s));
    AddAssoc(q, r, s);
    AddComm(q, r);
    AddAssoc(r, q, s);
    AddAssoc(p, r, Add(q, s));
  }

  /** A term added twice goes. */
  lemma Twice(a: bv8, b: bv8, c: bv8)
    ensures Add(Add(a, b), Add(c, b)) == Add(a, c)
    ensures Add(Add(a, b), Add(b, c)) == Add(a, c)
    ensures Add(Add(b, a), Add(b, c)) == Add(a, c)
    ensures Add(Add(b, a), b) == a && Add(Add(a, b), b) == a
  {
    hide Add;
    Swap(a, b, c, b);
    AddSelf(b);
    AddZero(Add(a, c));
    AddComm(b, c);
    AddComm(b, a);
    AddAssoc(a, b, b);
    AddZero(a);
  }

  lemma Turn(p: bv8, q: bv8, r: bv8, s: bv8)
    ensures Sum4(p, q, r, s) == Sum4(q, r, s, p)
  {
    hide Add;
    AddComm(p, q);
    Swap(q, p, r, s);
    AddComm(p, s);
  }

  lemma AddSums(p0: bv8, p1: bv8, p2: bv8, p3: bv8, q0: bv8, q1: bv8, q2: bv8, q3: bv8)
    ensures Add(Sum4(p0, p1, p2, p3), Sum4(q0, q1, q2, q3)) ==
            Sum4(Add(p0, q0), Add(p1, q1), Add(p2, q2), Add(p3, q3))
  {
    hide Add;
    Swap(Add(p0, p1), Add(p2, p3), Add(q0, q1), Add(q2, q3));
    Swap(p0, p1, q0, q1);
    Swap(p2, p3, q2, q3);
  }

  lemma Transpose(p0: bv8, p1: bv8, p2: bv8, p3: bv8, q0: bv8, q1: bv8, q2: bv8, q3: bv8,
                  r0: bv8, r1: bv8, r2: bv8, r3: bv8, s0: bv8, s1: bv8, s2: bv8, s3: bv8)
    ensures Sum4(Sum4(p0, p1, p2, p3), Sum4(q0, q1, q2, q3), Sum4(r0, r1, r2, r3), Sum4(s0, s1, s2, s3)) ==
            Sum4(Sum4(p0, q0, r0, s0), Sum4(p1, q1, r1, s1), Sum4(p2, q2, r2, s2), Sum4(p3, q3, r3, s3))
  {
    hide Add;
    AddSums(p0, p1, p2, p3, q0, q1, q2, q3);
    AddSums(r0, r1, r2, r3, s0, s1, s2, s3);
    AddSums(Add(p0, q0), Add(p1, q1), Add(p2, q2), Add(p3, q3), Add(r0, s0), Add(r1, s1), Add(r2, s2), Add(r3, s3));
  }

  // ----- Multiples of sums -----------------------------------------------------------

  lemma XTimeAdd(a: bv8, b: bv8)
    ensures XTime(Add(a, b)) == Add(XTime(a), XTime(b))
  {
    hide Add, Shifted, Carry;
    ShiftedAdd(a, b);
    CarryAdd(a, b);
    Swap(Shifted(a), Shifted(b), Carry(a), Carry(b));
  }

  lemma XTimes3(a: bv8, b: bv8)
    ensures XTime(XTime(Add(a, b))) == Add(XTime(XTime(a)), XTime(XTime(b)))
    ensures XTime(XTime(XTime(Add(a, b)))) == Add(XTime(XTime(XTime(a))), XTime(XTime(XTime(b))))
  {
    hide XTime, Add;
    XTimeAdd(a, b);
    XTimeAdd(XTime(a), XTime(b));
    XTimeAdd(XTime(XTime(a)), XTime(XTime(b)));
  }

  lemma Mul9Add(a: bv8, b: bv8)
    ensures Mul9(Add(a, b)) == Add(Mul9(a), Mul9(b))
  {
    hide XTime, Add;
    XTimes3(a, b);
    XTimeAdd(a, b);
    Swap(XTime(XTime(XTime(a))), XTime(XTime(XTime(b))), a, b);
  }

  lemma Mul9Sum(a: bv8, b: bv8, c: bv8, d: bv8)
    ensures Mul9(Sum4(a, b, c, d)) == Sum4(Mul9(a), Mul9(b), Mul9(c), Mul9(d))
  {
    hide Mul9, Add;
    Mul9Add(Add(a, b), Add(c, d));
    Mul9Add(a, b);
    Mul9Add(c, d);
  }

  lemma MulBAdd(a: bv8, b: bv8)
    ensures MulB(Add(a, b)) == Add(MulB(a), MulB(b))
  {
    hide XTime, Add;
    XTimes3(a, b);
    XTimeAdd(a, b);
    Swap(XTime(XTime(XTime(a))), XTime(XTime(XTime(b))), XTime(a), XTime(b));
    Swap(Add(XTime(XTime(XTime(a))), XTime(a)), Add(XTime(XTime(XTime(b))), XTime(b)), a, b);
  }

  lemma MulBSum(a: bv8, b: bv8, c: bv8, d: bv8)
    ensures MulB(Sum4(a, b, c, d)) == Sum4(MulB(a), MulB(b), MulB(c), MulB(d))
  {
    hide MulB, Add;
    MulBAdd(Add(a, b), Add(c, d));
    MulBAdd(a, b);
    MulBAdd(c, d);
  }

  lemma MulDAdd(a: bv8, b: bv8)
    ensures MulD(Add(a, b)) == Add(MulD(a), MulD(b))
  {
    hide XTime, Add;
    XTimes3(a, b);
    XTimeAdd(a, b);
    Swap(XTime(XTime(XTime(a))), XTime(XTime(XTime(b))), XTime(XTime(a)), XTime(XTime(b)));
    Swap(Add(XTime(XTime(XTime(a))), XTime(XTime(a))), Add(XTime(XTime(XTime(b))), XTime(XTime(b))), a, b);
  }

  lemma MulDSum(a: bv8, b: bv8, c: bv8, d: bv8)
    ensures MulD(Sum4(a, b, c, d)) == Sum4(MulD(a), MulD(b), MulD(c), MulD(d))
  {
    hide MulD, Add;
    MulDAdd(Add(a, b), Add(c, d));
    MulDAdd(a, b);
    MulDAdd(c, d);
  }

  lemma MulEAdd(a: bv8, b: bv8)
    ensures MulE(Add(a, b)) == Add(MulE(a), MulE(b))
  {
    hide XTime, Add;
    XTimes3(a, b);
    XTimeAdd(a, b);
    Swap(XTime(XTime(XTime(a))), XTime(XTime(XTime(b))), XTime(XTime(a)), XTime(XTime(b)));
    Swap(Add(XTime(XTime(XTime(a))), XTime(XTime(a))), Add(XTime(XTime(XTime(b))), XTime(XTime(b))), XTime(a), XTime(b));
  }

  lemma MulESum(a: bv8, b: bv8, c: bv8, d: bv8)
    ensures MulE(Sum4(a, b, c, d)) == Sum4(MulE(a), MulE(b), MulE(c), MulE(d))
  {
    hide MulE, Add;
    MulEAdd(Add(a, b), Add(c, d));
    MulEAdd(a, b);
    MulEAdd(c, d);
  }

  // The product of the two column matrices, diagonal by diagonal, on one byte `a` with its
  // multiples by the powers of x.

  lemma Cancel0(a: bv8, x1: bv8, x2: bv8, x3: bv8, x4: bv8)
    ensures Sum4(Add(Add(x4, x3), x2), Add(Add(x3, x1), a), Add(Add(x3, x2), a), Add(Add(x4, x1), Add(x3, a))) == a
  {
    hide Add;
    var u, t := Add(x4, x1), Add(x3, a);
    Swap(Add(x4, x3), x2, Add(x3, x1), a);
    Twice(x4, x3, x1);
    AddComm(x3, x2);
    AddAssoc(x2, x3, a);
    Twice(x2, t, u);
    AddComm(x2, u);
    Twice(Add(x2, a), u, x2);
    Twice(a, x2, a);
  }

  lemma Cancel1(a: bv8, x1: bv8, x2: bv8, x3: bv8, x4: bv8)
    ensures Sum4(Add(Add(Add(x4, x3), x2), Add(Add(x3, x2), x1)), Add(Add(x4, x2), x1),
                 Add(Add(x3, x2), a), Add(x3, a)) == 0
  {
    hide Add;
    AddAssoc(x4, x3, x2);
    Twice(x4, Add(x3, x2), x1);
    Swap(x4, x1, Add(x4, x2), x1);
    Twice(x2, x4, x2);
    AddSelf(x1);
    AddComm(x4, Add(x4, x2));
    AddZero(x2);
    Swap(Add(x3, x2), a, x3, a);
    Twice(x2, x3, x2);
    AddSelf(a);
    AddSelf(x2);
  }

  lemma Cancel2(a: bv8, x1: bv8, x2: bv8, x3: bv8, x4: bv8)
    ensures Sum4(Add(Add(x3, x2), x1), Add(Add(Add(x4, x2), x1), Add(Add(x3, x1), a)),
                 Add(Add(x4, x3), x1), Add(x3, a)) == 0
  {
    hide Add;
    Swap(Add(x4, x2), x1, Add(x3, x1), a);
    Swap(x4, x2, x3, x1);
    Swap(Add(x3, x2), x1, Add(Add(x4, x3), Add(x2, x1)), Add(x1, a));
    Swap(x3, x2, Add(x4, x3), Add(x2, x1));
    AddComm(x3, Add(x4, x3));
    Twice(x4, x3, x4);
    AddComm(x2, Add(x2, x1));
    Twice(x1, x2, x1);
    AddComm(x1, Add(x1, a));
    Twice(a, x1, a);
    Swap(Add(x4, x3), x1, x3, a);
    Swap(x4, x1, x4, x1);
    Swap(Add(x4, x1), a, x4, Add(x1, a));
    AddAssoc(x4, x1, a);
    AddSelf(Add(x4, Add(x1, a)));
  }

  lemma Cancel3(a: bv8, x1: bv8, x2: bv8, x3: bv8, x4: bv8)
    ensures Sum4(Add(Add(x3, x2), x1), Add(Add(x3, x1), a),
                 Add(Add(Add(x4, x3), x1), Add(Add(x3, x2), a)), Add(x4, x1)) == 0
  {
    hide Add;
    Swap(Add(x3, x2), x1, Add(x3, x1), a);
    Twice(x2, x3, x1);
    Twice(x2, x1, a);
    Swap(Add(x4, x3), x1, Add(x3, x2), a);
    Twice(x4, x3, x2);
    Swap(Add(x4, x2), Add(x1, a), x4, x1);
    Twice(x2, x4, x2);
    Twice(a, x1, a);
    AddSelf(Add(x2, a));
  }

  lemma Diagonal0(a: bv8)
    ensures Sum4(MulE(XTime(a)), MulB(a), MulD(a), Mul9(Mul3(a))) == a
  {
    hide XTime, Add, Sum4;
    Mul9Add(XTime(a), a);
    Cancel0(a, XTime(a), XTime(XTime(a)), XTime(XTime(XTime(a))), XTime(XTime(XTime(XTime(a)))));
  }

  lemma Diagonal1(a: bv8)
    ensures Sum4(MulE(Mul3(a)), MulB(XTime(a)), MulD(a), Mul9(a)) == 0
  {
    hide XTime, Add, Sum4;
    MulEAdd(XTime(a), a);
    Cancel1(a, XTime(a), XTime(XTime(a)), XTime(XTime(XTime(a))), XTime(XTime(XTime(XTime(a)))));
  }

  lemma Diagonal2(a: bv8)
    ensures Sum4(MulE(a), MulB(Mul3(a)), MulD(XTime(a)), Mul9(a)) == 0
  {
    hide XTime, Add, Sum4;
    MulBAdd(XTime(a), a);
    Cancel2(a, XTime(a), XTime(XTime(a)), XTime(XTime(XTime(a))), XTime(XTime(XTime(XTime(a)))));
  }

  lemma Diagonal3(a: bv8)
    ensures Sum4(MulE(a), MulB(a), MulD(Mul3(a)), Mul9(XTime(a))) == 0
  {
    hide XTime, Add, Sum4;
    MulDAdd(XTime(a), a);
    Cancel3(a, XTime(a), XTime(XTime(a)), XTime(XTime(XTime(a))), XTime(XTime(XTime(XTime(a)))));
  }

  /** One row of the product, applied to a column. */
  lemma ProductRow(a: bv8, b: bv8, c: bv8, d: bv8)
    ensures Sum4(MulE(Sum4(XTime(a), Mul3(b), c, d)), MulB(Sum4(a, XTime(b), Mul3(c), d)),
                 MulD(Sum4(a, b, XTime(c), Mul3(d))), Mul9(Sum4(Mul3(a), b, c, XTime(d)))) == a
  {
    hide MulE, MulB, MulD, Mul9, Mul3, XTime, Sum4;
    MulESum(XTime(a), Mul3(b), c, d);
    MulBSum(a, XTime(b), Mul3(c), d);
    MulDSum(a, b, XTime(c), Mul3(d));
    Mul9Sum(Mul3(a), b, c, XTime(d));
    Transpose(MulE(XTime(a)), MulE(Mul3(b)), MulE(c), MulE(d), MulB(a), MulB(XTime(b)), MulB(Mul3(c)), MulB(d),
              MulD(a), MulD(b), MulD(XTime(c)), MulD(Mul3(d)), Mul9(Mul3(a)), Mul9(b), Mul9(c), Mul9(XTime(d)));
    Diagonal0(a);
    Diagonal1(b);
    Diagonal2(c);
    Diagonal3(d);
    AddZeros(a);
  }

  // ----- Columns ---------------------------------------------------------------------

  /** Section 5.1.3 of FIPS 197. */
  function MixCol(w: bv32): bv32 {
    var a, b, c, d := B0(w), B1(w), B2(w), B3(w);
    Pack(Sum4(XTime(a), Mul3(b), c, d), Sum4(a, XTime(b), Mul3(c), d),
         Sum4(a, b, XTime(c), Mul3(d)), Sum4(Mul3(a), b, c, XTime(d)))
  }

  /** Section 5.3.3 of FIPS 197. */
  function InvMixCol(w: bv32): bv32 {
    var a, b, c, d := B0(w), B1(w), B2(w), B3(w);
    Pack(Sum4(MulE(a), MulB(b), MulD(c), Mul9(d)), Sum4(Mul9(a), MulE(b), MulB(c), MulD(d)),
         Sum4(MulD(a), Mul9(b), MulE(c), MulB(d)), Sum4(MulB(a), MulD(b), Mul9(c), MulE(d)))
  }

  lemma UnpackAll(b0: bv8, b1: bv8, b2: bv8, b3: bv8)
    ensures B0(Pack(b0, b1, b2, b3)) == b0 && B1(Pack(b0, b1, b2, b3)) == b1
    ensures B2(Pack(b0, b1, b2, b3)) == b2 && B3(Pack(b0, b1, b2, b3)) == b3
  {
    hide Pack, B0, B1, B2, B3;
    Unpack0(b0, b1, b2, b3);
    Unpack1(b0, b1, b2, b3);
    Unpack2(b0, b1, b2, b3);
    Unpack3(b0, b1, b2, b3);
  }

  lemma SameWord(x: bv32, y: bv32)
    requires B0(x) == B0(y) && B1(x) == B1(y) && B2(x) == B2(y) && B3(x) == B3(y)
    ensures x == y
  {
    hide Pack, B0, B1, B2, B3;
    Repack(x);
    Repack(y);
  }

  /** The inverse column mix undoes the column mix. */
  lemma InvMixColMixCol(w: bv32)
    ensures InvMixCol(MixCol(w)) == w
  {
    hide Pack, B0, B1, B2, B3, Sum4, XTime, Mul3, Mul9, MulB, MulD, MulE;
    var a, b, c, d := B0(w), B1(w), B2(w), B3(w);
    var p, q, r, s := Sum4(XTime(a), Mul3(b), c, d), Sum4(a, XTime(b), Mul3(c), d),
                      Sum4(a, b, XTime(c), Mul3(d)), Sum4(Mul3(a), b, c, XTime(d));
    UnpackAll(p, q, r, s);
    Repack(w);
    ProductRow(a, b, c, d);
    SecondRow(a, b, c, d);
    ThirdRow(a, b, c, d);
    FourthRow(a, b, c, d);
  }

  lemma SecondRow(a: bv8, b: bv8, c: bv8, d: bv8)
    ensures Sum4(Mul9(Sum4(XTime(a), Mul3(b), c, d)), MulE(Sum4(a, XTime(b), Mul3(c), d)),
                 MulB(Sum4(a, b, XTime(c), Mul3(d))), MulD(Sum4(Mul3(a), b, c, XTime(d)))) == b
  {
    hide Sum4, XTime, Mul3, Mul9, MulB, MulD, MulE;
    var p, q, r, s := Sum4(XTime(a), Mul3(b), c, d), Sum4(a, XTime(b), Mul3(c), d),
                      Sum4(a, b, XTime(c), Mul3(d)), Sum4(Mul3(a), b, c, XTime(d));
    Turn(XTime(a), Mul3(b), c, d);
    Turn(a, XTime(b), Mul3(c), d);
    Turn(a, b, XTime(c), Mul3(d));
    Turn(Mul3(a), b, c, XTime(d));
    ProductRow(b, c, d, a);
    Turn(Mul9(p), MulE(q), MulB(r), MulD(s));
  }

  lemma ThirdRow(a: bv8, b: bv8, c: bv8, d: bv8)
    ensures Sum4(MulD(Sum4(XTime(a), Mul3(b), c, d)), Mul9(Sum4(a, XTime(b), Mul3(c), d)),
                 MulE(Sum4(a, b, XTime(c), Mul3(d))), MulB(Sum4(Mul3(a), b, c, XTime(d)))) == c
  {
    hide Sum4, XTime, Mul3, Mul9, MulB, MulD, MulE;
    var p, q, r, s := Sum4(XTime(a), Mul3(b), c, d), Sum4(a, XTime(b), Mul3(c), d),
                      Sum4(a, b, XTime(c), Mul3(d)), Sum4(Mul3(a), b, c, XTime(d));
    Turn(XTime(a), Mul3(b), c, d);
    Turn(a, XTime(b), Mul3(c), d);
    Turn(a, b, XTime(c), Mul3(d));
    Turn(Mul3(a), b, c, XTime(d));
    SecondRow(b, c, d, a);
    Turn(MulD(p), Mul9(q), MulE(r), MulB(s));
  }

  lemma FourthRow(a: bv8, b: bv8, c: bv8, d: bv8)
    ensures Sum4(MulB(Sum4(XTime(a), Mul3(b), c, d)), MulD(Sum4(a, XTime(b), Mul3(c), d)),
                 Mul9(Sum4(a, b, XTime(c), Mul3(d))), MulE(Sum4(Mul3(a), b, c, XTime(d)))) == d
  {
    hide Sum4, XTime, Mul3, Mul9, MulB, MulD, MulE;
    var p, q, r, s := Sum4(XTime(a), Mul3(b), c, d), Sum4(a, XTime(b), Mul3(c), d),
                      Sum4(a, b, XTime(c), Mul3(d)), Sum4(Mul3(a), b, c, XTime(d));
    Turn(XTime(a), Mul3(b), c, d);
    Turn(a, XTime(b), Mul3(c), d);
    Turn(a, b, XTime(c), Mul3(d));
    Turn(Mul3(a), b, c, XTime(d));
    ThirdRow(b, c, d, a);
    Turn(MulB(p), MulD(q), Mul9(r), MulE(s));
  }

  /** The inverse column mix is linear. */
  lemma InvMixColXor(x: bv32, y: bv32)
    ensures InvMixCol(Xor(x, y)) == Xor(InvMixCol(x), InvMixCol(y))
  {
    hide Xor, Pack, B0, B1, B2, B3, Sum4, XTime, Add, Mul3, Mul9, MulB, MulD, MulE;
    var a, b, c, d := B0(x), B1(x), B2(x), B3(x);
    var p, q, r, s := B0(y), B1(y), B2(y), B3(y);
    Xor0(x, y);
    Xor1(x, y);
    Xor2(x, y);
    Xor3(x, y);
    MultiplesAdd(a, p);
    MultiplesAdd(b, q);
    MultiplesAdd(c, r);
    MultiplesAdd(d, s);
    AddSums(MulE(a), MulB(b), MulD(c), Mul9(d), MulE(p), MulB(q), MulD(r), Mul9(s));
    AddSums(Mul9(a), MulE(b), MulB(c), MulD(d), Mul9(p), MulE(q), MulB(r), MulD(s));
    AddSums(MulD(a), Mul9(b), MulE(c), MulB(d), MulD(p), Mul9(q), MulE(r), MulB(s));
    AddSums(MulB(a), MulD(b), Mul9(c), MulE(d), MulB(p), MulD(q), Mul9(r), MulE(s));
    PackAdd(Sum4(MulE(a), MulB(b), MulD(c), Mul9(d)), Sum4(Mul9(a), MulE(b), MulB(c), MulD(d)),
            Sum4(MulD(a), Mul9(b), MulE(c), MulB(d)), Sum4(MulB(a), MulD(b), Mul9(c), MulE(d)),
            Sum4(MulE(p), MulB(q), MulD(r), Mul9(s)), Sum4(Mul9(p), MulE(q), MulB(r), MulD(s)),
            Sum4(MulD(p), Mul9(q), MulE(r), MulB(s)), Sum4(MulB(p), MulD(q), Mul9(r), MulE(s)));
  }

  lemma MultiplesAdd(a: bv8, b: bv8)
    ensures Mul9(Add(a, b)) == Add(Mul9(a), Mul9(b)) && MulB(Add(a, b)) == Add(MulB(a), MulB(b))
    ensures MulD(Add(a, b)) == Add(MulD(a), MulD(b)) && MulE(Add(a, b)) == Add(MulE(a), MulE(b))
  {
    hide Add, Mul9, MulB, MulD, MulE;
    Mul9Add(a, b);
    MulBAdd(a, b);
    MulDAdd(a, b);
    MulEAdd(a, b);
  }

  lemma PackAdd(a0: bv8, a1: bv8, a2: bv8, a3: bv8, b0: bv8, b1: bv8, b2: bv8, b3: bv8)
    ensures Xor(Pack(a0, a1, a2, a3), Pack(b0, b1, b2, b3)) == Pack(Add(a0, b0), Add(a1, b1), Add(a2, b2), Add(a3, b3))
  {
    hide Xor, Pack, B0, B1, B2, B3, Add;
    var x, y := Pack(a0, a1, a2, a3), Pack(b0, b1, b2, b3);
    var z := Pack(Add(a0, b0), Add(a1, b1), Add(a2, b2), Add(a3, b3));
    UnpackAll(a0, a1, a2, a3);
    UnpackAll(b0, b1, b2, b3);
    UnpackAll(Add(a0, b0), Add(a1, b1), Add(a2, b2), Add(a3, b3));
    Xor0(x, y);
    Xor1(x, y);
    Xor2(x, y);
    Xor3(x, y);
    SameWord(Xor(x, y), z);
  }

  // ----- The inverse column mix of the key schedule ----------------------------------

  /** The way the key schedule computes the inverse column mix, on the packed word. */
  function ImixCol(x: bv32): bv32 {
    var u := StarX(x);
    var v := StarX(u);
    var w := StarX(v);
    var t := Xor(w, x);
    Xor(Xor(Xor(u, v), w), Xor(Xor(Ror8(Xor(u, t)), Ror16(Xor(v, t))), Ror24(t)))
  }

  /** One byte of it, from the four bytes of the word in turn. */
  function ImixByte(a: bv8, b: bv8, c: bv8, d: bv8): bv8 {
    var a1, a2 := XTime(a), XTime(XTime(a));
    var a3, b3, c3, d3 := XTime(a2), XTime(XTime(XTime(b))), XTime(XTime(XTime(c))), XTime(XTime(XTime(d)));
    Add(Add(Add(a1, a2), a3),
        Add(Add(Add(XTime(b), Add(b3, b)), Add(XTime(XTime(c)), Add(c3, c))), Add(d3, d)))
  }

  lemma Regroup(a1: bv8, a2: bv8, a3: bv8, b: bv8, b1: bv8, b3: bv8, c: bv8, c2: bv8, c3: bv8, d: bv8, d3: bv8)
    ensures Add(Add(Add(a1, a2), a3), Add(Add(Add(b1, Add(b3, b)), Add(c2, Add(c3, c))), Add(d3, d))) ==
            Sum4(Add(Add(a3, a2), a1), Add(Add(b3, b1), b), Add(Add(c3, c2), c), Add(d3, d))
  {
    hide Add;
    AddComm(Add(a1, a2), a3);
    AddComm(a1, a2);
    AddAssoc(a3, a2, a1);
    AddAssoc(b1, b3, b);
    AddComm(b1, b3);
    AddAssoc(c2, c3, c);
    AddComm(c2, c3);
    var p, q, r, s := Add(Add(a3, a2), a1), Add(Add(b3, b1), b), Add(Add(c3, c2), c), Add(d3, d);
    AddAssoc(q, r, s);
    AddAssoc(p, q, Add(r, s));
  }

  lemma ImixByteIsRow(a: bv8, b: bv8, c: bv8, d: bv8)
    ensures ImixByte(a, b, c, d) == Sum4(MulE(a), MulB(b), MulD(c), Mul9(d))
  {
    hide XTime, Add, Sum4;
    Regroup(XTime(a), XTime(XTime(a)), XTime(XTime(XTime(a))), b, XTime(b), XTime(XTime(XTime(b))),
            c, XTime(XTime(c)), XTime(XTime(XTime(c))), d, XTime(XTime(XTime(d))));
  }

  lemma ImixAt0(x: bv32)
    ensures B0(ImixCol(x)) == ImixByte(B0(x), B1(x), B2(x), B3(x))
  {
    hide Xor, B0, B1, B2, B3, StarX, XTime, Add, Ror8, Ror16, Ror24;
    var u := StarX(x);
    var v := StarX(u);
    var w := StarX(v);
    var t := Xor(w, x);
    Stars(x);
    Stars(u);
    Stars(v);
    Xor0(Xor(Xor(u, v), w), Xor(Xor(Ror8(Xor(u, t)), Ror16(Xor(v, t))), Ror24(t)));
    Xor0(Xor(u, v), w);
    Xor0(u, v);
    Xor0(Xor(Ror8(Xor(u, t)), Ror16(Xor(v, t))), Ror24(t));
    Xor0(Ror8(Xor(u, t)), Ror16(Xor(v, t)));
    Ror8At0(Xor(u, t));
    Ror16At0(Xor(v, t));
    Ror24At0(t);
    Xor1(u, t);
    Xor2(v, t);
    Xor1(w, x);
    Xor2(w, x);
    Xor3(w, x);
  }

  lemma ImixAt1(x: bv32)
    ensures B1(ImixCol(x)) == ImixByte(B1(x), B2(x), B3(x), B0(x))
  {
    hide Xor, B0, B1, B2, B3, StarX, XTime, Add, Ror8, Ror16, Ror24;
    var u := StarX(x);
    var v := StarX(u);
    var w := StarX(v);
    var t := Xor(w, x);
    Stars(x);
    Stars(u);
    Stars(v);
    Xor1(Xor(Xor(u, v), w), Xor(Xor(Ror8(Xor(u, t)), Ror16(Xor(v, t))), Ror24(t)));
    Xor1(Xor(u, v), w);
    Xor1(u, v);
    Xor1(Xor(Ror8(Xor(u, t)), Ror16(Xor(v, t))), Ror24(t));
    Xor1(Ror8(Xor(u, t)), Ror16(Xor(v, t)));
    Ror8At1(Xor(u, t));
    Ror16At1(Xor(v, t));
    Ror24At1(t);
    Xor2(u, t);
    Xor3(v, t);
    Xor2(w, x);
    Xor3(w, x);
    Xor0(w, x);
  }

  lemma ImixAt2(x: bv32)
    ensures B2(ImixCol(x)) == ImixByte(B2(x), B3(x), B0(x), B1(x))
  {
    hide Xor, B0, B1, B2, B3, StarX, XTime, Add, Ror8, Ror16, Ror24;
    var u := StarX(x);
    var v := StarX(u);
    var w := StarX(v);
    var t := Xor(w, x);
    Stars(x);
    Stars(u);
    Stars(v);
    Xor2(Xor(Xor(u, v), w), Xor(Xor(Ror8(Xor(u, t)), Ror16(Xor(v, t))), Ror24(t)));
    Xor2(Xor(u, v), w);
    Xor2(u, v);
    Xor2(Xor(Ror8(Xor(u, t)), Ror16(Xor(v, t))), Ror24(t));
    Xor2(Ror8(Xor(u, t)), Ror16(Xor(v, t)));
    Ror8At2(Xor(u, t));
    Ror16At2(Xor(v, t));
    Ror24At2(t);
    Xor3(u, t);
    Xor0(v, t);
    Xor3(w, x);
    Xor0(w, x);
    Xor1(w, x);
  }

  lemma ImixAt3(x: bv32)
    ensures B3(ImixCol(x)) == ImixByte(B3(x), B0(x), B1(x), B2(x))
  {
    hide Xor, B0, B1, B2, B3, StarX, XTime, Add, Ror8, Ror16, Ror24;
    var u := StarX(x);
    var v := StarX(u);
    var w := StarX(v);
    var t := Xor(w, x);
    Stars(x);
    Stars(u);
    Stars(v);
    Xor3(Xor(Xor(u, v), w), Xor(Xor(Ror8(Xor(u, t)), Ror16(Xor(v, t))), Ror24(t)));
    Xor3(Xor(u, v), w);
    Xor3(u, v);
    Xor3(Xor(Ror8(Xor(u, t)), Ror16(Xor(v, t))), Ror24(t));
    Xor3(Ror8(Xor(u, t)), Ror16(Xor(v, t)));
    Ror8At3(Xor(u, t));
    Ror16At3(Xor(v, t));
    Ror24At3(t);
    Xor0(u, t);
    Xor1(v, t);
    Xor0(w, x);
    Xor1(w, x);
    Xor2(w, x);
  }

  lemma Stars(x: bv32)
    ensures B0(StarX(x)) == XTime(B0(x)) && B1(StarX(x)) == XTime(B1(x))
    ensures B2(StarX(x)) == XTime(B2(x)) && B3(StarX(x)) == XTime(B3(x))
  {
    hide B0, B1, B2, B3, StarX, XTime;
    Star0(x);
    Star1(x);
    Star2(x);
    Star3(x);
  }

  /** The key schedule's packed computation is the inverse column mix. */
  lemma ImixColIsInvMixCol(x: bv32)
    ensures ImixCol(x) == InvMixCol(x)
  {
    hide B0, B1, B2, B3, Pack, ImixCol, ImixByte, XTime, Sum4, Add, Mul9, MulB, MulD, MulE;
    var a, b, c, d := B0(x), B1(x), B2(x), B3(x);
    ImixAt0(x);
    ImixAt1(x);
    ImixAt2(x);
    ImixAt3(x);
    ImixByteIsRow(a, b, c, d);
    ImixByteIsRow(b, c, d, a);
    ImixByteIsRow(c, d, a, b);
    ImixByteIsRow(d, a, b, c);
    Turn(Mul9(a), MulE(b), MulB(c), MulD(d));
    Turn(MulD(a), Mul9(b), MulE(c), MulB(d));
    Turn(Mul9(b), MulE(c), MulB(d), MulD(a));
    Turn(MulB(a), MulD(b), Mul9(c), MulE(d));
    Turn(MulD(b), Mul9(c), MulE(d), MulB(a));
    Turn(Mul9(c), MulE(d), MulB(a), MulD(b));
    UnpackAll(Sum4(MulE(a), MulB(b), MulD(c), Mul9(d)), Sum4(Mul9(a), MulE(b), MulB(c), MulD(d)),
              Sum4(MulD(a), Mul9(b), MulE(c), MulB(d)), Sum4(MulB(a), MulD(b), Mul9(c), MulE(d)));
    SameWord(ImixCol(x), InvMixCol(x));
  }
}
