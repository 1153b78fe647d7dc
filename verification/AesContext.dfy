/** The key schedules of a transform, filled in place, and the cipher on buffers. */
module AesContext {
  import opened AesField
  import opened AesCipher
  import opened AesKey

  class Context {
    const keyEnc: array<bv32>
    const keyDec: array<bv32>
    var keyLength: nat

    constructor ()
      ensures fresh(keyEnc) && fresh(keyDec) && Shape()
    {
      keyEnc := new bv32[MAX_WORDS];
      keyDec := new bv32[MAX_WORDS];
      keyLength := 0;
    }

    predicate Shape() { keyEnc.Length == MAX_WORDS && keyDec.Length == MAX_WORDS && keyEnc != keyDec }

    /** A run of words, each added to the one before it: the tail of every step of the
        expansion, from the first word `t` on. */
    method FillRow(ghost box: Box, ghost key: seq<bv32>, nk: nat, base: nat, count: nat, t0: bv32) returns (t: bv32)
      requires Shape() && KeyWords(nk) && nk == |key| && 0 < count <= nk && base + nk + count <= MAX_WORDS
      requires Matches(box, key, keyEnc[..], base + nk)
      requires ExpandedWord(box, key, base + nk) == Xor(ExpandedWord(box, key, base), t0)
      requires forall j :: base + nk < j < base + nk + count ==> Plain(nk, j)
      modifies keyEnc
      ensures Matches(box, key, keyEnc[..], base + nk + count)
      ensures t == ExpandedWord(box, key, base + nk + count - 1)
    {
      hide Xor, SubWord, RconWord, Ror8;
      t := t0;
      var j := 0;
      while j < count
        invariant 0 <= j <= count
        invariant Matches(box, key, keyEnc[..], base + nk + j)
        invariant t == if j == 0 then t0 else ExpandedWord(box, key, base + nk + j - 1)
      {
        assert keyEnc[..][base + j] == ExpandedWord(box, key, base + j);
        XorComm(t, keyEnc[base + j]);
        assert 0 < j ==> Plain(nk, base + nk + j);
        t := Xor(t, keyEnc[base + j]);
        assert t == ExpandedWord(box, key, base + nk + j);
        ghost var before := keyEnc[..];
        keyEnc[base + nk + j] := t;
        assert keyEnc[..] == before[base + nk + j := t];
        j := j + 1;
      }
    }

    /** One step of the expansion: a whole run of words, or the first half of one. */
    method Step(box: Box, ghost key: seq<bv32>, nk: nat, i: nat, count: nat, t0: bv32) returns (t: bv32)
      requires Shape() && KeyWords(nk) && nk == |key| && i < 10 && 0 < count <= nk && (nk == 8 ==> count == 4)
      requires nk * i + nk + count <= MAX_WORDS
      requires Matches(box, key, keyEnc[..], nk * i + nk) && t0 == ExpandedWord(box, key, nk * i + nk - 1)
      modifies keyEnc
      ensures Matches(box, key, keyEnc[..], nk * i + nk + count)
      ensures t == ExpandedWord(box, key, nk * i + nk + count - 1)
    {
      hide Xor, LsBox, SubWord, Ror8, RconWord, ExpandedWord;
      t := Ror8(t0);
      LsBoxIsSubWord(box, t);
      RcoTabIsRcon(i);
      t := Xor(LsBox(box, t), RCO_TAB[i]);
      StepIndices(nk, i, count);
      FirstOfRow(box, key, nk, i);
      t := FillRow(box, key, nk, nk * i, count, t);
    }

    /** The second half of a run of eight words. */
    method BottomHalf(box: Box, ghost key: seq<bv32>, i: nat, t0: bv32) returns (t: bv32)
      requires Shape() && |key| == 8 && 8 * i + 16 <= MAX_WORDS
      requires Matches(box, key, keyEnc[..], 8 * i + 12) && t0 == ExpandedWord(box, key, 8 * i + 11)
      modifies keyEnc
      ensures Matches(box, key, keyEnc[..], 8 * i + 16)
      ensures t == ExpandedWord(box, key, 8 * i + 15)
    {
      hide Xor, LsBox, SubWord, ExpandedWord;
      LsBoxIsSubWord(box, t0);
      MiddleOfRow(box, key, i);
      t := FillRow(box, key, 8, 8 * i + 4, 4, LsBox(box, t0));
    }

    /** All the steps of the expansion. */
    method Expand(box: Box, ghost key: seq<bv32>, nk: nat, t0: bv32)
      requires Shape() && KeyWords(nk) && nk == |key|
      requires Matches(box, key, keyEnc[..], nk) && t0 == ExpandedWord(box, key, nk - 1)
      modifies keyEnc
      ensures Matches(box, key, keyEnc[..], 4 * nk + 28)
    {
      hide Xor, ExpandedWord, Matches;
      var t := t0;
      var i := 0;
      if nk == 4 {
        while i < 10
          invariant 0 <= i <= 10
          invariant Matches(box, key, keyEnc[..], 4 * i + 4) && t == ExpandedWord(box, key, 4 * i + 3)
        {
          t := Step(box, key, 4, i, 4, t);
          i := i + 1;
        }
      } else if nk == 6 {
        while i < 8
          invariant 0 <= i <= 8
          invariant Matches(box, key, keyEnc[..], 6 * i + 6) && t == ExpandedWord(box, key, 6 * i + 5)
        {
          t := Step(box, key, 6, i, 6, t);
          i := i + 1;
        }
        Fewer(box, key, keyEnc[..], 54, 52);
      } else {
        while i < 6
          invariant 0 <= i <= 6
          invariant Matches(box, key, keyEnc[..], 8 * i + 8) && t == ExpandedWord(box, key, 8 * i + 7)
        {
          t := Step(box, key, 8, i, 4, t);
          t := BottomHalf(box, key, i, t);
          i := i + 1;
        }
        t := Step(box, key, 8, 6, 4, t);
      }
    }

    /** The decryption keys between the first and the last. */
    method InvertKeys(last: nat)
      requires Shape() && last % 4 == 0 && 4 <= last && last + 4 <= MAX_WORDS
      modifies keyDec
      ensures forall k :: 4 <= k < last ==> keyDec[Mirror(last, k)] == ImixCol(keyEnc[k])
      ensures forall k :: 0 <= k < 4 || last <= k < MAX_WORDS ==> keyDec[k] == old(keyDec[k])
    {
      hide ImixCol, Mirror;
      var i := 4;
      while i < last
        invariant 4 <= i <= last
        invariant forall k :: 4 <= k < i ==> keyDec[Mirror(last, k)] == ImixCol(keyEnc[k])
        invariant forall k :: 0 <= k < 4 || last <= k < MAX_WORDS ==> keyDec[k] == old(keyDec[k])
        invariant keyEnc[..] == old(keyEnc[..])
      {
        forall k | 4 <= k < i ensures Mirror(last, k) != Mirror(last, i) {
          MirrorTwice(last, k);
          MirrorTwice(last, i);
        }
        keyDec[Mirror(last, i)] := ImixCol(keyEnc[i]);
        i := i + 1;
      }
    }

    /** The first four words of the key open one schedule and close the other. */
    method LoadFour(w: seq<bv32>)
      requires Shape() && KeyWords(|w|)
      modifies keyEnc, keyDec
      ensures forall i :: 0 <= i < 4 ==> keyEnc[i] == w[i] && keyDec[4 * |w| + 24 + i] == w[i]
    {
      var last := 4 * |w| + 24;
      keyEnc[0], keyEnc[1], keyEnc[2], keyEnc[3] := w[0], w[1], w[2], w[3];
      keyDec[last], keyDec[last + 1], keyDec[last + 2], keyDec[last + 3] := w[0], w[1], w[2], w[3];
    }

    /** The rest of the key. */
    method LoadRest(w: seq<bv32>) returns (t: bv32)
      requires Shape() && KeyWords(|w|)
      requires forall i :: 0 <= i < 4 ==> keyEnc[i] == w[i]
      modifies keyEnc
      ensures forall i :: 0 <= i < |w| ==> keyEnc[i] == w[i]
      ensures t == w[|w| - 1]
    {
      t := w[3];
      if |w| > 4 {
        keyEnc[4], keyEnc[5] := w[4], w[5];
        t := w[5];
      }
      if |w| > 6 {
        keyEnc[6], keyEnc[7] := w[6], w[7];
        t := w[7];
      }
    }

    /** The encryption keys of a key, in place. */
    method FillEncryption(box: Box, w: seq<bv32>)
      requires Shape() && KeyWords(|w|)
      modifies keyEnc, keyDec
      ensures Matches(box, w, keyEnc[..], 4 * |w| + 28)
      ensures forall i :: 0 <= i < 4 ==> keyDec[4 * |w| + 24 + i] == w[i]
    {
      hide Matches, ExpandedWord;
      LoadFour(w);
      var t := LoadRest(w);
      LoadedMatches(box, w, keyEnc[..]);
      Expand(box, w, |w|, t);
    }

    method CopyLast(last: nat)
      requires Shape() && 4 <= last && last + 4 <= MAX_WORDS
      modifies keyDec
      ensures forall i :: 0 <= i < 4 ==> keyDec[i] == keyEnc[last + i]
      ensures forall k :: 4 <= k < MAX_WORDS ==> keyDec[k] == old(keyDec[k])
    {
      keyDec[0], keyDec[1], keyDec[2], keyDec[3] := keyEnc[last], keyEnc[last + 1], keyEnc[last + 2], keyEnc[last + 3];
    }

    /** The decryption keys: the encryption keys in reverse. */
    method FillDecryption(ghost box: Box, ghost w: seq<bv32>, nk: nat)
      requires Shape() && KeyWords(nk) && nk == |w|
      requires Matches(box, w, keyEnc[..], 4 * nk + 28)
      requires forall i :: 0 <= i < 4 ==> keyDec[4 * nk + 24 + i] == w[i]
      modifies keyDec
      ensures Reversed(keyEnc[..], keyDec[..], nk + 6)
    {
      hide Matches, Reversed, ExpandedWord, InvMixCol, ImixCol, Mirror;
      var last := 4 * nk + 24;
      CopyLast(last);
      InvertKeys(last);
      EndKeys(box, w, keyEnc[..], keyDec[..]);
      MirroredIsReversed(keyEnc[..], keyDec[..], nk + 6);
    }

    /** Expands a key of 16, 24 or 32 bytes into both schedules; any other is refused and
        nothing changes. */
    method ExpandKey(box: Box, key: seq<bv8>) returns (err: int)
      requires Shape()
      modifies this, keyEnc, keyDec
      ensures err == (if KeyBytes(|key|) then 0 else -EINVAL)
      ensures err == 0 ==> keyLength == |key| && Expanded(box, key, keyEnc[..], keyDec[..])
      ensures err != 0 ==> keyLength == old(keyLength) && keyEnc[..] == old(keyEnc[..]) && keyDec[..] == old(keyDec[..])
    {
      hide Matches, Reversed, Words;
      if |key| != 16 && |key| != 24 && |key| != 32 {
        return -EINVAL;
      }
      keyLength := |key|;
      FillEncryption(box, Words(key));
      FillDecryption(box, Words(key), |key| / 4);
      return 0;
    }

    /** The schedules hold the keys of some transform. */
    predicate Ready()
      reads this
    {
      Shape() && KeyBytes(keyLength)
    }

    /** Encrypts a block.  The two buffers may be one and the same. */
    method Encrypt(box: Box, dst: array<bv8>, src: array<bv8>)
      requires Ready() && dst.Length == 16 && src.Length == 16
      modifies dst
      ensures dst[..] == EncryptBytes(box, keyEnc[..], Rounds(keyLength), old(src[..]))
    {
      hide Load, Store, AddRoundKey, ForwardRound, ForwardLast, EncryptRounds;
      var enc, x := keyEnc[..], Load(src[..]);
      var b0, b1 := new bv32[4], new bv32[4];
      Begin(b0, enc, x);
      assert Cols(b0) == EncryptRounds(box, enc, 0, x) by { FirstRound(box, enc, x); }
      var r := 0;
      if keyLength > 24 {
        TwoForward(box, enc, b0, b1, r, x);
        r := r + 2;
      }
      if keyLength > 16 {
        TwoForward(box, enc, b0, b1, r, x);
        r := r + 2;
      }
      TwoForward(box, enc, b0, b1, r, x);
      TwoForward(box, enc, b0, b1, r + 2, x);
      TwoForward(box, enc, b0, b1, r + 4, x);
      TwoForward(box, enc, b0, b1, r + 6, x);
      OneForward(box, enc, b1, b0, r + 9, x);
      LastForward(box, enc, b0, b1, r + 10, x);
      Finish(dst, b0);
    }

    /** Decrypts a block.  The two buffers may be one and the same. */
    method Decrypt(box: Box, dst: array<bv8>, src: array<bv8>)
      requires Ready() && dst.Length == 16 && src.Length == 16
      modifies dst
      ensures dst[..] == DecryptBytes(box, keyDec[..], Rounds(keyLength), old(src[..]))
    {
      hide Load, Store, AddRoundKey, InverseRound, InverseLast, DecryptRounds;
      var dec, y := keyDec[..], Load(src[..]);
      var b0, b1 := new bv32[4], new bv32[4];
      Begin(b0, dec, y);
      assert Cols(b0) == DecryptRounds(box, dec, 0, y) by { FirstRound(box, dec, y); }
      var r := 0;
      if keyLength > 24 {
        TwoInverse(box, dec, b0, b1, r, y);
        r := r + 2;
      }
      if keyLength > 16 {
        TwoInverse(box, dec, b0, b1, r, y);
        r := r + 2;
      }
      TwoInverse(box, dec, b0, b1, r, y);
      TwoInverse(box, dec, b0, b1, r + 2, y);
      TwoInverse(box, dec, b0, b1, r + 4, y);
      TwoInverse(box, dec, b0, b1, r + 6, y);
      OneInverse(box, dec, b1, b0, r + 9, y);
      LastInverse(box, dec, b0, b1, r + 10, y);
      Finish(dst, b0);
    }
  }

  // ----- Rounds in place -------------------------------------------------------------

  /** The four columns in a buffer. */
  function Cols(b: array<bv32>): Block
    requires b.Length == 4
    reads b
  {
    Block(b[0], b[1], b[2], b[3])
  }

  lemma FirstRound(box: Box, ks: seq<bv32>, x: Block)
    requires 4 <= |ks|
    ensures EncryptRounds(box, ks, 0, x) == AddRoundKey(x, Key(ks, 0))
    ensures DecryptRounds(box, ks, 0, x) == AddRoundKey(x, Key(ks, 0))
  {
    hide AddRoundKey, ForwardRound, InverseRound;
  }

  /** The initial key addition. */
  method Begin(b: array<bv32>, ks: seq<bv32>, x: Block)
    requires b.Length == 4 && 4 <= |ks|
    modifies b
    ensures Cols(b) == AddRoundKey(x, Key(ks, 0))
  {
    hide Xor;
    b[0], b[1], b[2], b[3] := Xor(x.w0, ks[0]), Xor(x.w1, ks[1]), Xor(x.w2, ks[2]), Xor(x.w3, ks[3]);
  }

  /** The words of a buffer, least significant byte first. */
  method Finish(dst: array<bv8>, b: array<bv32>)
    requires dst.Length == 16 && b.Length == 4
    modifies dst
    ensures dst[..] == Store(Cols(b))
  {
    hide WordBytes;
    StoreWord(dst, 0, b[0]);
    StoreWord(dst, 4, b[1]);
    StoreWord(dst, 8, b[2]);
    StoreWord(dst, 12, b[3]);
  }

  method StoreWord(dst: array<bv8>, at: nat, w: bv32)
    requires dst.Length == 16 && at + 4 <= 16
    modifies dst
    ensures dst[..at + 4] == old(dst[..at]) + WordBytes(w)
  {
    hide B0, B1, B2, B3;
    dst[at], dst[at + 1], dst[at + 2], dst[at + 3] := B0(w), B1(w), B2(w), B3(w);
  }

  /** One round of encryption, from one buffer into the other. */
  method OneForward(box: Box, enc: seq<bv32>, bo: array<bv32>, bi: array<bv32>, r: nat, ghost x: Block)
    requires bo.Length == 4 && bi.Length == 4 && bo != bi && 0 < r && 4 * r + 4 <= |enc|
    requires Cols(bi) == EncryptRounds(box, enc, r - 1, x)
    modifies bo
    ensures Cols(bo) == EncryptRounds(box, enc, r, x)
  {
    hide ForwardWord;
    bo[0] := ForwardWord(box, bi[0], bi[1], bi[2], bi[3], enc[4 * r]);
    bo[1] := ForwardWord(box, bi[1], bi[2], bi[3], bi[0], enc[4 * r + 1]);
    bo[2] := ForwardWord(box, bi[2], bi[3], bi[0], bi[1], enc[4 * r + 2]);
    bo[3] := ForwardWord(box, bi[3], bi[0], bi[1], bi[2], enc[4 * r + 3]);
  }

  method TwoForward(box: Box, enc: seq<bv32>, b0: array<bv32>, b1: array<bv32>, r: nat, ghost x: Block)
    requires b0.Length == 4 && b1.Length == 4 && b0 != b1 && 4 * r + 12 <= |enc|
    requires Cols(b0) == EncryptRounds(box, enc, r, x)
    modifies b0, b1
    ensures Cols(b0) == EncryptRounds(box, enc, r + 2, x)
  {
    hide EncryptRounds;
    OneForward(box, enc, b1, b0, r + 1, x);
    OneForward(box, enc, b0, b1, r + 2, x);
  }

  method LastForward(box: Box, enc: seq<bv32>, bo: array<bv32>, bi: array<bv32>, r: nat, ghost x: Block)
    requires bo.Length == 4 && bi.Length == 4 && bo != bi && 0 < r && 4 * r + 4 <= |enc|
    requires Cols(bi) == EncryptRounds(box, enc, r - 1, x)
    modifies bo
    ensures Cols(bo) == AesCipher.Encrypt(box, enc, r, x)
  {
    hide ForwardLastWord, EncryptRounds;
    bo[0] := ForwardLastWord(box, bi[0], bi[1], bi[2], bi[3], enc[4 * r]);
    bo[1] := ForwardLastWord(box, bi[1], bi[2], bi[3], bi[0], enc[4 * r + 1]);
    bo[2] := ForwardLastWord(box, bi[2], bi[3], bi[0], bi[1], enc[4 * r + 2]);
    bo[3] := ForwardLastWord(box, bi[3], bi[0], bi[1], bi[2], enc[4 * r + 3]);
  }

  /** One round of decryption, from one buffer into the other. */
  method OneInverse(box: Box, dec: seq<bv32>, bo: array<bv32>, bi: array<bv32>, r: nat, ghost y: Block)
    requires bo.Length == 4 && bi.Length == 4 && bo != bi && 0 < r && 4 * r + 4 <= |dec|
    requires Cols(bi) == DecryptRounds(box, dec, r - 1, y)
    modifies bo
    ensures Cols(bo) == DecryptRounds(box, dec, r, y)
  {
    hide InverseWord;
    bo[0] := InverseWord(box, bi[0], bi[3], bi[2], bi[1], dec[4 * r]);
    bo[1] := InverseWord(box, bi[1], bi[0], bi[3], bi[2], dec[4 * r + 1]);
    bo[2] := InverseWord(box, bi[2], bi[1], bi[0], bi[3], dec[4 * r + 2]);
    bo[3] := InverseWord(box, bi[3], bi[2], bi[1], bi[0], dec[4 * r + 3]);
  }

  method TwoInverse(box: Box, dec: seq<bv32>, b0: array<bv32>, b1: array<bv32>, r: nat, ghost y: Block)
    requires b0.Length == 4 && b1.Length == 4 && b0 != b1 && 4 * r + 12 <= |dec|
    requires Cols(b0) == DecryptRounds(box, dec, r, y)
    modifies b0, b1
    ensures Cols(b0) == DecryptRounds(box, dec, r + 2, y)
  {
    hide DecryptRounds;
    OneInverse(box, dec, b1, b0, r + 1, y);
    OneInverse(box, dec, b0, b1, r + 2, y);
  }

  method LastInverse(box: Box, dec: seq<bv32>, bo: array<bv32>, bi: array<bv32>, r: nat, ghost y: Block)
    requires bo.Length == 4 && bi.Length == 4 && bo != bi && 0 < r && 4 * r + 4 <= |dec|
    requires Cols(bi) == DecryptRounds(box, dec, r - 1, y)
    modifies bo
    ensures Cols(bo) == AesCipher.Decrypt(box, dec, r, y)
  {
    hide InverseLastWord, DecryptRounds;
    bo[0] := InverseLastWord(box, bi[0], bi[3], bi[2], bi[1], dec[4 * r]);
    bo[1] := InverseLastWord(box, bi[1], bi[0], bi[3], bi[2], dec[4 * r + 1]);
    bo[2] := InverseLastWord(box, bi[2], bi[1], bi[0], bi[3], dec[4 * r + 2]);
    bo[3] := InverseLastWord(box, bi[3], bi[2], bi[1], bi[0], dec[4 * r + 3]);
  }
}
