/** The block cipher that protects QQ lyrics (internal/providers/qqmusic_crypto.go).

    Three passes of a 16-round Feistel network between an initial and an inverse bit
    permutation.  The tables are the repository's own.  Decryption undoes encryption for
    every key and every block, whatever the round function computes. */
module Cipher {
  import opened Wrappers

  type Block = b: seq<bv8> | |b| == 8 witness [0, 0, 0, 0, 0, 0, 0, 0]

  /** Six bytes of key material per round. */
  type RoundKey = k: seq<bv8> | |k| == 6 witness [0, 0, 0, 0, 0, 0]
  const ZERO_KEY: RoundKey := [0, 0, 0, 0, 0, 0]
  const ZERO_KEYS: seq<RoundKey> := seq(16, _ => ZERO_KEY)
  type Schedule = s: seq<RoundKey> | |s| == 16 witness ZERO_KEYS

  datatype Mode = Encrypt | Decrypt

  // ---- single bits ----------------------------------------------------------------

  /** Bit positions are small numbers, written as bit vectors so that they can be shift amounts. */
  function Bitnum(a: seq<bv8>, b: bv8, c: bv32): bv32
    requires |a| == 8 && b < 64 && c < 32
  {
    var byteIdx := (b >> 5) * 4 + 3 - ((b & 31) >> 3);
    (((a[byteIdx as nat] >> (7 - (b & 7))) & 1) as bv32) << c
  }

  function BitnumIntr(a: bv32, b: bv32, c: bv32): bv32
    requires b < 32 && c < 32
  {
    ((a >> (31 - b)) & 1) << c
  }

  function BitnumIntl(a: bv32, b: bv32, c: bv32): bv32
    requires b < 32 && c < 32
  {
    ((a << b) & 0x8000_0000) >> c
  }

  function ToByte(x: bv32): bv8 { (x & 0xFF) as bv8 }

  // ---- the two permutations ---------------------------------------------------------

  function InitialLeft(d: Block): bv32 {
    Bitnum(d, 57, 31) | Bitnum(d, 49, 30) | Bitnum(d, 41, 29) | Bitnum(d, 33, 28) |
    Bitnum(d, 25, 27) | Bitnum(d, 17, 26) | Bitnum(d, 9, 25) | Bitnum(d, 1, 24) |
    Bitnum(d, 59, 23) | Bitnum(d, 51, 22) | Bitnum(d, 43, 21) | Bitnum(d, 35, 20) |
    Bitnum(d, 27, 19) | Bitnum(d, 19, 18) | Bitnum(d, 11, 17) | Bitnum(d, 3, 16) |
    Bitnum(d, 61, 15) | Bitnum(d, 53, 14) | Bitnum(d, 45, 13) | Bitnum(d, 37, 12) |
    Bitnum(d, 29, 11) | Bitnum(d, 21, 10) | Bitnum(d, 13, 9) | Bitnum(d, 5, 8) |
    Bitnum(d, 63, 7) | Bitnum(d, 55, 6) | Bitnum(d, 47, 5) | Bitnum(d, 39, 4) |
    Bitnum(d, 31, 3) | Bitnum(d, 23, 2) | Bitnum(d, 15, 1) | Bitnum(d, 7, 0)
  }

  function InitialRight(d: Block): bv32 {
    Bitnum(d, 56, 31) | Bitnum(d, 48, 30) | Bitnum(d, 40, 29) | Bitnum(d, 32, 28) |
    Bitnum(d, 24, 27) | Bitnum(d, 16, 26) | Bitnum(d, 8, 25) | Bitnum(d, 0, 24) |
    Bitnum(d, 58, 23) | Bitnum(d, 50, 22) | Bitnum(d, 42, 21) | Bitnum(d, 34, 20) |
    Bitnum(d, 26, 19) | Bitnum(d, 18, 18) | Bitnum(d, 10, 17) | Bitnum(d, 2, 16) |
    Bitnum(d, 60, 15) | Bitnum(d, 52, 14) | Bitnum(d, 44, 13) | Bitnum(d, 36, 12) |
    Bitnum(d, 28, 11) | Bitnum(d, 20, 10) | Bitnum(d, 12, 9) | Bitnum(d, 4, 8) |
    Bitnum(d, 62, 7) | Bitnum(d, 54, 6) | Bitnum(d, 46, 5) | Bitnum(d, 38, 4) |
    Bitnum(d, 30, 3) | Bitnum(d, 22, 2) | Bitnum(d, 14, 1) | Bitnum(d, 6, 0)
  }

  function ByteZero(s0: bv32, s1: bv32): bv8 {
    ToByte(BitnumIntr(s1, 4, 7) | BitnumIntr(s0, 4, 6) | BitnumIntr(s1, 12, 5) | BitnumIntr(s0, 12, 4) |
           BitnumIntr(s1, 20, 3) | BitnumIntr(s0, 20, 2) | BitnumIntr(s1, 28, 1) | BitnumIntr(s0, 28, 0))
  }

  function ByteOne(s0: bv32, s1: bv32): bv8 {
    ToByte(BitnumIntr(s1, 5, 7) | BitnumIntr(s0, 5, 6) | BitnumIntr(s1, 13, 5) | BitnumIntr(s0, 13, 4) |
           BitnumIntr(s1, 21, 3) | BitnumIntr(s0, 21, 2) | BitnumIntr(s1, 29, 1) | BitnumIntr(s0, 29, 0))
  }

  function ByteTwo(s0: bv32, s1: bv32): bv8 {
    ToByte(BitnumIntr(s1, 6, 7) | BitnumIntr(s0, 6, 6) | BitnumIntr(s1, 14, 5) | BitnumIntr(s0, 14, 4) |
           BitnumIntr(s1, 22, 3) | BitnumIntr(s0, 22, 2) | BitnumIntr(s1, 30, 1) | BitnumIntr(s0, 30, 0))
  }

  function ByteThree(s0: bv32, s1: bv32): bv8 {
    ToByte(BitnumIntr(s1, 7, 7) | BitnumIntr(s0, 7, 6) | BitnumIntr(s1, 15, 5) | BitnumIntr(s0, 15, 4) |
           BitnumIntr(s1, 23, 3) | BitnumIntr(s0, 23, 2) | BitnumIntr(s1, 31, 1) | BitnumIntr(s0, 31, 0))
  }

  function ByteFour(s0: bv32, s1: bv32): bv8 {
    ToByte(BitnumIntr(s1, 0, 7) | BitnumIntr(s0, 0, 6) | BitnumIntr(s1, 8, 5) | BitnumIntr(s0, 8, 4) |
           BitnumIntr(s1, 16, 3) | BitnumIntr(s0, 16, 2) | BitnumIntr(s1, 24, 1) | BitnumIntr(s0, 24, 0))
  }

  function ByteFive(s0: bv32, s1: bv32): bv8 {
    ToByte(BitnumIntr(s1, 1, 7) | BitnumIntr(s0, 1, 6) | BitnumIntr(s1, 9, 5) | BitnumIntr(s0, 9, 4) |
           BitnumIntr(s1, 17, 3) | BitnumIntr(s0, 17, 2) | BitnumIntr(s1, 25, 1) | BitnumIntr(s0, 25, 0))
  }

  function ByteSix(s0: bv32, s1: bv32): bv8 {
    ToByte(BitnumIntr(s1, 2, 7) | BitnumIntr(s0, 2, 6) | BitnumIntr(s1, 10, 5) | BitnumIntr(s0, 10, 4) |
           BitnumIntr(s1, 18, 3) | BitnumIntr(s0, 18, 2) | BitnumIntr(s1, 26, 1) | BitnumIntr(s0, 26, 0))
  }

  function ByteSeven(s0: bv32, s1: bv32): bv8 {
    ToByte(BitnumIntr(s1, 3, 7) | BitnumIntr(s0, 3, 6) | BitnumIntr(s1, 11, 5) | BitnumIntr(s0, 11, 4) |
           BitnumIntr(s1, 19, 3) | BitnumIntr(s0, 19, 2) | BitnumIntr(s1, 27, 1) | BitnumIntr(s0, 27, 0))
  }

  function InversePermutation(s0: bv32, s1: bv32): Block {
    [ByteZero(s0, s1), ByteOne(s0, s1), ByteTwo(s0, s1), ByteThree(s0, s1), ByteFour(s0, s1), ByteFive(s0, s1),
     ByteSix(s0, s1), ByteSeven(s0, s1)]
  }

  lemma UndoFront(d: Block)
    ensures ByteZero(InitialLeft(d), InitialRight(d)) == d[0]
    ensures ByteOne(InitialLeft(d), InitialRight(d)) == d[1]
    ensures ByteTwo(InitialLeft(d), InitialRight(d)) == d[2]
    ensures ByteThree(InitialLeft(d), InitialRight(d)) == d[3]
  {
  }

  lemma UndoBack(d: Block)
    ensures ByteFour(InitialLeft(d), InitialRight(d)) == d[4]
    ensures ByteFive(InitialLeft(d), InitialRight(d)) == d[5]
    ensures ByteSix(InitialLeft(d), InitialRight(d)) == d[6]
    ensures ByteSeven(InitialLeft(d), InitialRight(d)) == d[7]
  {
  }

  /** The inverse permutation undoes the initial one ... */
  lemma InverseOfInitial(d: Block)
    ensures InversePermutation(InitialLeft(d), InitialRight(d)) == d
  {
    hide InitialLeft, InitialRight, ByteZero, ByteOne, ByteTwo, ByteThree, ByteFour, ByteFive, ByteSix, ByteSeven;
    UndoFront(d);
    UndoBack(d);
  }

  /** Which bit of the two words each bit of an output byte is. */
  lemma BitsFront(s0: bv32, s1: bv32)
    ensures var x := ByteZero(s0, s1);
            && ((x >> 6) & 1) as bv32 == (s0 >> 27) & 1 && ((x >> 4) & 1) as bv32 == (s0 >> 19) & 1
            && ((x >> 2) & 1) as bv32 == (s0 >> 11) & 1 && ((x >> 0) & 1) as bv32 == (s0 >> 3) & 1
            && ((x >> 7) & 1) as bv32 == (s1 >> 27) & 1 && ((x >> 5) & 1) as bv32 == (s1 >> 19) & 1
            && ((x >> 3) & 1) as bv32 == (s1 >> 11) & 1 && ((x >> 1) & 1) as bv32 == (s1 >> 3) & 1
    ensures var x := ByteOne(s0, s1);
            && ((x >> 6) & 1) as bv32 == (s0 >> 26) & 1 && ((x >> 4) & 1) as bv32 == (s0 >> 18) & 1
            && ((x >> 2) & 1) as bv32 == (s0 >> 10) & 1 && ((x >> 0) & 1) as bv32 == (s0 >> 2) & 1
            && ((x >> 7) & 1) as bv32 == (s1 >> 26) & 1 && ((x >> 5) & 1) as bv32 == (s1 >> 18) & 1
            && ((x >> 3) & 1) as bv32 == (s1 >> 10) & 1 && ((x >> 1) & 1) as bv32 == (s1 >> 2) & 1
    ensures var x := ByteTwo(s0, s1);
            && ((x >> 6) & 1) as bv32 == (s0 >> 25) & 1 && ((x >> 4) & 1) as bv32 == (s0 >> 17) & 1
            && ((x >> 2) & 1) as bv32 == (s0 >> 9) & 1 && ((x >> 0) & 1) as bv32 == (s0 >> 1) & 1
            && ((x >> 7) & 1) as bv32 == (s1 >> 25) & 1 && ((x >> 5) & 1) as bv32 == (s1 >> 17) & 1
            && ((x >> 3) & 1) as bv32 == (s1 >> 9) & 1 && ((x >> 1) & 1) as bv32 == (s1 >> 1) & 1
    ensures var x := ByteThree(s0, s1);
            && ((x >> 6) & 1) as bv32 == (s0 >> 24) & 1 && ((x >> 4) & 1) as bv32 == (s0 >> 16) & 1
            && ((x >> 2) & 1) as bv32 == (s0 >> 8) & 1 && ((x >> 0) & 1) as bv32 == (s0 >> 0) & 1
            && ((x >> 7) & 1) as bv32 == (s1 >> 24) & 1 && ((x >> 5) & 1) as bv32 == (s1 >> 16) & 1
            && ((x >> 3) & 1) as bv32 == (s1 >> 8) & 1 && ((x >> 1) & 1) as bv32 == (s1 >> 0) & 1
  {
  }

  /** Which bit of the two words each bit of an output byte is. */
  lemma BitsBack(s0: bv32, s1: bv32)
    ensures var x := ByteFour(s0, s1);
            && ((x >> 6) & 1) as bv32 == (s0 >> 31) & 1 && ((x >> 4) & 1) as bv32 == (s0 >> 23) & 1
            && ((x >> 2) & 1) as bv32 == (s0 >> 15) & 1 && ((x >> 0) & 1) as bv32 == (s0 >> 7) & 1
            && ((x >> 7) & 1) as bv32 == (s1 >> 31) & 1 && ((x >> 5) & 1) as bv32 == (s1 >> 23) & 1
            && ((x >> 3) & 1) as bv32 == (s1 >> 15) & 1 && ((x >> 1) & 1) as bv32 == (s1 >> 7) & 1
    ensures var x := ByteFive(s0, s1);
            && ((x >> 6) & 1) as bv32 == (s0 >> 30) & 1 && ((x >> 4) & 1) as bv32 == (s0 >> 22) & 1
            && ((x >> 2) & 1) as bv32 == (s0 >> 14) & 1 && ((x >> 0) & 1) as bv32 == (s0 >> 6) & 1
            && ((x >> 7) & 1) as bv32 == (s1 >> 30) & 1 && ((x >> 5) & 1) as bv32 == (s1 >> 22) & 1
            && ((x >> 3) & 1) as bv32 == (s1 >> 14) & 1 && ((x >> 1) & 1) as bv32 == (s1 >> 6) & 1
    ensures var x := ByteSix(s0, s1);
            && ((x >> 6) & 1) as bv32 == (s0 >> 29) & 1 && ((x >> 4) & 1) as bv32 == (s0 >> 21) & 1
            && ((x >> 2) & 1) as bv32 == (s0 >> 13) & 1 && ((x >> 0) & 1) as bv32 == (s0 >> 5) & 1
            && ((x >> 7) & 1) as bv32 == (s1 >> 29) & 1 && ((x >> 5) & 1) as bv32 == (s1 >> 21) & 1
            && ((x >> 3) & 1) as bv32 == (s1 >> 13) & 1 && ((x >> 1) & 1) as bv32 == (s1 >> 5) & 1
    ensures var x := ByteSeven(s0, s1);
            && ((x >> 6) & 1) as bv32 == (s0 >> 28) & 1 && ((x >> 4) & 1) as bv32 == (s0 >> 20) & 1
            && ((x >> 2) & 1) as bv32 == (s0 >> 12) & 1 && ((x >> 0) & 1) as bv32 == (s0 >> 4) & 1
            && ((x >> 7) & 1) as bv32 == (s1 >> 28) & 1 && ((x >> 5) & 1) as bv32 == (s1 >> 20) & 1
            && ((x >> 3) & 1) as bv32 == (s1 >> 12) & 1 && ((x >> 1) & 1) as bv32 == (s1 >> 4) & 1
  {
  }

  /** ... and the other way round. */
  lemma InitialOfInverse(s0: bv32, s1: bv32)
    ensures InitialLeft(InversePermutation(s0, s1)) == s0
    ensures InitialRight(InversePermutation(s0, s1)) == s1
  {
    hide ByteZero, ByteOne, ByteTwo, ByteThree, ByteFour, ByteFive, ByteSix, ByteSeven;
    BitsFront(s0, s1);
    BitsBack(s0, s1);
  }

  // ---- the round function -------------------------------------------------------------

  const SBOX: seq<seq<bv32>> := [
    [14, 4, 13, 1, 2, 15, 11, 8, 3, 10, 6, 12, 5, 9, 0, 7,
     0, 15, 7, 4, 14, 2, 13, 1, 10, 6, 12, 11, 9, 5, 3, 8,
     4, 1, 14, 8, 13, 6, 2, 11, 15, 12, 9, 7, 3, 10, 5, 0,
     15, 12, 8, 2, 4, 9, 1, 7, 5, 11, 3, 14, 10, 0, 6, 13],
    [15, 1, 8, 14, 6, 11, 3, 4, 9, 7, 2, 13, 12, 0, 5, 10,
     3, 13, 4, 7, 15, 2, 8, 15, 12, 0, 1, 10, 6, 9, 11, 5,
     0, 14, 7, 11, 10, 4, 13, 1, 5, 8, 12, 6, 9, 3, 2, 15,
     13, 8, 10, 1, 3, 15, 4, 2, 11, 6, 7, 12, 0, 5, 14, 9],
    [10, 0, 9, 14, 6, 3, 15, 5, 1, 13, 12, 7, 11, 4, 2, 8,
     13, 7, 0, 9, 3, 4, 6, 10, 2, 8, 5, 14, 12, 11, 15, 1,
     13, 6, 4, 9, 8, 15, 3, 0, 11, 1, 2, 12, 5, 10, 14, 7,
     1, 10, 13, 0, 6, 9, 8, 7, 4, 15, 14, 3, 11, 5, 2, 12],
    [7, 13, 14, 3, 0, 6, 9, 10, 1, 2, 8, 5, 11, 12, 4, 15,
     13, 8, 11, 5, 6, 15, 0, 3, 4, 7, 2, 12, 1, 10, 14, 9,
     10, 6, 9, 0, 12, 11, 7, 13, 15, 1, 3, 14, 5, 2, 8, 4,
     3, 15, 0, 6, 10, 10, 13, 8, 9, 4, 5, 11, 12, 7, 2, 14],
    [2, 12, 4, 1, 7, 10, 11, 6, 8, 5, 3, 15, 13, 0, 14, 9,
     14, 11, 2, 12, 4, 7, 13, 1, 5, 0, 15, 10, 3, 9, 8, 6,
     4, 2, 1, 11, 10, 13, 7, 8, 15, 9, 12, 5, 6, 3, 0, 14,
     11, 8, 12, 7, 1, 14, 2, 13, 6, 15, 0, 9, 10, 4, 5, 3],
    [12, 1, 10, 15, 9, 2, 6, 8, 0, 13, 3, 4, 14, 7, 5, 11,
     10, 15, 4, 2, 7, 12, 9, 5, 6, 1, 13, 14, 0, 11, 3, 8,
     9, 14, 15, 5, 2, 8, 12, 3, 7, 0, 4, 10, 1, 13, 11, 6,
     4, 3, 2, 12, 9, 5, 15, 10, 11, 14, 1, 7, 6, 0, 8, 13],
    [4, 11, 2, 14, 15, 0, 8, 13, 3, 12, 9, 7, 5, 10, 6, 1,
     13, 0, 11, 7, 4, 9, 1, 10, 14, 3, 5, 12, 2, 15, 8, 6,
     1, 4, 11, 13, 12, 3, 7, 14, 10, 15, 6, 8, 0, 5, 9, 2,
     6, 11, 13, 8, 1, 4, 10, 7, 9, 5, 0, 15, 14, 2, 3, 12],
    [13, 2, 8, 4, 6, 15, 11, 1, 10, 9, 3, 14, 5, 0, 12, 7,
     1, 15, 13, 8, 10, 3, 7, 4, 12, 5, 6, 11, 0, 14, 9, 2,
     7, 11, 4, 1, 9, 12, 14, 2, 0, 6, 10, 13, 15, 3, 5, 8,
     2, 1, 14, 7, 4, 10, 8, 13, 15, 12, 9, 0, 3, 5, 6, 11]
  ]

  function SboxBit(a: bv8): bv8 { (a & 32) | ((a & 31) >> 1) | ((a & 1) << 4) }

  /** Entry of S-box `box` for six input bits. */
  function Substitute(box: nat, a: bv8): bv32
    requires box < 8
  {
    SBOX[box][(SboxBit(a) & 63) as bv6 as nat]
  }

  function PermuteRound(s: bv32): bv32 {
    BitnumIntl(s, 15, 0) | BitnumIntl(s, 6, 1) | BitnumIntl(s, 19, 2) | BitnumIntl(s, 20, 3) |
    BitnumIntl(s, 28, 4) | BitnumIntl(s, 11, 5) | BitnumIntl(s, 27, 6) | BitnumIntl(s, 16, 7) |
    BitnumIntl(s, 0, 8) | BitnumIntl(s, 14, 9) | BitnumIntl(s, 22, 10) | BitnumIntl(s, 25, 11) |
    BitnumIntl(s, 4, 12) | BitnumIntl(s, 17, 13) | BitnumIntl(s, 30, 14) | BitnumIntl(s, 9, 15) |
    BitnumIntl(s, 1, 16) | BitnumIntl(s, 7, 17) | BitnumIntl(s, 23, 18) | BitnumIntl(s, 13, 19) |
    BitnumIntl(s, 31, 20) | BitnumIntl(s, 26, 21) | BitnumIntl(s, 2, 22) | BitnumIntl(s, 8, 23) |
    BitnumIntl(s, 18, 24) | BitnumIntl(s, 12, 25) | BitnumIntl(s, 29, 26) | BitnumIntl(s, 5, 27) |
    BitnumIntl(s, 21, 28) | BitnumIntl(s, 10, 29) | BitnumIntl(s, 3, 30) | BitnumIntl(s, 24, 31)
  }

  /** The half block spread over six bytes. */
  function Expand(state: bv32): RoundKey {
    var t1 :=
      BitnumIntl(state, 31, 0) | ((state & 0xF0000000) >> 1) | BitnumIntl(state, 4, 5) |
      BitnumIntl(state, 3, 6) | ((state & 0x0F000000) >> 3) | BitnumIntl(state, 8, 11) |
      BitnumIntl(state, 7, 12) | ((state & 0x00F00000) >> 5) | BitnumIntl(state, 12, 17) |
      BitnumIntl(state, 11, 18) | ((state & 0x000F0000) >> 7) | BitnumIntl(state, 16, 23);
    var t2 :=
      BitnumIntl(state, 15, 0) | ((state & 0x0000F000) << 15) | BitnumIntl(state, 20, 5) |
      BitnumIntl(state, 19, 6) | ((state & 0x00000F00) << 13) | BitnumIntl(state, 24, 11) |
      BitnumIntl(state, 23, 12) | ((state & 0x000000F0) << 11) | BitnumIntl(state, 28, 17) |
      BitnumIntl(state, 27, 18) | ((state & 0x0000000F) << 9) | BitnumIntl(state, 0, 23);
    [ToByte(t1 >> 24), ToByte(t1 >> 16), ToByte(t1 >> 8), ToByte(t2 >> 24), ToByte(t2 >> 16), ToByte(t2 >> 8)]
  }

  function Mix(a: RoundKey, b: RoundKey): RoundKey { seq(6, i requires 0 <= i < 6 => a[i] ^ b[i]) }

  function SubstituteAll(l: RoundKey): bv32 {
    (Substitute(0, l[0] >> 2) << 28) |
    (Substitute(1, ((l[0] & 0x03) << 4) | (l[1] >> 4)) << 24) |
    (Substitute(2, ((l[1] & 0x0F) << 2) | (l[2] >> 6)) << 20) |
    (Substitute(3, l[2] & 0x3F) << 16) |
    (Substitute(4, l[3] >> 2) << 12) |
    (Substitute(5, ((l[3] & 0x03) << 4) | (l[4] >> 4)) << 8) |
    (Substitute(6, ((l[4] & 0x0F) << 2) | (l[5] >> 6)) << 4) |
    Substitute(7, l[5] & 0x3F)
  }

  /** The round function as a function of half block and key. */
  function RoundFunction(state: bv32, key: RoundKey): bv32 {
    PermuteRound(SubstituteAll(Mix(Expand(state), key)))
  }

  method F(state: bv32, key: RoundKey) returns (r: bv32)
    ensures r == RoundFunction(state, key)
  {
    hide Expand, PermuteRound, SubstituteAll;
    var lrg: seq<bv8> := Expand(state);
    for i := 0 to 6
      invariant |lrg| == 6
      invariant forall k | 0 <= k < 6 :: lrg[k] == if k < i then Expand(state)[k] ^ key[k] else Expand(state)[k]
    {
      lrg := lrg[i := lrg[i] ^ key[i]];
    }
    assert lrg == Mix(Expand(state), key);
    r := PermuteRound(SubstituteAll(lrg));
  }

  // ---- the key schedule -----------------------------------------------------------------

  type BlockBit = b: bv8 | b < 64
  type LeftBit = b: bv32 | b < 28
  type RightBit = b: bv32 | 28 <= b < 56 witness 28
  type Shift = s: bv32 | 1 <= s <= 2 witness 1

  const KEY_PERM_C: seq<BlockBit> := [
    56, 48, 40, 32, 24, 16, 8, 0, 57, 49, 41, 33, 25, 17, 9, 1,
    58, 50, 42, 34, 26, 18, 10, 2, 59, 51, 43, 35]

  const KEY_PERM_D: seq<BlockBit> := [
    62, 54, 46, 38, 30, 22, 14, 6, 61, 53, 45, 37, 29, 21, 13, 5,
    60, 52, 44, 36, 28, 20, 12, 4, 27, 19, 11, 3]

  /** The first half of the compression table selects from the left register, the second from the right. */
  const KEY_COMPRESSION_C: seq<LeftBit> := [
    13, 16, 10, 23, 0, 4, 2, 27, 14, 5, 20, 9, 22, 18, 11, 3,
    25, 7, 15, 6, 26, 19, 12, 1]

  const KEY_COMPRESSION_D: seq<RightBit> := [
    40, 51, 30, 36, 46, 54, 29, 39, 50, 44, 32, 47, 43, 48, 38, 55,
    33, 52, 45, 41, 49, 35, 28, 31]

  const KEY_RND_SHIFT: seq<Shift> := [1, 1, 2, 2, 2, 2, 2, 2, 1, 2, 2, 2, 2, 2, 2, 1]

  /** Bit position `i` counted from the top, as a shift amount. */
  function FromTop(top: nat, i: nat): (p: bv32)
    requires i <= top < 32
    ensures p < 32 && (top < 8 ==> p < 8)
  {
    (top - i) as bv32
  }

  function Plus(a: bv32, b: bv32): bv32 { a + b }

  /** Entry `i` of a key permutation, at its place from the top. */
  function PermutedBit(key: Block, perm: seq<BlockBit>, i: nat): bv32
    requires i < |perm| <= 28
  {
    Bitnum(key, perm[i], FromTop(31, i))
  }

  /** The register loaded from the first `n` entries of a key permutation. */
  function Load(key: Block, perm: seq<BlockBit>, n: nat): bv32
    requires n <= |perm| <= 28
  {
    if n == 0 then 0 else Plus(Load(key, perm, n - 1), PermutedBit(key, perm, n - 1))
  }

  function Rotate(c: bv32, shift: Shift): bv32 { ((c << shift) | (c >> (28 - shift))) & 0xFFFF_FFF0 }

  /** The register after `n` rounds of rotation. */
  function Register(c: bv32, n: nat): bv32
    requires n <= 16
  {
    if n == 0 then c else Rotate(Register(c, n - 1), KEY_RND_SHIFT[n - 1])
  }

  /** Key bit `j` of 48, at its place in its byte. */
  function KeyBit(c: bv32, d: bv32, j: nat): bv8
    requires j < 48
  {
    if j < 24 then ToByte(BitnumIntr(c, KEY_COMPRESSION_C[j], FromTop(7, j % 8)))
    else ToByte(BitnumIntr(d, KEY_COMPRESSION_D[j - 24] as bv32 - 27, FromTop(7, j % 8)))
  }

  /** The round key gathered from the first `n` key bits. */
  function Compress(c: bv32, d: bv32, n: nat): RoundKey
    requires n <= 48
  {
    if n == 0 then ZERO_KEY
    else
      var k := Compress(c, d, n - 1);
      k[(n - 1) / 8 := k[(n - 1) / 8] | KeyBit(c, d, n - 1)]
  }

  /** The key of round `i` when encrypting, from the two loaded registers. */
  function RoundKeyOf(c: bv32, d: bv32, i: nat): RoundKey
    requires i < 16
  {
    Compress(Register(c, i + 1), Register(d, i + 1), 48)
  }

  /** Decryption uses the same keys in the opposite order. */
  function KeysOf(key: Block, mode: Mode): Schedule {
    var c, d := Load(key, KEY_PERM_C, 28), Load(key, KEY_PERM_D, 28);
    seq(16, i requires 0 <= i < 16 => RoundKeyOf(c, d, if mode.Decrypt? then 15 - i else i))
  }

  method LoadRegister(key: Block, perm: seq<BlockBit>) returns (c: bv32)
    requires |perm| == 28
    ensures c == Load(key, perm, 28)
  {
    hide Plus, PermutedBit;
    c := 0;
    for i := 0 to 28
      invariant c == Load(key, perm, i)
    {
      c := Plus(c, PermutedBit(key, perm, i));
    }
  }

  /** Row `k` of a schedule of which the keys of the first `n` rounds have been written. */
  function Written(c: bv32, d: bv32, mode: Mode, n: nat, k: nat): RoundKey
    requires k < 16
  {
    var round := if mode.Decrypt? then 15 - k else k;
    if round < n then RoundKeyOf(c, d, round) else ZERO_KEY
  }

  method KeySchedule(key: Block, mode: Mode) returns (schedule: Schedule)
    ensures schedule == KeysOf(key, mode)
  {
    hide Load, Compress, Rotate;
    var c := LoadRegister(key, KEY_PERM_C);
    var d := LoadRegister(key, KEY_PERM_D);
    ghost var c0, d0 := c, d;
    schedule := ZERO_KEYS;
    for i := 0 to 16
      invariant c == Register(c0, i) && d == Register(d0, i)
      invariant forall k | 0 <= k < 16 :: schedule[k] == Written(c0, d0, mode, i, k)
    {
      c, d := Rotate(c, KEY_RND_SHIFT[i]), Rotate(d, KEY_RND_SHIFT[i]);
      var toGen := if mode.Decrypt? then 15 - i else i;
      assert schedule[toGen] == Written(c0, d0, mode, i, toGen);
      var row := GatherKey(schedule[toGen], c, d);
      schedule := schedule[toGen := row];
    }
  }

  /** ORs the 48 key bits into an empty round key, left register first. */
  method GatherKey(row0: RoundKey, c: bv32, d: bv32) returns (row: RoundKey)
    requires row0 == ZERO_KEY
    ensures row == Compress(c, d, 48)
  {
    hide KeyBit;
    row := row0;
    for j := 0 to 24
      invariant row == Compress(c, d, j)
    {
      row := row[j / 8 := row[j / 8] | KeyBit(c, d, j)];
    }
    for j := 24 to 48
      invariant row == Compress(c, d, j)
    {
      row := row[j / 8 := row[j / 8] | KeyBit(c, d, j)];
    }
  }

  function Backwards(k: Schedule): Schedule { seq(16, i requires 0 <= i < 16 => k[15 - i]) }

  /** The two schedules of a key are each other's reversal. */
  lemma SchedulesReversed(key: Block)
    ensures KeysOf(key, Decrypt) == Backwards(KeysOf(key, Encrypt))
    ensures KeysOf(key, Encrypt) == Backwards(KeysOf(key, Decrypt))
  {
    hide RoundKeyOf, Load;
    forall i | 0 <= i < 16
      ensures KeysOf(key, Decrypt)[i] == Backwards(KeysOf(key, Encrypt))[i]
      ensures KeysOf(key, Encrypt)[i] == Backwards(KeysOf(key, Decrypt))[i]
    {
    }
  }

  // ---- one pass ----------------------------------------------------------------------------

  type Round = (bv32, RoundKey) -> bv32

  datatype Halves = Halves(left: bv32, right: bv32)

  function Xor(a: bv32, b: bv32): bv32 { a ^ b }

  lemma XorCancels(x: bv32, y: bv32)
    ensures Xor(x, Xor(x, y)) == y
  {
  }

  function Step(f: Round, h: Halves, k: RoundKey): Halves { Halves(h.right, Xor(f(h.right, k), h.left)) }

  /** Both halves after `n` rounds, for any round function. */
  function Rounds(f: Round, h: Halves, keys: Schedule, n: nat): Halves
    requires n <= 16
  {
    if n == 0 then h else Step(f, Rounds(f, h, keys, n - 1), keys[n - 1])
  }

  function Initial(d: Block): Halves { Halves(InitialLeft(d), InitialRight(d)) }

  /** The last round does not swap. */
  function Last(f: Round, h: Halves, k: RoundKey): Halves { Halves(Xor(f(h.right, k), h.left), h.right) }

  /** A pass: fifteen swapping rounds and a last one that does not swap, between the permutations. */
  function Crypt(f: Round, d: Block, keys: Schedule): Block {
    var h := Last(f, Rounds(f, Initial(d), keys, 15), keys[15]);
    InversePermutation(h.left, h.right)
  }

  method CryptBlock(d: Block, keys: Schedule) returns (r: Block)
    ensures r == Crypt(RoundFunction, d, keys)
  {
    hide InitialLeft, InitialRight, InversePermutation, RoundFunction;
    var s0, s1 := InitialLeft(d), InitialRight(d);
    for idx := 0 to 15
      invariant Halves(s0, s1) == Rounds(RoundFunction, Initial(d), keys, idx)
    {
      var prevS1 := s1;
      var x := F(s1, keys[idx]);
      s1 := Xor(x, s0);
      s0 := prevS1;
    }
    var y := F(s1, keys[15]);
    s0 := Xor(y, s0);
    r := InversePermutation(s0, s1);
  }

  function Swap(h: Halves): Halves { Halves(h.right, h.left) }

  /** Undoing one round: the same round on swapped halves. */
  lemma StepUndo(f: Round, h: Halves, k: RoundKey)
    ensures Step(f, Swap(Step(f, h, k)), k) == Swap(h)
  {
    hide Xor;
    XorCancels(f(h.right, k), h.left);
  }

  /** Running backwards from the end of a pass, round j undoes round 16 - j, whatever f is. */
  lemma {:induction false} RoundsUndo(f: Round, h: Halves, keys: Schedule, j: nat)
    requires 1 <= j <= 15
    ensures Rounds(f, Last(f, Rounds(f, h, keys, 15), keys[15]), Backwards(keys), j) == Swap(Rounds(f, h, keys, 16 - j))
  {
    hide Xor;
    if j == 1 {
      var e := Rounds(f, h, keys, 15);
      assert Last(f, e, keys[15]) == Swap(Step(f, e, keys[15]));
      StepUndo(f, e, keys[15]);
      FirstRound(f, Last(f, e, keys[15]), Backwards(keys));
      assert Backwards(keys)[0] == keys[15];
    } else {
      RoundsUndo(f, h, keys, j - 1);
      StepUndo(f, Rounds(f, h, keys, 16 - j), keys[16 - j]);
      assert Backwards(keys)[j - 1] == keys[16 - j];
    }
  }

  lemma FirstRound(f: Round, h: Halves, keys: Schedule)
    ensures Rounds(f, h, keys, 1) == Step(f, h, keys[0])
  {
    assert Rounds(f, h, keys, 0) == h;
  }

  /** A pass with the keys reversed undoes the pass, for every block, every schedule and every round function. */
  lemma CryptUndo(f: Round, d: Block, keys: Schedule)
    ensures Crypt(f, Crypt(f, d, keys), Backwards(keys)) == d
  {
    hide InitialLeft, InitialRight, InversePermutation, Rounds, Xor;
    var h := Initial(d);
    var e := Last(f, Rounds(f, h, keys, 15), keys[15]);
    InitialOfInverse(e.left, e.right);
    assert Initial(Crypt(f, d, keys)) == e;
    RoundsUndo(f, h, keys, 15);
    FirstRound(f, h, keys);
    XorCancels(f(h.right, keys[0]), h.left);
    InverseOfInitial(d);
  }

  // ---- three passes ----------------------------------------------------------------------

  datatype TripleKey = TripleKey(first: Schedule, second: Schedule, third: Schedule)

  type FullKey = k: seq<bv8> | |k| == 24 witness seq(24, _ => 0)

  function TripleKeys(key: FullKey, mode: Mode): TripleKey {
    if mode.Encrypt? then
      TripleKey(KeysOf(key[0..8], Encrypt), KeysOf(key[8..16], Decrypt), KeysOf(key[16..24], Encrypt))
    else
      TripleKey(KeysOf(key[16..24], Decrypt), KeysOf(key[8..16], Encrypt), KeysOf(key[0..8], Decrypt))
  }

  method TripleKeySetup(key: FullKey, mode: Mode) returns (t: TripleKey)
    ensures t == TripleKeys(key, mode)
  {
    if mode.Encrypt? {
      var a := KeySchedule(key[0..8], Encrypt);
      var b := KeySchedule(key[8..16], Decrypt);
      var c := KeySchedule(key[16..24], Encrypt);
      return TripleKey(a, b, c);
    }
    var a := KeySchedule(key[16..24], Decrypt);
    var b := KeySchedule(key[8..16], Encrypt);
    var c := KeySchedule(key[0..8], Decrypt);
    return TripleKey(a, b, c);
  }

  function Triple(f: Round, d: Block, t: TripleKey): Block {
    Crypt(f, Crypt(f, Crypt(f, d, t.first), t.second), t.third)
  }

  method TripleCryptBlock(d: Block, t: TripleKey) returns (r: Block)
    ensures r == Triple(RoundFunction, d, t)
  {
    var b0 := CryptBlock(d, t.first);
    var b1 := CryptBlock(b0, t.second);
    r := CryptBlock(b1, t.third);
  }

  /** Triple decryption undoes triple encryption, and encryption undoes decryption. */
  lemma TripleUndo(f: Round, d: Block, key: FullKey, mode: Mode)
    ensures var other := if mode.Encrypt? then Decrypt else Encrypt;
            Triple(f, Triple(f, d, TripleKeys(key, mode)), TripleKeys(key, other)) == d
  {
    hide KeysOf, Crypt, Backwards;
    var t := TripleKeys(key, mode);
    SchedulesReversed(key[0..8]);
    SchedulesReversed(key[8..16]);
    SchedulesReversed(key[16..24]);
    var x := Crypt(f, d, t.first);
    var y := Crypt(f, x, t.second);
    CryptUndo(f, y, t.third);
    CryptUndo(f, x, t.second);
    CryptUndo(f, d, t.first);
  }

  // ---- messages ------------------------------------------------------------------------------

  /** Every block of a message on its own. */
  function Message(f: Round, m: seq<bv8>, t: TripleKey): (r: seq<bv8>)
    requires |m| % 8 == 0
    ensures |r| == |m|
  {
    if m == [] then [] else Message(f, m[..|m| - 8], t) + Triple(f, m[|m| - 8..], t)
  }

  lemma MessageSnoc(f: Round, front: seq<bv8>, last: Block, t: TripleKey)
    requires |front| % 8 == 0
    ensures Message(f, front + last, t) == Message(f, front, t) + Triple(f, last, t)
  {
    hide Triple;
    assert (front + last)[..|front|] == front && (front + last)[|front|..] == last;
  }

  /** Decrypting an encrypted message gives it back, whole. */
  lemma {:induction false} MessageUndo(f: Round, m: seq<bv8>, key: FullKey)
    requires |m| % 8 == 0
    ensures Message(f, Message(f, m, TripleKeys(key, Encrypt)), TripleKeys(key, Decrypt)) == m
  {
    hide Triple, TripleKeys;
    if m != [] {
      var front, last := m[..|m| - 8], m[|m| - 8..];
      assert front + last == m;
      MessageSnoc(f, front, last, TripleKeys(key, Encrypt));
      MessageSnoc(f, Message(f, front, TripleKeys(key, Encrypt)), Triple(f, last, TripleKeys(key, Encrypt)),
                  TripleKeys(key, Decrypt));
      MessageUndo(f, front, key);
      TripleUndo(f, last, key, Encrypt);
    }
  }

  /** Block by block into a fresh buffer. */
  method CryptMessage(m: seq<bv8>, t: TripleKey) returns (r: seq<bv8>)
    requires |m| % 8 == 0
    ensures r == Message(RoundFunction, m, t)
  {
    hide Triple;
    var buffer := new bv8[|m|](_ => 0);
    var i := 0;
    while i < |m|
      invariant 0 <= i <= |m| && i % 8 == 0
      invariant buffer[..i] == Message(RoundFunction, m[..i], t)
    {
      var block := TripleCryptBlock(m[i..i + 8], t);
      ghost var before := buffer[..i];
      for k := 0 to 8
        invariant buffer[..i] == before && buffer[i..i + k] == block[..k]
      {
        buffer[i + k] := block[k];
      }
      assert buffer[..i + 8] == before + block;
      MessageSnoc(RoundFunction, m[..i], m[i..i + 8], t);
      assert m[..i + 8] == m[..i] + m[i..i + 8];
      i := i + 8;
    }
    assert m[..i] == m && buffer[..i] == buffer[..];
    r := buffer[..];
  }

  const QQ_KEY: FullKey := [
    0x21, 0x40, 0x23, 0x29, 0x28, 0x2A, 0x24, 0x25, 0x31, 0x32, 0x33, 0x5A,
    0x58, 0x43, 0x21, 0x40, 0x21, 0x40, 0x23, 0x29, 0x28, 0x4E, 0x48, 0x4C]

  datatype QrcError = BadHex | BadLength(n: nat) | NotCompressed

  datatype QrcResult = Text(text: string) | Failed(error: QrcError)

  /** DecryptQRC.  Hex decoding and the two inflate formats are library functions. */
  method DecryptQRC(hex: string, hexDecode: string -> Option<seq<bv8>>,
                    inflateZlib: seq<bv8> -> Option<string>, inflateRaw: seq<bv8> -> Option<string>)
    returns (r: QrcResult)
    ensures r == Failed(BadHex) <==> hexDecode(hex) == None
    ensures hexDecode(hex).Some? ==>
              var c := hexDecode(hex).value;
              if |c| < 8 || |c| % 8 != 0 then r == Failed(BadLength(|c|))
              else
                var plain := Message(RoundFunction, c, TripleKeys(QQ_KEY, Decrypt));
                var z, raw := inflateZlib(plain), inflateRaw(plain);
                r == if z.Some? && z.value != "" then Text(z.value)
                     else if raw.Some? && raw.value != "" then Text(raw.value)
                     else Failed(NotCompressed)
  {
    hide Message, TripleKeys;
    var decoded := hexDecode(hex);
    if decoded.None? { return Failed(BadHex); }
    var cipher := decoded.value;
    if |cipher| < 8 || |cipher| % 8 != 0 { return Failed(BadLength(|cipher|)); }
    var t := TripleKeySetup(QQ_KEY, Decrypt);
    var plain := CryptMessage(cipher, t);
    var z := inflateZlib(plain);
    if z.Some? && z.value != "" { return Text(z.value); }
    var raw := inflateRaw(plain);
    if raw.Some? && raw.value != "" { return Text(raw.value); }
    return Failed(NotCompressed);
  }
}
