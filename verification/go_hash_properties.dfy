/** What the hashes of go-hash.go promise, proved about their specifications in module GoHash.
    By the `ensures` of each loop method, every fact here holds of the value the method returns. */
module GoHashProperties {
  import opened Folds
  import opened GoHash

  // ---------------------------------------------------------------- empty keys

  /** On the empty key every hash returns its starting accumulator, except FNV, which is
      special-cased to 0, and DEK, whose starting accumulator is the key length, 0. */
  lemma EmptyKeyDigests()
    ensures RSDigest([]) == 0 && JSDigest([]) == 1315423911 && PJWDigest([]) == 0
    ensures ELFDigest([]) == 0 && BKDRDigest([]) == 0 && SDBMDigest([]) == 0
    ensures DJBDigest([]) == 5381 && DEKDigest([]) == 0 && APDigest([]) == 0
    ensures FNVDigest([]) == 0 && MySQLDigest([]) == 1
  {
  }

  // ---------------------------------------------------------------- FNV

  /** FNV's 0 for the empty key is not its seed: the first byte is mixed into the offset basis
      2166136261, and every later byte into the digest of the bytes before it. */
  lemma {:induction false} FNVAppend(key: Key, c: bv8)
    ensures FNVDigest(key + [c]) == FNVStep(if key == [] then FNVOffsetBasis else FNVDigest(key), c)
  {
    FoldAppend(FNVStep, FNVOffsetBasis, key, c);
  }

  /** The product of the 32-bit offset basis and prime is kept in 64 bits, so even a one-byte
      key gets a digest of 2^32 or more: this is not the 32-bit FNV-1 hash. */
  lemma FNVOneByteExceeds32Bits(c: bv8)
    ensures FNVDigest([c]) == 0x0081_1D69_050C_5D1F ^ (c as bv64)
    ensures FNVDigest([c]) > 0xFFFF_FFFF
  {
    FoldSingle(FNVStep, FNVOffsetBasis, c);
  }

  // ---------------------------------------------------------------- PJW

  /** One PJW step keeps the accumulator below 2^28: from below 2^28, `(hash<<4) + c` is
      below 2^60, and the high-bits test then clears bits 28 to 59. */
  lemma PJWStepBelow(hash: bv64, c: bv8)
    requires hash < 0x1000_0000
    ensures PJWStep(hash, c) < 0x1000_0000
  {
  }

  lemma {:induction false} PJWFoldBelow(hash: bv64, key: Key)
    requires hash < 0x1000_0000
    ensures Fold(PJWStep, hash, key) < 0x1000_0000
    decreases |key|
  {
    if key != [] {
      PJWStepBelow(hash, key[0]);
      PJWFoldBelow(PJWStep(hash, key[0]), key[1..]);
    }
  }

  /** Every PJW digest fits in 28 bits. */
  lemma PJWDigestBelow(key: Key)
    ensures PJWDigest(key) < 0x1000_0000
  {
    PJWFoldBelow(0, key);
  }

  // ---------------------------------------------------------------- ELF

  /** The fold-back XOR only touches bits 4 to 7, and `hash &= ^x` then clears exactly the
      high-nibble bits that were tested. */
  lemma ELFStepClearsHighNibble(hash: bv64, c: bv8)
    ensures ELFStep(hash, c) & 0xF000_0000 == 0
  {
  }

  /** Every ELF digest has bits 28 to 31 clear. */
  lemma ELFDigestHighNibbleClear(key: Key)
    ensures ELFDigest(key) & 0xF000_0000 == 0
  {
    if key != [] {
      var prefix, last := key[..|key| - 1], key[|key| - 1];
      assert key == prefix + [last];
      FoldAppend(ELFStep, 0, prefix, last);
      ELFStepClearsHighNibble(Fold(ELFStep, 0, prefix), last);
    }
  }

  /** ELF clears only bits 28 to 31, not everything above them: on 64 bits, `(hash<<4) + c`
      can carry into bit 32, which no later step clears. So ELF is not bounded by 2^32, and on
      this key it parts from PJW, whose mask covers bits 28 to 59. */
  lemma ELFCarriesPastBit31()
    ensures ELFDigest([15, 15, 15, 15, 15, 15, 15, 16]) == 0x1_0000_0000
    ensures PJWDigest([15, 15, 15, 15, 15, 15, 15, 16]) == 0x100
  {
  }

  // ---------------------------------------------------------------- incremental forms

  /** The multiplicative hash of `key` with multiplier `m` from `seed`, defined back to front:
      the last byte is added to `m` times the hash of the bytes before it. */
  function Horner(m: bv64, seed: bv64, key: Key): bv64
    decreases |key|
  {
    if key == [] then seed else MulAdd(Horner(m, seed, key[..|key| - 1]), m, key[|key| - 1])
  }

  /** `hash<<5 + hash` is `hash*33` modulo 2^64: the DJB step is a multiply-by-33 and add. */
  lemma DJBShiftAddIsTimes33(hash: bv64, c: bv8)
    ensures (hash << 5) + hash + (c as bv64) == (hash * 33) + (c as bv64)
  {
  }

  /** `c + hash<<6 + hash<<16 - hash` is `hash*65599 + c` modulo 2^64 (64 + 65536 - 1 = 65599):
      the SDBM step is a multiply-by-65599 and add. */
  lemma SDBMShiftsAreTimes65599(hash: bv64, c: bv8)
    ensures (hash * 65599) + (c as bv64) == (c as bv64) + (hash << 6) + (hash << 16) - hash
  {
  }

  /** Appending a byte to a BKDR key multiplies the digest by 131 and adds the byte. */
  lemma {:induction false} BKDRAppend(key: Key, c: bv8)
    ensures BKDRDigest(key + [c]) == MulAdd(BKDRDigest(key), 131, c)
  {
    FoldAppend(BKDRStep, 0, key, c);
  }

  /** Appending a byte to a DJB key applies one step to the digest so far, which by
      `DJBShiftAddIsTimes33` multiplies it by 33 and adds the byte. */
  lemma {:induction false} DJBAppend(key: Key, c: bv8)
    ensures DJBDigest(key + [c]) == DJBStep(DJBDigest(key), c)
  {
    FoldAppend(DJBStep, DJBSeed, key, c);
  }

  /** Appending a byte to an SDBM key applies one step to the digest so far, which by
      `SDBMShiftsAreTimes65599` multiplies it by 65599 and adds the byte. */
  lemma {:induction false} SDBMAppend(key: Key, c: bv8)
    ensures SDBMDigest(key + [c]) == SDBMStep(SDBMDigest(key), c)
  {
    FoldAppend(SDBMStep, 0, key, c);
  }

  /** BKDR is the multiplicative hash with multiplier 131 from 0. */
  lemma {:induction false} BKDRIsHorner(key: Key)
    ensures BKDRDigest(key) == Horner(131, 0, key)
    decreases |key|
  {
    if key != [] {
      var prefix, last := key[..|key| - 1], key[|key| - 1];
      assert key == prefix + [last];
      BKDRAppend(prefix, last);
      BKDRIsHorner(prefix);
    }
  }

  // ---------------------------------------------------------------- single bytes

  /** On a one-byte key, RS, BKDR, SDBM and AP return the byte itself: their accumulator starts
      at 0, and AP's index 0 takes the even branch. */
  lemma SingleByteDigests(c: bv8)
    ensures RSDigest([c]) == c as bv64
    ensures BKDRDigest([c]) == c as bv64
    ensures SDBMDigest([c]) == c as bv64
    ensures APDigest([c]) == c as bv64
  {
    FoldSingle(RSStep, RSSeed, c);
    FoldSingle(BKDRStep, 0, c);
    FoldSingle(SDBMStep, 0, c);
    FoldSingle(APStep, APSeed, c);
  }

  /** DEK starts from the key length, so a one-byte key gives `(1<<5) ^ c`, never `c`. */
  lemma DEKSingleByte(c: bv8)
    ensures DEKDigest([c]) == 0x20 ^ (c as bv64)
    ensures DEKDigest([c]) != c as bv64
  {
    assert |[c]| == 1;
    LenSeedOne();
    FoldSingle(DEKStep, 1, c);
  }

  lemma LenSeedOne()
    ensures LenSeed(1) == 1
  {
    assert 1 % 0x1_0000_0000_0000_0000 == 1;
  }

  // ---------------------------------------------------------------- MYSQL

  /** `4 + 3*n` modulo 2^64, counted up one byte at a time. */
  function MySQLNr2(n: nat): bv64 {
    if n == 0 then 4 else MySQLNr2(n - 1) + 3
  }

  /** MYSQL's second accumulator depends only on how many bytes were read, never on their values. */
  lemma {:induction false} MySQLNr2After(key: Key)
    ensures Fold(MySQLStep, MySQLSeed, key).nr2 == MySQLNr2(|key|)
    decreases |key|
  {
    if key != [] {
      var prefix, last := key[..|key| - 1], key[|key| - 1];
      assert key == prefix + [last];
      FoldAppend(MySQLStep, MySQLSeed, prefix, last);
      MySQLNr2After(prefix);
    }
  }

  // ---------------------------------------------------------------- a known vector

  /** A key on which the eleven hashes give eleven different digests. On ordinary text keys
      PJW and ELF agree; this one needs the carry past bit 31 of `ELFCarriesPastBit31`. */
  const CarryKey: Key := [15, 15, 15, 15, 15, 15, 15, 16]

  lemma RSCarryKey()
    ensures RSDigest(CarryKey) == 0xB74F_D602_4E94_82A1
  {
  }

  lemma MulCarryKey()
    ensures BKDRDigest(CarryKey) == 0x23_8D9D_5B81_FE31
    ensures FNVDigest(CarryKey) == 0xE5B9_0BCF_29D9_F4B2
    ensures MySQLDigest(CarryKey) == 0x4BB9_F7FE_1404_F108
  {
  }

  lemma ShiftCarryKey()
    ensures JSDigest(CarryKey) == 0x6813_1E4D_391D_685F
    ensures SDBMDigest(CarryKey) == 0x3E51_C724_2358_CF01
    ensures DJBDigest(CarryKey) == 0x1A_E38C_FA4D_9EFE
  {
  }

  lemma DEKCarryKey()
    ensures DEKDigest(CarryKey) == 0x87B_DEF7_B5EB
  {
    assert |CarryKey| == 8;
    assert 8 % 0x1_0000_0000_0000_0000 == 8;
  }

  /** AP evaluated two bytes at a time. */
  lemma APCarryKey()
    ensures APDigest(CarryKey) == 0x94DB_964D_6ABB_6C42
  {
    var s2 := APState(0xFFFF_FFFF_FFFF_87FF, 2);
    var s4 := APState(0x1F00_0001_E386_133B, 4);
    var s6 := APState(0x67FF_7FEF_9981_D145, 6);
    assert Fold(APStep, APSeed, [15, 15]) == s2;
    assert Fold(APStep, s2, [15, 15]) == s4;
    assert Fold(APStep, s4, [15, 15]) == s6;
    assert Fold(APStep, s6, [15, 16]) == APState(0x94DB_964D_6ABB_6C42, 8);
    assert CarryKey == [15, 15] + ([15, 15] + ([15, 15] + [15, 16]));
    FoldConcat(APStep, APSeed, [15, 15], [15, 15] + ([15, 15] + [15, 16]));
    FoldConcat(APStep, s2, [15, 15], [15, 15] + [15, 16]);
    FoldConcat(APStep, s4, [15, 15], [15, 16]);
  }

  /** On `CarryKey` no two of the eleven hashes agree. */
  lemma CarryKeySeparatesAll(a: Algorithm, b: Algorithm)
    requires a != b
    ensures Digest(a, CarryKey) != Digest(b, CarryKey)
  {
    ELFCarriesPastBit31();
    RSCarryKey();
    MulCarryKey();
    ShiftCarryKey();
    DEKCarryKey();
    APCarryKey();
  }

  // ---------------------------------------------------------------- registry

  /** No hash is missing from `AllFuncs`. */
  lemma AllFuncsComplete(alg: Algorithm)
    ensures alg in AllFuncs()
  {
    match alg
    case RS => assert AllFuncs()[0] == alg;
    case JS => assert AllFuncs()[1] == alg;
    case PJW => assert AllFuncs()[2] == alg;
    case ELF => assert AllFuncs()[3] == alg;
    case BKDR => assert AllFuncs()[4] == alg;
    case SDBM => assert AllFuncs()[5] == alg;
    case DJB => assert AllFuncs()[6] == alg;
    case DEK => assert AllFuncs()[7] == alg;
    case AP => assert AllFuncs()[8] == alg;
    case FNV => assert AllFuncs()[9] == alg;
    case MYSQL => assert AllFuncs()[10] == alg;
  }
}
