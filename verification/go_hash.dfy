/** The eleven string hashes of go-hash.go and the registry that lists them.

    A key is the byte sequence of a Go string; a digest is a Go `uint64`, here `bv64`,
    so every `+`, `-`, `*` and `<<` wraps modulo 2^64 exactly as Go's do.

    Each hash appears twice:
    - a step function saying what one loop iteration does to the accumulators, and a
      digest function that folds the step over the key (the specification);
    - a method with the source's own loop, proved to return that digest.

    Go's `<<` and `>>` bind tighter than `+` and `-`, while Dafny's bind looser and its
    `&`, `|`, `^` bind tighter than `*`; every expression below is fully parenthesised
    in the Go reading. Go's unary `^` (bitwise complement) is Dafny's `!`. */
module GoHash {
  import opened Folds

  type Key = seq<bv8>

  /** Go's `uint64(len(key))`; a Go length is below 2^63, so the reduction never bites. */
  function LenSeed(n: nat): bv64 {
    (n % 0x1_0000_0000_0000_0000) as bv64
  }

  // ---------------------------------------------------------------- RS

  datatype RSState = RSState(hash: bv64, a: bv64)

  /** `hash` starts at 0 and the multiplier `a` at 63689. */
  const RSSeed := RSState(0, 63689)

  /** One iteration: `hash = hash*a + c`, then `a = a*b` with the fixed `b` = 378551. */
  function RSStep(s: RSState, c: bv8): RSState {
    RSState((s.hash * s.a) + (c as bv64), s.a * 378551)
  }

  function RSDigest(key: Key): bv64 {
    Fold(RSStep, RSSeed, key).hash
  }

  method RSHash(key: Key) returns (hash: bv64)
    ensures hash == RSDigest(key)
  {
    var a: bv64 := 63689;
    hash := 0;
    for i := 0 to |key|
      invariant RSState(hash, a) == Fold(RSStep, RSSeed, key[..i])
    {
      FoldAppend(RSStep, RSSeed, key[..i], key[i]);
      assert key[..i + 1] == key[..i] + [key[i]];
      var next := RSStep(RSState(hash, a), key[i]);
      hash, a := next.hash, next.a;
    }
    assert key[..|key|] == key;
  }

  // ---------------------------------------------------------------- JS

  const JSSeed: bv64 := 1315423911

  function JSStep(hash: bv64, c: bv8): bv64 {
    hash ^ ((hash << 5) + (c as bv64) + (hash >> 2))
  }

  function JSDigest(key: Key): bv64 {
    Fold(JSStep, JSSeed, key)
  }

  method JSHash(key: Key) returns (hash: bv64)
    ensures hash == JSDigest(key)
  {
    hash := 1315423911;
    for i := 0 to |key|
      invariant hash == Fold(JSStep, JSSeed, key[..i])
    {
      FoldAppend(JSStep, JSSeed, key[..i], key[i]);
      assert key[..i + 1] == key[..i] + [key[i]];
      ghost var prev := hash;
      hash := hash ^ ((hash << 5) + (key[i] as bv64) + (hash >> 2));
      assert hash == JSStep(prev, key[i]);
    }
    assert key[..|key|] == key;
  }

  // ---------------------------------------------------------------- PJW

  /** The word size PJW's masks are derived from: 32 bits, not the 64 of the accumulator. */
  const BitsInUint: bv64 := 4 * 8
  const ThreeQuarters: bv64 := BitsInUint * 3 / 4
  const OneEighth: bv64 := BitsInUint / 8
  /** `0xFFFFFFFF << 28` as a `uint64`: bits 28 to 59. */
  const HighBits: bv64 := (0xFFFF_FFFF as bv64) << (BitsInUint - OneEighth)

  function PJWStep(hash: bv64, c: bv8): bv64 {
    var shifted := (hash << OneEighth) + (c as bv64);
    var test := shifted & HighBits;
    if test != 0 then (shifted ^ (test >> ThreeQuarters)) & !HighBits else shifted
  }

  function PJWDigest(key: Key): bv64 {
    Fold(PJWStep, 0, key)
  }

  method PJWHash(key: Key) returns (hash: bv64)
    ensures hash == PJWDigest(key)
  {
    hash := 0;
    for i := 0 to |key|
      invariant hash == Fold(PJWStep, 0, key[..i])
    {
      FoldAppend(PJWStep, 0, key[..i], key[i]);
      assert key[..i + 1] == key[..i] + [key[i]];
      hash := PJWStep(hash, key[i]);
    }
    assert key[..|key|] == key;
  }

  // ---------------------------------------------------------------- ELF

  /** The high nibble of a 32-bit word, bits 28 to 31. */
  const ELFHighNibble: bv64 := 0xF000_0000

  function ELFStep(hash: bv64, c: bv8): bv64 {
    var shifted := (hash << 4) + (c as bv64);
    var x := shifted & ELFHighNibble;
    var folded := if x != 0 then shifted ^ (x >> 24) else shifted;
    folded & !x
  }

  function ELFDigest(key: Key): bv64 {
    Fold(ELFStep, 0, key)
  }

  method ELFHash(key: Key) returns (hash: bv64)
    ensures hash == ELFDigest(key)
  {
    hash := 0;
    for i := 0 to |key|
      invariant hash == Fold(ELFStep, 0, key[..i])
    {
      FoldAppend(ELFStep, 0, key[..i], key[i]);
      assert key[..i + 1] == key[..i] + [key[i]];
      hash := ELFStep(hash, key[i]);
    }
    assert key[..|key|] == key;
  }

  // ---------------------------------------------------------------- BKDR

  /** `hash*m + c` modulo 2^64: one step of a multiplicative (Horner) string hash. */
  function MulAdd(hash: bv64, m: bv64, c: bv8): bv64 {
    (hash * m) + (c as bv64)
  }

  /** Go's `hash*seed + uint64(key[i])` with the constant `seed` = 131. */
  function BKDRStep(hash: bv64, c: bv8): bv64 {
    MulAdd(hash, 131, c)
  }

  function BKDRDigest(key: Key): bv64 {
    Fold(BKDRStep, 0, key)
  }

  method BKDRHash(key: Key) returns (hash: bv64)
    ensures hash == BKDRDigest(key)
  {
    hash := 0;
    for i := 0 to |key|
      invariant hash == Fold(BKDRStep, 0, key[..i])
    {
      FoldAppend(BKDRStep, 0, key[..i], key[i]);
      assert key[..i + 1] == key[..i] + [key[i]];
      hash := BKDRStep(hash, key[i]);
    }
    assert key[..|key|] == key;
  }

  // ---------------------------------------------------------------- SDBM

  /** Go's `uint64(key[i]) + hash<<6 + hash<<16 - hash`; that this is `hash*65599 + c` is the
      lemma `SDBMShiftsAreTimes65599`. */
  function SDBMStep(hash: bv64, c: bv8): bv64 {
    (c as bv64) + (hash << 6) + (hash << 16) - hash
  }

  function SDBMDigest(key: Key): bv64 {
    Fold(SDBMStep, 0, key)
  }

  method SDBMHash(key: Key) returns (hash: bv64)
    ensures hash == SDBMDigest(key)
  {
    hash := 0;
    for i := 0 to |key|
      invariant hash == Fold(SDBMStep, 0, key[..i])
    {
      FoldAppend(SDBMStep, 0, key[..i], key[i]);
      assert key[..i + 1] == key[..i] + [key[i]];
      ghost var prev := hash;
      hash := (key[i] as bv64) + (hash << 6) + (hash << 16) - hash;
      assert hash == SDBMStep(prev, key[i]);
    }
    assert key[..|key|] == key;
  }

  // ---------------------------------------------------------------- DJB

  const DJBSeed: bv64 := 5381

  /** Go's `(hash<<5) + hash + uint64(key[i])`; that this is `hash*33 + c` is the lemma
      `DJBShiftAddIsTimes33`. */
  function DJBStep(hash: bv64, c: bv8): bv64 {
    (hash << 5) + hash + (c as bv64)
  }

  function DJBDigest(key: Key): bv64 {
    Fold(DJBStep, DJBSeed, key)
  }

  method DJBHash(key: Key) returns (hash: bv64)
    ensures hash == DJBDigest(key)
  {
    hash := 5381;
    for i := 0 to |key|
      invariant hash == Fold(DJBStep, DJBSeed, key[..i])
    {
      FoldAppend(DJBStep, DJBSeed, key[..i], key[i]);
      assert key[..i + 1] == key[..i] + [key[i]];
      ghost var prev := hash;
      hash := (hash << 5) + hash + (key[i] as bv64);
      assert hash == DJBStep(prev, key[i]);
    }
    assert key[..|key|] == key;
  }

  // ---------------------------------------------------------------- DEK

  function DEKStep(hash: bv64, c: bv8): bv64 {
    (hash << 5) ^ (hash >> 27) ^ (c as bv64)
  }

  /** DEK is seeded with the key's own length. */
  function DEKDigest(key: Key): bv64 {
    Fold(DEKStep, LenSeed(|key|), key)
  }

  method DEKHash(key: Key) returns (hash: bv64)
    ensures hash == DEKDigest(key)
  {
    hash := LenSeed(|key|);
    for i := 0 to |key|
      invariant hash == Fold(DEKStep, LenSeed(|key|), key[..i])
    {
      FoldAppend(DEKStep, LenSeed(|key|), key[..i], key[i]);
      assert key[..i + 1] == key[..i] + [key[i]];
      ghost var prev := hash;
      hash := (hash << 5) ^ (hash >> 27) ^ (key[i] as bv64);
      assert hash == DEKStep(prev, key[i]);
    }
    assert key[..|key|] == key;
  }

  // ---------------------------------------------------------------- AP

  /** AP's step depends on the parity of the byte's position, so the loop index rides along. */
  datatype APState = APState(hash: bv64, index: nat)

  const APSeed := APState(0, 0)

  /** The mix applied to a byte at an even position. */
  function APEvenMix(hash: bv64, c: bv8): bv64 {
    hash ^ ((hash << 7) ^ (c as bv64) ^ (hash >> 3))
  }

  /** The mix applied to a byte at an odd position, with its bitwise complement. */
  function APOddMix(hash: bv64, c: bv8): bv64 {
    hash ^ !((hash << 11) ^ (c as bv64) ^ (hash >> 5))
  }

  /** Go's `i&1 == 0` on a non-negative index is "i is even". */
  function APStep(s: APState, c: bv8): APState {
    if s.index % 2 == 0 then APState(APEvenMix(s.hash, c), s.index + 1)
    else APState(APOddMix(s.hash, c), s.index + 1)
  }

  function APDigest(key: Key): bv64 {
    Fold(APStep, APSeed, key).hash
  }

  method APHash(key: Key) returns (hash: bv64)
    ensures hash == APDigest(key)
  {
    hash := 0;
    for i := 0 to |key|
      invariant APState(hash, i) == Fold(APStep, APSeed, key[..i])
    {
      FoldAppend(APStep, APSeed, key[..i], key[i]);
      assert key[..i + 1] == key[..i] + [key[i]];
      if i % 2 == 0 {
        hash := APEvenMix(hash, key[i]);
      } else {
        hash := APOddMix(hash, key[i]);
      }
    }
    assert key[..|key|] == key;
  }

  // ---------------------------------------------------------------- FNV

  /** The 32-bit FNV-1 offset basis; the prime is the 32-bit FNV-1 prime 16777619. Both are
      used in a 64-bit accumulator that is never truncated to 32 bits. */
  const FNVOffsetBasis: bv64 := 2166136261

  function FNVStep(hash: bv64, c: bv8): bv64 {
    (hash * 16777619) ^ (c as bv64)
  }

  /** The empty key is special-cased to 0 rather than the offset basis. */
  function FNVDigest(key: Key): bv64 {
    if key == [] then 0 else Fold(FNVStep, FNVOffsetBasis, key)
  }

  method FNVHash(key: Key) returns (hash: bv64)
    ensures hash == FNVDigest(key)
  {
    if key == [] {
      return 0;
    }
    hash := 2166136261;
    for i := 0 to |key|
      invariant hash == Fold(FNVStep, FNVOffsetBasis, key[..i])
    {
      FoldAppend(FNVStep, FNVOffsetBasis, key[..i], key[i]);
      assert key[..i + 1] == key[..i] + [key[i]];
      hash := FNVStep(hash, key[i]);
    }
    assert key[..|key|] == key;
  }

  // ---------------------------------------------------------------- MYSQL

  /** MySQL's two co-evolving accumulators; only `nr` is returned. */
  datatype MySQLState = MySQLState(nr: bv64, nr2: bv64)

  const MySQLSeed := MySQLState(1, 4)

  function MySQLStep(s: MySQLState, c: bv8): MySQLState {
    MySQLState(s.nr ^ ((((s.nr & 63) + s.nr2) * (c as bv64)) + (s.nr << 8)), s.nr2 + 3)
  }

  function MySQLDigest(key: Key): bv64 {
    Fold(MySQLStep, MySQLSeed, key).nr
  }

  method MySQLHash(key: Key) returns (nr: bv64)
    ensures nr == MySQLDigest(key)
  {
    var nr2: bv64;
    nr, nr2 := 1, 4;
    for i := 0 to |key|
      invariant MySQLState(nr, nr2) == Fold(MySQLStep, MySQLSeed, key[..i])
    {
      FoldAppend(MySQLStep, MySQLSeed, key[..i], key[i]);
      assert key[..i + 1] == key[..i] + [key[i]];
      var next := MySQLStep(MySQLState(nr, nr2), key[i]);
      nr, nr2 := next.nr, next.nr2;
    }
    assert key[..|key|] == key;
  }

  // ---------------------------------------------------------------- registry

  /** One tag per hash, so that callers can pick a hash as a value (Go's `Func`). */
  datatype Algorithm = RS | JS | PJW | ELF | BKDR | SDBM | DJB | DEK | AP | FNV | MYSQL

  /** The digest the tagged hash gives `key`. */
  function Digest(alg: Algorithm, key: Key): bv64 {
    match alg
    case RS => RSDigest(key)
    case JS => JSDigest(key)
    case PJW => PJWDigest(key)
    case ELF => ELFDigest(key)
    case BKDR => BKDRDigest(key)
    case SDBM => SDBMDigest(key)
    case DJB => DJBDigest(key)
    case DEK => DEKDigest(key)
    case AP => APDigest(key)
    case FNV => FNVDigest(key)
    case MYSQL => MySQLDigest(key)
  }

  /** Calling a hash through the registry runs that hash's own loop. */
  method Hash(alg: Algorithm, key: Key) returns (digest: bv64)
    ensures digest == Digest(alg, key)
  {
    match alg
    case RS => digest := RSHash(key);
    case JS => digest := JSHash(key);
    case PJW => digest := PJWHash(key);
    case ELF => digest := ELFHash(key);
    case BKDR => digest := BKDRHash(key);
    case SDBM => digest := SDBMHash(key);
    case DJB => digest := DJBHash(key);
    case DEK => digest := DEKHash(key);
    case AP => digest := APHash(key);
    case FNV => digest := FNVHash(key);
    case MYSQL => digest := MySQLHash(key);
  }

  /** `AllFuncs`: the eleven hashes in definition order, none listed twice
      (that none is missing is the lemma `AllFuncsComplete`). */
  function AllFuncs(): (funcs: seq<Algorithm>)
    ensures |funcs| == 11
    ensures forall i, j :: 0 <= i < j < |funcs| ==> funcs[i] != funcs[j]
  {
    [RS, JS, PJW, ELF, BKDR, SDBM, DJB, DEK, AP, FNV, MYSQL]
  }
}
