# go-hash in Dafny

A model of `go-hash.go`, a Go package of eleven classic string hash functions
(RS, JS, PJW, ELF, BKDR, SDBM, DJB, DEK, AP, FNV and MYSQL) and the `AllFuncs`
registry that lists them. Each Go function takes a string key and returns a
`uint64` digest. It walks the key's bytes front to back, updating one or two
`uint64` accumulators.

The model has three modules:

- `Folds` (`folds.dfy`) defines a left fold of a per-byte step over a key. It
  proves the fact every loop proof needs: one more byte is one more step.
- `GoHash` (`go_hash.dfy`) holds the hashes. A key is a `seq<bv8>` and a digest
  is a `bv64`, so `+`, `-`, `*` and `<<` wrap modulo 2^64 exactly as Go's do.
  Each hash has three parts:
  - a step function for one loop iteration;
  - a digest function that folds the step over the key, which is the
    specification;
  - a method that runs the Go loop and is proved to return that digest.

  The registry is a tag per hash, a `Digest` dispatch function, a `Hash` method
  that runs the tagged hash's loop, and `AllFuncs`.
- `GoHashProperties` (`go_hash_properties.dfy`) proves what the hashes promise.
  This covers empty-key and single-byte results, the PJW and ELF bit bounds,
  BKDR as a multiplicative (Horner) hash, and the DJB and SDBM steps as
  multiply-and-add. It also covers the FNV special case, the MYSQL second
  accumulator and the completeness of the registry. Finally, it pins all eleven
  digests on one key, on which they are pairwise distinct.

Go's `<<` and `>>` bind tighter than `+` and `-`. Dafny's shifts bind looser, and
Dafny's `&`, `|` and `^` bind tighter than `*`. The Dafny expressions are
therefore fully parenthesised in the Go reading. Go's unary `^` is Dafny's `!`.

## Model

| member | source | states |
|---|---|---|
| `GoHash.RSHash` | go-hash.go:11-19 | Returns the fold of `hash = hash*a + c; a = a*378551` from `hash = 0`, `a = 63689`, all modulo 2^64. |
| `GoHash.JSHash` | go-hash.go:22-28 | Returns the fold of `hash ^= (hash<<5) + c + (hash>>2)` from 1315423911. |
| `GoHash.PJWHash` | go-hash.go:31-49 | Returns the fold of the PJW step from 0. The step is `(hash<<4) + c`; when bits 28-59 (`0xFFFFFFFF << 28` as a `uint64`) are non-zero, it folds them down by 24 and clears them. |
| `GoHash.ELFHash` | go-hash.go:52-62 | Returns the fold of the ELF step from 0. The step is `(hash<<4) + c`; it XORs the high nibble `x = hash & 0xF0000000` down by 24 when non-zero, then always clears it with `hash &= ^x`. |
| `GoHash.BKDRHash` | go-hash.go:67-74 | Returns the fold of `hash*131 + c` from 0. |
| `GoHash.SDBMHash` | go-hash.go:77-83 | Returns the fold of `c + (hash<<6) + (hash<<16) - hash` from 0. |
| `GoHash.DJBHash` | go-hash.go:86-92 | Returns the fold of `(hash<<5) + hash + c` from 5381. |
| `GoHash.DEKHash` | go-hash.go:95-101 | Returns the fold of `(hash<<5) ^ (hash>>27) ^ c`, seeded with the key length as a `uint64`. |
| `GoHash.APHash` | go-hash.go:104-114 | Returns the fold in which the byte at an even index mixes in `(hash<<7) ^ c ^ (hash>>3)` and the byte at an odd index mixes in the complement of `(hash<<11) ^ c ^ (hash>>5)`, from 0. |
| `GoHash.FNVHash` | go-hash.go:117-127 | Returns 0 for the empty key. Otherwise it returns the fold of `(hash*16777619) ^ c` from 2166136261, in 64 bits. |
| `GoHash.MySQLHash` | go-hash.go:130-137 | Returns `nr` of the fold of `nr ^= ((nr&63) + nr2)*c + (nr<<8); nr2 += 3` from `nr = 1`, `nr2 = 4`. |
| `GoHash.Hash` | go-hash.go:4-8 | Calling a hash through the registry returns exactly that hash's digest. |
| `GoHash.AllFuncs` | go-hash.go:6-8 | The registry has exactly 11 entries, no two the same. |
| `GoHashProperties.AllFuncsComplete` | go-hash.go:6-8 | Every one of the eleven hashes is in the registry, so with `AllFuncs` it lists each exactly once. |
| `GoHashProperties.EmptyKeyDigests` | go-hash.go:12-131 | On the empty key the results are: RS, PJW, ELF, BKDR, SDBM, DEK (length 0) and AP give 0; JS gives 1315423911; DJB gives 5381; MYSQL gives 1; FNV gives 0. |
| `GoHashProperties.FNVAppend` | go-hash.go:117-125 | FNV of `key + [c]` is one step from the offset basis 2166136261 when `key` is empty, and one step from FNV of `key` otherwise. So the 0 for the empty key is never a starting value. |
| `GoHashProperties.FNVOneByteExceeds32Bits` | go-hash.go:121-125 | A one-byte key gives `0x811D69050C5D1F ^ c`, which is at least 2^32: the 32-bit basis and prime multiply in 64 bits. |
| `GoHashProperties.PJWStepBelow` | go-hash.go:42-47 | A PJW step from an accumulator below 2^28 stays below 2^28. |
| `GoHashProperties.PJWDigestBelow` | go-hash.go:31-49 | Every PJW digest is below 2^28. |
| `GoHashProperties.ELFStepClearsHighNibble` | go-hash.go:55-59 | After any ELF step, bits 28-31 are clear. |
| `GoHashProperties.ELFDigestHighNibbleClear` | go-hash.go:52-62 | Every ELF digest has `digest & 0xF0000000 == 0`. |
| `GoHashProperties.ELFCarriesPastBit31` | go-hash.go:55-59 | ELF clears only bits 28-31. On the key `[15, 15, 15, 15, 15, 15, 15, 16]` a carry into bit 32 survives, so ELF gives 2^32 while PJW gives 0x100. ELF digests are therefore not bounded by 2^32. |
| `GoHashProperties.BKDRAppend` | go-hash.go:71 | BKDR of `key + [c]` is `BKDR(key)*131 + c` modulo 2^64. |
| `GoHashProperties.BKDRIsHorner` | go-hash.go:67-74 | BKDR equals the Horner reference hash with multiplier 131 and seed 0. The reference is defined independently, back to front. |
| `GoHashProperties.DJBShiftAddIsTimes33` | go-hash.go:89 | `(hash<<5) + hash + c` equals `hash*33 + c` modulo 2^64. |
| `GoHashProperties.DJBAppend` | go-hash.go:89 | DJB of `key + [c]` is one DJB step applied to DJB of `key`. |
| `GoHashProperties.SDBMShiftsAreTimes65599` | go-hash.go:80 | `c + (hash<<6) + (hash<<16) - hash` equals `hash*65599 + c` modulo 2^64. |
| `GoHashProperties.SDBMAppend` | go-hash.go:80 | SDBM of `key + [c]` is one SDBM step applied to SDBM of `key`. |
| `GoHashProperties.SingleByteDigests` | go-hash.go:12-111 | On a one-byte key `[c]`, RS (line 15), BKDR (line 71), SDBM (line 80) and AP (lines 107-108) all return `c`. Their accumulators start at 0, and AP's index 0 takes the even branch. |
| `GoHashProperties.DEKSingleByte` | go-hash.go:96-98 | On a one-byte key DEK returns `(1<<5) ^ c`, never `c`, because it is seeded with the length. |
| `GoHashProperties.RSCarryKey` | go-hash.go:11-19 | RS on `CarryKey` (`[15, 15, 15, 15, 15, 15, 15, 16]`) is 0xB74FD6024E9482A1. |
| `GoHashProperties.ShiftCarryKey` | go-hash.go:22-92 | On `CarryKey`, JS is 0x68131E4D391D685F, SDBM is 0x3E51C7242358CF01 and DJB is 0x1AE38CFA4D9EFE. |
| `GoHashProperties.DEKCarryKey` | go-hash.go:95-101 | DEK on `CarryKey`, seeded with its length 8, is 0x87BDEF7B5EB. |
| `GoHashProperties.APCarryKey` | go-hash.go:104-114 | AP on `CarryKey`, with alternating even and odd mixes, is 0x94DB964D6ABB6C42. |
| `GoHashProperties.MulCarryKey` | go-hash.go:67-137 | On `CarryKey`, BKDR is 0x238D9D5B81FE31, FNV is 0xE5B90BCF29D9F4B2 and MYSQL is 0x4BB9F7FE1404F108. |
| `GoHashProperties.CarryKeySeparatesAll` | go-hash.go:6-8 | On `CarryKey`, any two different hashes in the registry give different digests. All eleven are pairwise distinct, including PJW and ELF, which agree on ordinary text keys. |
| `GoHashProperties.MySQLNr2After` | go-hash.go:131-135 | After `n` bytes, MYSQL's `nr2` is `4 + 3n` modulo 2^64 (counted up byte by byte), whatever the bytes are. |

## Left out

- go-hash_test.go is a test and benchmark harness: `randomKeys`, `repeat`, `getFuncName`, `barChart`, `_TestHashHit` and the `Benchmark*` functions. It is not part of this model. How evenly keys spread over buckets is a statistical property, not a functional one.
- Go strings become byte sequences (`seq<bv8>`). Every hash reads `key[i]` byte by byte, so UTF-8 and Go's string header play no part.
- The Go type `Func` and the function values in `AllFuncs` become the `Algorithm` tags. `Digest` and `Hash` give each tag its hash.
- `uint64(len(key))` in DEK is `LenSeed`, the length modulo 2^64. A Go length is below 2^63, so the reduction is exact. AP's loop index is an unbounded `nat`; only its parity matters.
- RSHash, PJWHash, ELFHash, BKDRHash, FNVHash and MySQLHash: the loop body calls the step function instead of writing the Go assignments out inline. The step function's body is those assignments, in order.
- DJBAppend: states the appended digest as one step in the source's shift form, not as `DJB(key)*33 + c`. The step's expression is proved equal to `hash*33 + c` separately, by `DJBShiftAddIsTimes33`. The two are not chained into one digest-level equation, and there is no DJB counterpart of `BKDRIsHorner`. The reason is the solver: it cannot prove the chained equation within a resource limit of 2,000,000. It must then show that a 64-bit shift-and-add equals a 64-bit multiply inside a fold, and it does that by expanding the multiplier bit by bit.
- SDBMAppend: same as DJBAppend, with `SDBMShiftsAreTimes65599` and the multiplier 65599. The chained equation exceeds the same resource limit for the same reason.
- The closed form of RS's multiplier `a` after `n` bytes (63689 * 378551^n modulo 2^64) is not stated.
