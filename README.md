# Symmetric options and algorithm names of the WASI-crypto proof of concept

This project models two pieces of the symmetric-operations module of the
WASI-crypto host implementation, `proposals/poc/implementation/src/symmetric/mod.rs`:

- **The symmetric options bag** (`SymmetricOptionsInner` behind the shared
  handle `SymmetricOptions`). It holds six optional slots: three byte strings
  (`context`, `salt`, `nonce`) and three unsigned 64-bit integers
  (`memory_limit`, `ops_limit`, `parallelism`). `set`/`get` reach the
  byte-string slots and `set_u64`/`get_u64` the integer slots. Each operation
  lower-cases the name first. A name outside the operation's own three is
  `UnsupportedOption`. Reading a slot that was never written is `OptionNotSet`.
  Clones of a handle share one record.
- **`SymmetricAlgorithm::try_from`**, the parser from an algorithm name to one
  of seven algorithms. It matches names exactly, case included, and rejects
  everything else with `UnsupportedAlgorithm`.

Layout:

- `errors.dfy`, module `CryptoErrors`: the three error kinds these operations
  report, and `Result`.
- `lowercase.dfy`, module `Lowercase`: lower-casing of names (`ToLower`) and
  what "equal ignoring case" means.
- `symmetric_options.dfy`, module `Symmetric`: the record's value `Options`
  with the pure specification of the four operations (`Options.Set`,
  `Options.Get`, `Options.SetU64`, `Options.GetU64`), the lemmas about them,
  and the two classes. `SymmetricOptionsInner` has the six fields that the
  setters overwrite in place. `SymmetricOptions` holds a `const` reference to
  it, which plays the part of the `Arc`. Each class method is proved against
  the pure operation of the same name.
- `symmetric_algorithm.dfy`, module `Algorithms`: `SymmetricAlgorithm`,
  `TryFrom` and its lemmas.

## Model

| member | source | states |
|---|---|---|
| Lowercase.LowerChar | proposals/poc/implementation/src/symmetric/mod.rs:55 | an ASCII capital becomes its own small letter, every other character is unchanged, and the result is never an ASCII capital |
| Lowercase.ToLower | proposals/poc/implementation/src/symmetric/mod.rs:67 | lower-casing keeps the length and folds each character independently |
| Lowercase.ToLowerFixesLower | proposals/poc/implementation/src/symmetric/mod.rs:78 | lower-casing yields a lower-case string; a string is its own lower-casing exactly when it is lower case |
| Lowercase.ToLowerIdempotent | proposals/poc/implementation/src/symmetric/mod.rs:90 | lower-casing twice is the same as once |
| Lowercase.ToLowerEqualIffEqualIgnoringCase | proposals/poc/implementation/src/symmetric/mod.rs:55 | two names lower-case to the same string if and only if they differ only in letter case |
| Symmetric.ByteOptionNamed | proposals/poc/implementation/src/symmetric/mod.rs:55-59 | a name selects a byte-string slot only if its lower-casing is that slot's name; when it selects none, its lower-casing is none of the three names |
| Symmetric.U64OptionNamed | proposals/poc/implementation/src/symmetric/mod.rs:78-82 | a name selects a `u64` slot only if its lower-casing is that slot's name; when it selects none, its lower-casing is none of the three names |
| Symmetric.ByteOptionNameIsLower | proposals/poc/implementation/src/symmetric/mod.rs:56-58 | the names context, salt and nonce are already lower case, so lower-casing a caller's name can reach them |
| Symmetric.U64OptionNameIsLower | proposals/poc/implementation/src/symmetric/mod.rs:79-81 | the names memory_limit, ops_limit and parallelism are already lower case, so lower-casing a caller's name can reach them |
| Symmetric.ByteOptionNamedIff | proposals/poc/implementation/src/symmetric/mod.rs:55-59 | a name selects byte-string slot k if and only if it spells k's name in some mix of cases |
| Symmetric.U64OptionNamedIff | proposals/poc/implementation/src/symmetric/mod.rs:78-82 | a name selects `u64` slot k if and only if it spells k's name in some mix of cases |
| Symmetric.LookupIgnoresCase | proposals/poc/implementation/src/symmetric/mod.rs:67-72 | names that differ only in case select the same slot in both name spaces |
| Symmetric.NameSpacesDisjoint | proposals/poc/implementation/src/symmetric/mod.rs:78-83 | no name selects both a byte-string slot and a `u64` slot |
| Symmetric.Options.WithByteSlot | proposals/poc/implementation/src/symmetric/mod.rs:61 | writing a byte-string slot sets that slot and leaves the other five unchanged |
| Symmetric.Options.WithU64Slot | proposals/poc/implementation/src/symmetric/mod.rs:84 | writing a `u64` slot sets that slot and leaves the other five unchanged |
| Symmetric.Options.Set | proposals/poc/implementation/src/symmetric/mod.rs:53-63 | `set` fails, with `UnsupportedOption`, exactly on names that select no byte-string slot; on success `get` of the same name returns the value, and every other `get` and every `get_u64` answers as before |
| Symmetric.Options.SetU64 | proposals/poc/implementation/src/symmetric/mod.rs:76-86 | `set_u64` fails, with `UnsupportedOption`, exactly on names that select no `u64` slot; on success `get_u64` of the same name returns the value, and every other `get_u64` and every `get` answers as before |
| Symmetric.SetThenGetIgnoringCase | proposals/poc/implementation/src/symmetric/mod.rs:53-74 | a value written under one spelling of a name is read back under any other spelling of it, for both name spaces |
| Symmetric.UpperCaseNonceRoundTrip | proposals/poc/implementation/src/symmetric/mod.rs:53-74 | `set("NONCE", v)` succeeds and a following `get("nonce")` returns `v` |
| Symmetric.UnsupportedNames | proposals/poc/implementation/src/symmetric/mod.rs:53-97 | each of the four operations returns `UnsupportedOption` if and only if the name is outside its name space |
| Symmetric.NameSpacesKeptApart | proposals/poc/implementation/src/symmetric/mod.rs:76-97 | `set_u64`/`get_u64` refuse context, salt and nonce; `set`/`get` refuse memory_limit, ops_limit and parallelism |
| Symmetric.DefaultIsUnset | proposals/poc/implementation/src/symmetric/mod.rs:25-46 | in a new record every known name reads as `OptionNotSet` and every unknown one as `UnsupportedOption` |
| Symmetric.OverwriteLastWins | proposals/poc/implementation/src/symmetric/mod.rs:61 | a second write to a slot, under any spelling, replaces the first |
| Symmetric.SymmetricOptionsInner.constructor | proposals/poc/implementation/src/symmetric/mod.rs:25-33 | the derived default record has all six slots unset |
| Symmetric.SymmetricOptions.constructor | proposals/poc/implementation/src/symmetric/mod.rs:40-46 | a default handle refers to a new record with all six slots unset |
| Symmetric.SymmetricOptions.Clone | proposals/poc/implementation/src/symmetric/mod.rs:35-38 | a clone is a new handle to the same record |
| Symmetric.SymmetricOptions.Set | proposals/poc/implementation/src/symmetric/mod.rs:53-63 | the shared record becomes `Options.Set` of its old value and the result is `Ok`; on failure the error is returned and the record is unchanged |
| Symmetric.SymmetricOptions.Get | proposals/poc/implementation/src/symmetric/mod.rs:65-74 | the result is `Options.Get` of the record's current value |
| Symmetric.SymmetricOptions.SetU64 | proposals/poc/implementation/src/symmetric/mod.rs:76-86 | the shared record becomes `Options.SetU64` of its old value and the result is `Ok`; on failure the error is returned and the record is unchanged |
| Symmetric.SymmetricOptions.GetU64 | proposals/poc/implementation/src/symmetric/mod.rs:88-97 | the result is `Options.GetU64` of the record's current value |
| Symmetric.NonceSharedAcrossClones | proposals/poc/implementation/src/symmetric/mod.rs:184-193 | a nonce set through one handle is read back unchanged through a clone taken before the write |
| Algorithms.TryFrom | proposals/poc/implementation/src/symmetric/mod.rs:115-126 | a string is accepted if and only if it is the exact name of a real algorithm, and it then yields that algorithm and never `None`; any other string yields `UnsupportedAlgorithm` |
| Algorithms.TryFromName | proposals/poc/implementation/src/symmetric/mod.rs:117-123 | each of the seven names parses to its own algorithm |
| Algorithms.TryFromInjective | proposals/poc/implementation/src/symmetric/mod.rs:117-123 | two accepted strings give the same algorithm only if they are the same string |
| Algorithms.NameStartsUpper | proposals/poc/implementation/src/symmetric/mod.rs:117-123 | every accepted name begins with an ASCII capital |
| Algorithms.LowerCaseNamesRejected | proposals/poc/implementation/src/symmetric/mod.rs:116-124 | matching is case-sensitive: every lower-cased string, "sha-256" among them, is rejected with `UnsupportedAlgorithm` |

## Left out

- The submodules `aes_gcm`, `hmac_sha2`, `sha2`, `key`, `key_manager`, `state` and `tag` (lines 1-7) are not part of this model. They wrap external cryptographic primitives.
- The tests `test_hash`, `test_hmac`, `test_encryption` and the helper `tag_to_vec` (lines 129-236) are not modelled. They drive the crate's handle API and check real hash, MAC and AES-GCM outputs. Only the nonce round trip of `test_encryption` is stated, as `NonceSharedAcrossClones`.
- The `Mutex` around the record and the atomic reference count of the `Arc` are not modelled. The model has a single shared object and no concurrency.
- `as_any` (line 49) is dynamic-typing glue with no behaviour to state.
- Lowercase.ToLower: folds only ASCII letters; Rust's `to_lowercase` applies full Unicode case mapping. The only non-ASCII character that Unicode lower-cases to an ASCII letter is U+212A KELVIN SIGN, which becomes 'k'. No option name contains 'k'. U+0130 LATIN CAPITAL LETTER I WITH DOT ABOVE becomes 'i' followed by U+0307 COMBINING DOT ABOVE; the U+0307 stays in the result and no option name contains it. So the set of accepted option names is the same.
- `CryptoError` has many more variants in the crate's error module, which is not part of this model. Only the three these operations return are declared.
- Byte strings are sequences of `u8` values. The copy made by `to_vec`/`cloned` is implicit, because Dafny sequences are values.
