# Receipt verification and circuit identity (risc0-verifier)

This project is a Dafny model of the part of risc0-verifier that decides whether a zkVM receipt
is accepted, with proofs about it:

- **Receipt model and verification dispatch** (`src/receipt.rs`). A receipt is either
  *composite* (one proof per execution segment) or *succinct* (one recursive STARK). Each shape
  has its own integrity check, its own claim, and the digest of the verifier parameters it was
  made for. `Proof::verify_with_context` runs the shape's integrity check first. It then builds
  the expected success claim from the caller's image ID and journal digest, extracts the
  receipt's claim, and accepts only when the two claim digests are equal. Otherwise it fails
  with `ClaimDigestMismatch`, carrying both digests. `Proof::verify` does the same with the
  pinned version 1.2 context. Assumption receipts (`InnerAssumptionReceipt`) have the same two
  shapes. Their succinct shape carries only a claim digest, and receipts convert into them one
  way.
- **Circuit identity registry, version 1.2** (`src/circuit/v1_2.rs`). `control_id(hash, po2)`
  looks up the precomputed control ID of a hash function and segment size. It finds nothing
  when `po2` is outside `[MIN_CYCLES_PO2, MAX_CYCLES_PO2]` or the hash is not `sha-256`,
  `poseidon2` or `blake2b`. The base (RV32IM) circuit and the recursion circuit have fixed
  protocol tags, output sizes and mix sizes.

Modules: `Common` (bytes, words, `Digest`, `Option`, `Result`), `ReceiptClaims` (pruned values,
journal, exit code, the claim and its digest), `CircuitV1_2` (registry and circuit constants)
and `Receipts` (errors, receipt shapes, conversions, `Proof`).

Modelling choices:

- Everything is pure, as in the source. Rust's `?` is Dafny's `:-` over `Result`.
- The hash functions (`Sha`), the integrity checks of the `composite` and `succinct` modules,
  and `CompositeReceipt::claim` are outside this model. They are passed in as fields of a
  `Backend` parameter, and nothing is assumed about them.
- Digests are finite, so no hash is collision-free on all inputs. The lemmas that go from a
  digest match to a claim match therefore name the one possible exception, `ClaimCollision`:
  two different sets of claim fields with the same claim hash. They either list it as an
  alternative conclusion or exclude it for the two claims involved only.
- A `MaybePruned` value has one digest accessor. It hashes a full value and returns a pruned
  one's stored digest. The model's claim keeps three fields (see "## Left out"), and its digest
  hashes the image ID, the exit code and the journal digest. It is therefore the same whether
  the journal is full or pruned.
- `Unknown` has no values in the source, so `MaybePruned<Unknown>` is always pruned. The model
  therefore stores an unknown-type claim as its `Digest` (`SuccinctReceipt<Digest>`).
- `IntoUnknown` (`SuccinctReceipt::into_unknown`) replaces the claim by its digest and keeps
  every other field.
- `MIN_CYCLES_PO2`, `MAX_CYCLES_PO2` and the three control-ID tables are constants with
  arbitrary values. Only `MIN <= MAX` and the table length `MAX - MIN + 1` are fixed, so every
  registry lemma holds whatever the proof system sets them to.
- The doc comment of `Proof::verify` (src/receipt.rs:58-60) speaks of a `v1_1` context, but the
  code pins `VerifierContext::v1_2()` (src/receipt.rs:74). The model follows the code.
- In the mismatch branch the source extracts the claim a second time to report it
  (src/receipt.rs:100, 105). Extraction is deterministic, so the model reports the claim it
  already extracted.

## Model

| member | source | states |
|---|---|---|
| `ReceiptClaims.ReceiptClaim.Ok` | src/receipt.rs:96 | the expected claim has exit code `Halted(0)` and stores the image ID and the output as given |
| `ReceiptClaims.PrunedJournalSameDigest` | src/receipt.rs:93-96 | a success claim has the same digest whether its journal is given in full or as the journal's digest, so a verifier that knows only `pubs` can rebuild it |
| `ReceiptClaims.MatchesOkDigestIff` | src/receipt.rs:93-97 | a claim whose image, exit code `Halted(0)` and journal digest match the expected ones has the expected digest; conversely, equal digests mean the fields match or the two claims are a `ClaimCollision` |
| `CircuitV1_2.ControlId` | src/circuit/v1_2.rs:65-77 | a control ID is found iff `MIN <= po2 <= MAX` and the hash is one of the three supported names; it is then the entry at index `po2 - MIN` of that hash's table, and the index is in bounds |
| `CircuitV1_2.ControlIdOutOfRange` | src/circuit/v1_2.rs:66-68 | a po2 below MIN or above MAX finds nothing, whatever the name |
| `CircuitV1_2.ControlIdUnknownHash` | src/circuit/v1_2.rs:71-76 | a name other than the three supported ones finds nothing, whatever the po2 |
| `CircuitV1_2.ControlIdCoversTable` | src/circuit/v1_2.rs:69-74 | every table entry `i` is reached, at po2 `MIN + i`, which is in range |
| `CircuitV1_2.ControlIdSha256Boundary` | src/circuit/v1_2.rs:66-72 | `("sha-256", MIN)` gives the first table entry; `("sha-256", MIN - 1)` gives nothing |
| `CircuitV1_2.ByteString` | src/circuit/v1_2.rs:49 | a byte-string literal has one byte per character, each equal to the character's ASCII code |
| `CircuitV1_2.BaseCircuitFacts` | src/circuit/v1_2.rs:47-56 | the base circuit's tag is exactly the bytes `52 56 33 32 49 4D 3A 72 65 76 31 76 31 5F 5F 5F` (`RV32IM:rev1v1___`), with output size 138 and mix size 40 |
| `CircuitV1_2.RecursiveCircuitFacts` | src/circuit/v1_2.rs:109-118 | the recursion circuit's tag is exactly the bytes `52 45 43 55 52 53 49 4F 4E 3A 72 65 76 31 76 31` (`RECURSION:rev1v1`), with output size 32 and mix size 20, and it differs from the base circuit's tag |
| `Receipts.InnerReceipt.VerifyIntegrity` | src/receipt.rs:162-171 | the integrity verdict is exactly that of the check for the receipt's own shape |
| `Receipts.InnerReceipt.CompositeArm` | src/receipt.rs:174-180 | succeeds exactly on a composite receipt and returns its payload; otherwise `ReceiptFormatError` |
| `Receipts.InnerReceipt.SuccinctArm` | src/receipt.rs:183-189 | succeeds exactly on a succinct receipt and returns its payload; otherwise `ReceiptFormatError` |
| `Receipts.InnerReceipt.Claim` | src/receipt.rs:192-197 | a succinct receipt gives its stored claim unchanged; a composite one gives its derived claim in full, or exactly the error deriving it gave |
| `Receipts.InnerReceipt.VerifierParameters` | src/receipt.rs:200-205 | the stored verifier-parameter digest of either shape |
| `Receipts.InnerAssumptionReceipt.VerifyIntegrity` | src/receipt.rs:222-231 | the integrity verdict is exactly that of the check for the receipt's own shape |
| `Receipts.InnerAssumptionReceipt.CompositeArm` | src/receipt.rs:234-240 | succeeds exactly on a composite receipt and returns its payload; otherwise `ReceiptFormatError` |
| `Receipts.InnerAssumptionReceipt.SuccinctArm` | src/receipt.rs:243-249 | succeeds exactly on a succinct receipt and returns its payload; otherwise `ReceiptFormatError` |
| `Receipts.InnerAssumptionReceipt.ClaimDigest` | src/receipt.rs:254-259 | a composite receipt gives the digest of its derived claim, or exactly the derivation's error; a succinct one gives its stored claim digest |
| `Receipts.InnerAssumptionReceipt.VerifierParameters` | src/receipt.rs:262-267 | the stored verifier-parameter digest of either shape |
| `Receipts.IntoUnknown` | src/receipt.rs:274 | the erased receipt's claim is the digest of the original claim, and every other field is kept |
| `Receipts.AssumptionFromInner` | src/receipt.rs:270-277 | the conversion keeps the shape and the verifier parameters, and carries a composite payload over unchanged |
| `Receipts.AssumptionFromInnerKeepsClaim` | src/receipt.rs:270-277 | after conversion, the claim digest is the digest of the original receipt's claim, and a claim error stays the same error; a composite receipt keeps its integrity verdict |
| `Receipts.InnerFromComposite` | src/receipt.rs:279-283 | wrapping a composite receipt and taking its composite arm gives it back |
| `Receipts.Proof.Claim` | src/receipt.rs:113-115 | a proof's claim is its inner receipt's claim |
| `Receipts.Proof.VerifyWithContext` | src/receipt.rs:84-110 | accepts iff the integrity check passed, the claim was extracted, and its digest equals the expected success claim's. An integrity error is returned unchanged, and then the claim is never compared. A claim-extraction error is returned unchanged. A digest difference gives `ClaimDigestMismatch` with the expected and received digests |
| `Receipts.Proof.Verify` | src/receipt.rs:69-75 | the same verdict as `VerifyWithContext` with the pinned version 1.2 context (base and recursion circuits of version 1.2) |
| `Receipts.AcceptedReceiptProvesExpectedClaim` | src/receipt.rs:91-109 | an accepted receipt passed integrity and its claim was extracted. A full claim names the expected image, halted with `Halted(0)` and has journal digest `pubs`, unless it and the expected claim are a `ClaimCollision`. A pruned claim equals the expected claim's digest |
| `Receipts.WrongClaimIsRejected` | src/receipt.rs:97-106 | given a passed integrity check, a claim with a different image, exit code or journal is rejected with `ClaimDigestMismatch(expected, received)`, as long as it and the expected claim are not a `ClaimCollision` |
| `Receipts.SuccinctReceiptAcceptsOnlyItsJournal` | src/receipt.rs:91-109 | a succinct receipt with a passing integrity check whose claim is `Ok(P, full journal J)` verifies against `(P, digest(J))`, and fails against any other journal digest whose expected claim is not a `ClaimCollision` with it |

## Left out

- The STARK, FRI and Merkle checks inside the composite and succinct integrity checks, and the derivation of a composite receipt's claim from its segments: they are cryptographic, so they are passed in as functions whose verdicts the model returns unchanged.
- SHA-256 and the `Digestible` implementations, including the journal digest (src/receipt.rs:136-140): hashing is an uninterpreted function. The lemmas that rely on the hash name the collision they exclude.
- `ReceiptClaim` keeps only the image ID (the pre-state digest), the exit code and the journal. The claim in the receipt-claim module also carries the post state, the input and the output's assumptions, and `ReceiptClaim::ok` fixes each of them. That module is not part of this model, so the claim digest here covers only the three kept fields. The acceptance lemmas (`MatchesOkDigestIff`, `AcceptedReceiptProvesExpectedClaim`, `WrongClaimIsRejected`, `SuccinctReceiptAcceptsOnlyItsJournal`) say nothing about the dropped fields, including that no assumption is left unresolved.
- The contents of the generated `control_id`, `taps` and `poly_ext` tables, and the values of `MIN_CYCLES_PO2` and `MAX_CYCLES_PO2`: they are generated data or belong to the proof system. The tables keep only their length.
- The tap sets of the two circuits (`get_taps`): they are opaque inputs of the proof system and are not represented.
- `VerifierContext` construction: the model's context holds only the two circuits. Hash suites and verifier-parameter digests are not represented.
- `log::debug!` tracing, serde (de)serialisation, `Journal`'s `AsRef<[u8]>`, the `Proof::new` and `Journal::new` constructors (the datatype constructors play their role), and `DEFAULT_MAX_PO2`: none of them affects the verdict.
- `impl Into<Digest>` arguments: the model takes the image ID and journal digest as digests.
- src/circuit.rs only declares a trait alias and submodules, so it has no behaviour to model.
- Integer widths: `po2` is `usize` in the source. It is a `nat` here, because the range guard runs before the subtraction and the index fits in any width.
