# Verified model of the hash-based vault scripts

The repository compiles two hash-based signature verifiers, SLH-DSA (FIPS 205) and LMS (RFC 8554), into loop-free stack
scripts, and surrounds them with a host verifier, a signer, a witness encoding, a transaction-binding digest and a
sign-once journal. This project models those parts in Dafny and proves how they fit together.

What is proved, in the order the modules build it:

- **A stack engine** (`Numbers`, `Machine`): a data stack and an alt stack of byte strings, little-endian sign-magnitude
  numbers, half-open `OpSubstr`, nested `OpIf`/`OpEndIf`, and a counter of the most items ever held. A second engine over
  typed values predicts the byte-level one.
- **The SLH-DSA compiler** (`Emission`, `Frames`, `Simulation`, `Witness`, `Faithful`, `SlhProgram`, `Slh*`): generation is a
  sequence of calls, each with an effect on the code, the shadow stack and the witness queue. `EmitFollowsEval` shows that
  whatever meaning the calls have on *named* values, the generated code has on the real stacks, whichever way each branch
  goes. On top of that every phase is shown to compute what the reference verifier computes, up to
  `VerifyScriptCorrect`. `ScriptEmitter` is the generator itself, an object whose methods append to the script, proved
  call by call to produce those sequences. `VerifyAnyPushes` and `VaultAnyPushes` say what the scripts make of any pushes a
  spender supplies, `Generation` exactly when there is a script at all, and `PeakReached`
  that the recorded stack peak is reached.
- **The host verifier and the byte formats** (`Reference`, `HostVerifier`, `AdrsBytes`, `SignatureBytes`): the loops over
  mutable locals, proved equal to the specification functions the compiler proof is stated against.
- **What the shared functions mean** (`HashInputs`, `LmsInputs`, `EngineVectors`, `JournalForm`, and lemmas beside the
  formats): host, signer and script call one and the same layout functions, so their agreement says nothing about the
  layout. Here every hash input, wire format, preimage and file line is stated by literal bytes, offsets and constants.
- **The signer** (`Treehash`, `Signing`, `Midstate`, `KeyHashing`, `TreehashLoop`, `ParallelMap`, `SigningKeys`): every signature
  produced verifies, for an arbitrary hash; caching, parallelism and the SHA-256 midstate are invisible. The loops take
  their closures as the data they capture, so every leaf and node of a tree is hashed by the resumed form.
- **Separation arguments** (`NoDomination`, `Roles`, `RoleUse`): the checksum argument for WOTS+ and LM-OTS, disjointness
  of the addresses of different roles, and that key generation, signing and verification hash at those addresses only.
- **The LMS compiler** (`Lane`, `Lms*`) against sections 4 and 5 of RFC 8554.
- **The binding digest** (`Binding`, `Vault`): script and host serialize the same bytes, the bytes determine the spend, and
  the vault script as a whole accepts exactly the pushes whose elements satisfy the verifier's equation over the spend
  that runs it.
- **The sign-once journal** (`JournalText`, `Journal`, `JournalRuns`, `JournalBound`, `JournalExact`, `JournalMade`,
  `JournalFile`): a state machine over signing, appends that stop part way, crashes and reopens, down to the characters of
  the file.
- **The whole** (`EndToEnd`): what a caller of the generators, the signing key and the host verifier gets.

The hash is a parameter throughout: any function into 32-byte strings. `Midstate` instead takes the compression function
and the initial value as parameters and defines SHA-256 over them by sections 5.1.1 and 6.2 of FIPS 180-4. Parameter sets
are records with a `WellFormed` predicate: digit width dividing 8, h = h'd, the digest exactly consumed and at most 32
bytes, at most 56 tree bits, index widths of at most four bytes, and FORS index windows that stay inside the digest. The
generator checks the last condition itself while emitting, and `VerifyGenerated` shows that it refuses a set exactly when
that condition fails. The theorems hold for every such set, and `Params.SupportedSets` and `Lms.SupportedSets` show the
repository's own sets among them.

Five facts about the code are stated as theorems rather than smoothed over:

- The one-bit LMS set: the all-zero digest, and no other, brings the shifted checksum to 2^15 (`OneBitChecksum`), which two
  sign-magnitude bytes cannot hold. `LmsScriptCorrect` covers every set and says the script answers below 2^15 and aborts
  otherwise.
- The journal's safety has an exact bound. An append that fails part way leaves its characters in the file, and the process
  may go on appending. Up to three such pieces never read as a record of another leaf; four can (`FourTearsMisread`), and
  then the reopened journal holds another digest for a leaf already returned. `SafeExactlyUpToThree` is the equivalence.
- A record torn inside its signature may still read, and a retry is handed it. Its digest is safe; its signature is not
  (`TornSignatureGrows`). Every returned record is kept exactly over all runs with at most n torn appends a process if and
  only if n is zero (`ExactOnlyWithoutTears`), and the same bound decides whether every record handed back is one a
  signing closure made (`AuthenticOnlyWithoutTears`). For exactness with up to three, it suffices that a process that
  opened a file whose last line lacks its newline tears none (`CarefulRunsAreExact`), and no step can do without that
  (`CarelessTear`).
- A blob pushed with trailing bytes is taken for the signature it starts with, and a one-element blob is taken whole at any
  length (`VerifyAnyPushes`, `FullPushes`): the witness that unlocks a vault is not unique, though what it must satisfy is
  the reference's equation all the same.
- The journal's comment says a truncated last line is discarded (`crates/lms-wallet/src/journal.rs:147-150`); the code
  refuses to open instead (`crates/lms-wallet/src/journal.rs:173-178`). The model follows the code.

Specification functions, the reference verifier's equations among them, are plain functions; the members below are the
ones whose contracts state something about the program.

## Model

| member | source | states |
|---|---|---|
| `SlhVerify.VerifyScriptCorrect` | crates/slh-script/src/emit.rs:832-838 | For every well-formed set, key, plan of positive blobs, message and signature of the right length, the generated script never aborts on its witness, leaves one boolean that is true iff the reference verifier accepts, and never holds more than `peak_stack_estimate` items on the two stacks together |
| `SlhVerify.VerifyAnyPushes` | crates/slh-script/src/emit.rs:832-838 | On any pushes, one a blob and of any lengths: the script aborts iff some blob of several elements is pushed with fewer bytes than they take, and otherwise leaves one boolean, true iff the verifier's equation holds over the elements the pushes are cut into, within the stack estimate |
| `SlhVerify.FullPushes` | crates/slh-script/src/emit.rs:318-337 | When every push holds its blob's bytes (and a one-element blob no more), those elements are the parsed signature of those bytes, whatever trails them |
| `SlhVerify.ScriptJudges` | crates/slh-script/src/emit.rs:783-809 | What `VerifyAnyPushes` says, of `emit_body` behind any script prefix that leaves a message on the data stack and the pushes on the alt stack, which is how both scripts use it |
| `Vault.VaultScriptCorrect` | crates/slh-script/src/emit.rs:812-824 | For any transaction and any unrolled output count: the vault script aborts iff a committed field does not fit, and otherwise answers whether the reference accepts the signature over the digest of that very spend, within the stack estimate |
| `Vault.VaultAnyPushes` | crates/slh-script/src/emit.rs:812-824 | For any transaction, unrolled output count and pushes, one a blob and of any lengths: the vault script aborts iff a committed field does not fit or a push is cut short, and otherwise answers the verifier's equation over the elements and the digest of that very spend |
| `Vault.TooFewPushes` | crates/slh-script/src/emit.rs:812-824 | A witness with fewer pushes than the plan has blobs aborts |
| `Generation.VerifyGenerated` | crates/slh-script/src/emit.rs:504-526 | For a set whose numbers agree with one another and any plan of positive blobs, the verifier is generated iff every FORS index window ends inside the digest and a blob ends with the signature's last element |
| `Generation.VaultGenerated` | crates/slh-script/src/emit.rs:504-526 | The same for the vault, and the output count is from 1 to 127 |
| `Generation.WindowPastDigest` | crates/slh-script/src/emit.rs:504-526 | One window past the digest and nothing is generated, whatever the key, the plan and the code already emitted |
| `Generation.FieldRefused` | crates/slh-script/src/emit.rs:231-233 | A big-endian field is refused unless it has one to seven bytes |
| `Generation.WidthRefused` | crates/slh-script/src/emit.rs:205-207 | Fixed-width bytes are refused unless there are one to eight |
| `Vault.VaultBindsSpend` | crates/slh-script/src/emit.rs:812-824 | When the script unrolls the spend's own output count, the message it verifies is the hash of the host's `binding_preimage`, and it aborts iff the host refuses the view |
| `Vault.SignedSpendUnlocks` | crates/slh-script/src/signer.rs:213-271 | End to end: a spend the serializer accepts, signed over its binding digest with the pinned key, always unlocks, for every hash function, randomizer and plan |
| `Signing.SignaturesVerify` | crates/slh-script/src/signer.rs:190-271 | For every seed triple, randomizer, message and hash function: the wire bytes have the set's length, parse back to the signature, and verify under the generated key |
| `Faithful.EmitFollowsEval` | crates/slh-script/src/emit.rs:83-191 | The shadow stack is exact: if a sequence of emitter calls has a meaning on named values, generation succeeds, and whichever way each `OpIf` goes the run-time stack is the frame's entries with those values, the alt stack is the witness queue, and the recorded peak bounds both |
| `LmsVerify.LmsScriptCorrect` | crates/lms-script/src/verify.rs:62-80 | For every parameter set, q below 2^h and signature: if the checksum of the digest is below 2^15 the script leaves one boolean, true iff the candidate root of section 5.4.2 of RFC 8554 is the pinned root, all chain values and path nodes consumed; at 2^15 it aborts |
| `LmsVerify.LmsVerifies` | crates/lms-script/src/verify.rs:62-273 | On `witness_pushes(sig)` and a message, for every set whose checksum never reaches the sign bit: the script answers root equality and nothing is left over |
| `LmsVerify.LmsVaultCorrect` | crates/lms-script/src/verify.rs:298-307 | For any parameter set, transaction and unrolled output count: the LMS vault aborts iff a committed field does not fit or the checksum reaches 2^15, and otherwise answers root equality over the digest of that very spend |
| `LmsVerify.LmsVaultBindsSpend` | crates/lms-script/src/verify.rs:298-307 | Unrolled to the spend's own output count, the message is the hash of the host's `binding_preimage`, refusal for refusal |
| `LmsVerify.OneBitScript` | crates/lms-script/src/verify.rs:108-144 | The one-bit set: the script aborts iff the message digest is all zero, and otherwise answers root equality |
| `Binding.BindingAgrees` | crates/vault-core/src/binding.rs:173-223 | With the unrolled number of outputs the on-stack and the host serializer refuse the same transactions and otherwise hash identical bytes |
| `Binding.PreimageInjective` | crates/vault-core/src/binding.rs:114-152 | Two accepted views with one preimage are equal in every committed field |
| `Binding.ExtraOutputsUnmatched` | crates/vault-core/src/binding.rs:173-223 | With more outputs than the script unrolls, the bytes it hashes are the preimage of no accepted view |
| `JournalBound.SafeExactlyUpToThree` | crates/lms-wallet/src/journal.rs:95-217 | Sign-once safety holds of every run in which no process leaves more than n torn appends if and only if n is at most 3 |
| `JournalRuns.RunsAreSafe` | crates/lms-wallet/src/journal.rs:95-217 | Over every such run of `sign_once` calls, failed appends, crashes and reopens: one digest per leaf over everything ever returned, one record per leaf a caller was given as signed, and a running process and a reopening that refuse or hold the digest of everything and the record of everything signed |
| `JournalExact.ExactOnlyWithoutTears` | crates/lms-wallet/src/journal.rs:95-217 | Every record ever returned, those handed to a retry included, is kept itself by the running process and by every reopening that does not refuse, over every run in which no process leaves more than n torn appends, if and only if n is 0 |
| `JournalExact.CarefulRunsAreExact` | crates/lms-wallet/src/journal.rs:95-217 | The same over every run with at most three torn appends a process in which a process that opened a file without its last newline tears none |
| `JournalExact.CarelessTear` | crates/lms-wallet/src/journal.rs:157-217 | The condition is needed everywhere: in any run that met it and opened a file without its last newline, retrying the last line's leaf and then tearing an append after n characters loses exactness iff n is even and at most 32 |
| `JournalExact.TearOnRagged` | crates/lms-wallet/src/journal.rs:157-217 | What a torn append does to a file without its last newline: leaf and digest stay and the signature gains a byte for every two of the first 32 characters, or the file refuses |
| `JournalMade.AuthenticOnlyWithoutTears` | crates/lms-wallet/src/journal.rs:95-217 | Every record handed back, leaf, digest and signature, is one a signing closure made, over every run in which no process leaves more than n torn appends, if and only if n is 0 |
| `JournalMade.OneTearUnmade` | crates/lms-wallet/src/journal.rs:157-217 | The failing runs: one torn append, a retry after a reopening, and a returned signature no closure made |
| `JournalBound.FourTearsMisread` | crates/lms-wallet/src/journal.rs:200-217 | Four torn appends in one process concatenate to a record for an already returned leaf over another digest, which the reopened journal then believes |
| `JournalBound.TornSignatureGrows` | crates/lms-wallet/src/journal.rs:157-184 | The failing runs, one torn append a process: a torn but readable record is handed to a retry, and a later torn append lengthens its stored signature; leaf and digest stay |
| `NoDomination.WotsNoDomination` | crates/slh-script/src/reference.rs:201-215 | For any two different nodes some digit of the first's extended digit string is strictly below the second's |
| `NoDomination.LmsNoDomination` | crates/lms-script/src/ots.rs:64-78 | For any two different digests some LM-OTS coefficient of the first, checksum coefficients included, is strictly below the second's |
| `Roles.RolesSeparate` | crates/slh-script/src/adrs.rs:55-108 | Two hashes made under one key with equal 22 address bytes have the same role, layer, tree, key pair, chain or height, and step or index |
| `RoleUse.KeyGenHashesAtRoles` | crates/slh-script/src/signer.rs:190-202 | Key generation hashes only at addresses of roles in use, and at the secrets' addresses only the secret seed: two hash functions that agree on that much generate the same key |
| `RoleUse.SigningHashesAtRoles` | crates/slh-script/src/signer.rs:213-405 | Signing hashes the two inputs of H_msg and otherwise only what key generation may hash: two hash functions that agree on that much give the same signature |
| `RoleUse.VerifyingHashesAtRoles` | crates/slh-script/src/reference.rs:218-405 | So does verification, of any signature of the set's shape, and never at a secret's address: two hash functions that agree there imply the same root |
| `EndToEnd.VerifyOnScript` | crates/slh-script/src/emit.rs:841-845 | The script the generator builds, on the pushes the witness builder makes, leaves the host verifier's verdict within the stack estimate |
| `EndToEnd.VaultOnScript` | crates/slh-script/src/emit.rs:848-856 | The same for the vault script over the digest of the spend that runs it, with its aborts |
| `EndToEnd.SignThenVerify` | crates/slh-script/src/signer.rs:213-271 | Whatever a key object has signed before, its next signature parses and the host verifier accepts it |
| `EndToEnd.SignThenUnlock` | crates/slh-script/src/signer.rs:213-271 | A spend the serializer accepts, signed by the key object over its binding digest, unlocks the vault the generator builds |
| `EndToEnd.LmsOnScript` | crates/lms-script/src/verify.rs:62-80 | The LMS script the generator builds, on the pushes of `witness_pushes`, answers root equality, or aborts on a checksum of 2^15 |
| `Adrs.HashedBytes` | crates/slh-script/src/adrs.rs:120-145 | The bytes under every hash, without naming the layout functions: sixteen of the key seed, 48 zeros, the layer, eight of the tree, the type, three words of four, the message; and the result is the first sixteen bytes of their hash |
| `PeakReached.PeakBracket` | crates/slh-script/src/witness.rs:116-125 | On any pushes the script does not stop on, the run holds at least the recorded frame and at most `peak_stack_estimate` items at once |
| `JournalRuns.RetriesAnswered` | crates/lms-wallet/src/journal.rs:99-125 | In every run with at most three torn appends a process, asking again for what was once returned gives the stored record over the same digest, without signing and without touching the file |
| `JournalRuns.AnswersMatch` | crates/lms-wallet/src/journal.rs:99-125 | After any run, torn as it may be, what a call is given back is a record of the leaf and digest it asked for, and a leaf that holds another digest is refused |
| `Midstate.Midstate.HashParts` | crates/slh-script/src/signer.rs:96-134 | Resuming from the compressed first block with hand-built padding equals hashing pad, address and parts from the initial value, for any compression function, and the four words of the folded state come out big-endian in order |
| `TreehashLoop.TreehashAuth` | crates/slh-script/src/signer.rs:491-528 | The streaming pass returns the recursive root and, for every height, the sibling of the target's ancestor, its pending stack being the binary expansion of the leaf counter, whether leaves and nodes are hashed by the midstate over a cached layer or over one FORS tree, or come from any two functions |
| `ParallelMap.Map` | crates/slh-script/src/signer.rs:536-579 | For any number of cores and any schedule of atomic chunk claims the result is the serial map, of the leaves the midstate computes or of any function |
| `Machine.ExecRep` | crates/vault-harness/tests/opcode_semantics.rs:34-145 | One instruction on typed values predicts the byte-level instruction: half-open `OpSubstr`, operand order, minimal and fixed-width numbers |
| `Machine.RunRep` | crates/vault-harness/tests/opcode_semantics.rs:34-145 | A typed run that does not get stuck predicts the byte-level run, through every conditional |
| `Machine.TGate` | crates/slh-script/src/emit.rs:722-742 | `OpIf body OpEndIf` on 0 or 1 either runs the body or leaves the stack alone, whatever the body would have done |
| `Numbers.DecodeMinEnc` | crates/vault-harness/tests/opcode_semantics.rs:34-145 | Every integer survives its minimal sign-magnitude encoding |
| `Numbers.DecodeLoneByte` | crates/vault-harness/tests/opcode_semantics.rs:103-145 | A lone byte decodes to its value iff it is below 0x80; 0x80 decodes to zero |
| `Numbers.DecodePadded` | crates/slh-script/src/emit.rs:231-249 | With the zero pad every single byte decodes to its value |
| `Numbers.ArithmeticInRange` | crates/vault-harness/tests/opcode_semantics.rs:63-100 | Results of the arithmetic opcodes that are not stuck stay in the number range |
| `EngineVectors.SubstrVectors` | crates/vault-harness/tests/opcode_semantics.rs:34-60 | `data start end` and half open, on the bytes of the repository's own test |
| `EngineVectors.ArithVectors` | crates/vault-harness/tests/opcode_semantics.rs:63-83 | `a b` gives a / b, a % b and a - b, on literal stack bytes |
| `EngineVectors.CompareVectors` | crates/vault-harness/tests/opcode_semantics.rs:85-100 | `a b` gives a >= b and a <= b, on literal stack bytes |
| `EngineVectors.SignVectors` | crates/vault-harness/tests/opcode_semantics.rs:103-145 | A lone 0x80 is negative zero and a zero byte clears the sign, on literal stack bytes |
| `EngineVectors.WidthVectors` | crates/vault-core/src/binding.rs:62-80 | The fixed-width form is little-endian, and a magnitude that reaches the sign bit aborts |
| `Simulation.BlockOk` | crates/slh-script/src/emit.rs:722-742 | A straight-line block of emitter calls keeps frame, values and peak in step |
| `Faithful.SliceRun` | crates/slh-script/src/emit.rs:318-337 | Slicing replaces the push on top of the alt stack by its elements in order, dropping the bytes past the last one and taking a one-element blob whole, with the exact mid-slice stack bound |
| `Faithful.RefillStep` | crates/slh-script/src/emit.rs:302-314 | After a refill, if one was due, the next signature element is on top of the alt stack and `pending` counts it |
| `Lane.LaneRun` | crates/lms-script/src/verify.rs:62-273 | An LMS script whose meaning is defined runs to that meaning on the engine |
| `Frames.Frame.constructor` | crates/slh-script/src/frame.rs:26-28 | A new frame is empty |
| `Frames.Frame.FindDepth` | crates/slh-script/src/frame.rs:40-45 | Depth of the most recently pushed entry of that name, or an error when there is none |
| `Frames.Frame.Push` | crates/slh-script/src/frame.rs:47-49 | One entry more on top |
| `Frames.Frame.Pop` | crates/slh-script/src/frame.rs:55-57 | Removes the top entry, or refuses the empty frame |
| `Frames.Frame.ReplaceTop` | crates/slh-script/src/frame.rs:60-66 | Replaces n entries by one name, or refuses |
| `Frames.Frame.RenameTop` | crates/slh-script/src/frame.rs:68-72 | Renames the top entry and nothing else |
| `Frames.Frame.Swap` | crates/slh-script/src/frame.rs:74-81 | Exchanges the top two names |
| `Frames.Frame.Roll` | crates/slh-script/src/frame.rs:84-92 | Moves the entry at a depth to the top, the others keeping their order |
| `Frames.Frame.Nip` | crates/slh-script/src/frame.rs:95-102 | Removes the entry under the top |
| `Frames.Frame.ExpectTop` | crates/slh-script/src/frame.rs:109-119 | True iff, counted from the top of the run-time stack, the names are exactly these, the last on top |
| `Witness.NewPlan` | crates/slh-script/src/witness.rs:67-77 | Positive blobs, all of `per` elements but possibly the last, cover the set's elements exactly |
| `Witness.LocateLoop` | crates/slh-script/src/witness.rs:89-98 | The search loop computes the blob and place of an element |
| `Witness.LocateSpec` | crates/slh-script/src/witness.rs:89-98 | `locate` inverts the running sum of blob sizes |
| `Witness.WitnessPushes` | crates/slh-script/src/witness.rs:131-147 | The pushes are the signature cut by the plan, refused on any other length |
| `Witness.WitnessReassembles` | crates/slh-script/src/witness.rs:131-147 | Concatenating the pushes gives the signature back |
| `Witness.QueueRefill` | crates/slh-script/src/emit.rs:302-314 | When nothing is pending the next element starts a blob (the `pos == 0` guard holds) and slicing that blob yields the queue one element on |
| `Witness.QueuePending` | crates/slh-script/src/emit.rs:302-314 | When elements are pending the next one is on top of the alt stack |
| `Witness.QueueEnd` | crates/slh-script/src/emit.rs:783-809 | After all elements the alt stack is empty and nothing is pending |
| `Witness.QueueBound` | crates/slh-script/src/witness.rs:116-125 | The queue never holds more than the untouched blobs but one plus the largest blob's elements |
| `ScriptEmitter.EmitPrologue` | crates/slh-script/src/emit.rs:764-773 | One `OpToAltStack` per blob |
| `Witness.WitnessCut` | crates/slh-script/src/witness.rs:131-147 | The pushes of a signature are cut into its 16-byte elements in order, none of them short |
| `Witness.PlanEstimate` | crates/slh-script/src/witness.rs:116-125 | For a plan cut at `per` elements the estimate is the number of blobs less one, `per`, and the frame |
| `PeakReached.RecordReached` | crates/slh-script/src/emit.rs:104-191 | Whatever the branches, the machine has held at least as many items as the generator recorded for the calls so far |
| `PeakReached.NoteReached` | crates/slh-script/src/emit.rs:90-191 | What a call records is a height its own instructions reach |
| `PeakReached.SliceReached` | crates/slh-script/src/emit.rs:318-337 | What a refill records is a height slicing reaches |
| `SlhVerify.ShortSlice` | crates/slh-script/src/emit.rs:318-337 | Slicing a push with too few bytes for its blob aborts |
| `SlhVerify.PrologueRun` | crates/slh-script/src/emit.rs:764-773 | The prologue turns the pushed blobs into the queue, the first blob on top |
| `Params.SupportedSets` | crates/slh-script/src/params.rs:118-205 | The three sets satisfy every condition the theorems ask for, with signature sizes 7856, 3856 and 6176 |
| `Params.DigestLayout` | crates/slh-script/src/params.rs:243-258 | md, tree index and leaf index each take the fewest bytes that hold their k*a, h'(d-1) and h' bits |
| `Params.TreeBits` | crates/slh-script/src/params.rs:261-263 | The tree index has h'(d-1) bits, at most 56, and its bytes fit seven |
| `Params.DigitCounts` | crates/slh-script/src/params.rs:217-240 | Message digits tile the node exactly and the largest checksum fits its len2 digits |
| `Params.Lengths` | crates/slh-script/src/params.rs:217-235 | Chain counts 128 + 8, 64 + 4, 32 + 3 and 16 + 2 for the four digit widths |
| `Params.WordWidthLoop` | crates/slh-script/src/params.rs:303-309 | The loop finds the least width whose sign-magnitude range reaches the value, capped at 8 |
| `Params.IndexWidths` | crates/slh-script/src/params.rs:313-320 | The two index widths are 1 to 4 bytes and hold every index written in them |
| `Params.WidthsLeast` | crates/slh-script/src/params.rs:303-320 | No narrower field would hold the indices |
| `Params.WindowLeast` | crates/slh-script/src/emit.rs:504-512 | FORS index i is read from the byte its first bit is in, through the fewest bytes, but at least three, that hold it |
| `Params.WindowsFit` | crates/slh-script/src/emit.rs:504-526 | A set whose last FORS window ends inside the digest reads no window past it |
| `Reference.ChecksumFits` | crates/slh-script/src/params.rs:238-240 | The checksum of every node fits csum_bits |
| `Adrs.EncodeInjective` | crates/slh-script/src/adrs.rs:36-108 | Different in-range addresses have different bytes |
| `AdrsBytes.AddressBytes.constructor` | crates/slh-script/src/adrs.rs:47-49 | A new address is all zero |
| `AdrsBytes.AddressBytes.SetLayer` | crates/slh-script/src/adrs.rs:55-58 | Changes the layer and nothing else |
| `AdrsBytes.AddressBytes.SetTreeAddress` | crates/slh-script/src/adrs.rs:63-66 | Changes the tree and nothing else |
| `AdrsBytes.AddressBytes.SetTypeAndClear` | crates/slh-script/src/adrs.rs:74-78 | Sets the type and zeroes all three words |
| `AdrsBytes.AddressBytes.SetWord` | crates/slh-script/src/adrs.rs:80-84 | Changes one word and nothing else |
| `AdrsBytes.AddressBytes.SetKeyPairAddress` | crates/slh-script/src/adrs.rs:91-93 | Word one |
| `AdrsBytes.AddressBytes.SetChainAddress` | crates/slh-script/src/adrs.rs:97-99 | Word two |
| `AdrsBytes.AddressBytes.SetHashAddress` | crates/slh-script/src/adrs.rs:100-102 | Word three |
| `AdrsBytes.AddressBytes.SetTreeHeight` | crates/slh-script/src/adrs.rs:103-105 | Word two |
| `AdrsBytes.AddressBytes.SetTreeIndex` | crates/slh-script/src/adrs.rs:106-108 | Word three |
| `AdrsBytes.AddressBytes.HashParts` | crates/slh-script/src/adrs.rs:133-145 | The truncated hash of padded seed, address and parts, byte by byte |
| `HashInputs.RoleInput` | crates/slh-script/src/params.rs:63-69 | The address bytes of every role, its type written out as 0 to 6 |
| `HashInputs.ChainSecretInput` | crates/slh-script/src/signer.rs:276-284 | wots_skGen hashes the secret seed, at type 5 with the chain in word two |
| `HashInputs.ForsSecretInput` | crates/slh-script/src/signer.rs:399-405 | fors_skGen hashes the secret seed, at type 6 with the index in word three |
| `HashInputs.ChainStepInput` | crates/slh-script/src/reference.rs:218-226 | One chain step hashes the value, at type 0 with chain and step in words two and three |
| `HashInputs.GeneratedKeyInput` | crates/slh-script/src/signer.rs:298-318 | T_len in generation, at type 1 |
| `HashInputs.RecoveredKeyInput` | crates/slh-script/src/reference.rs:229-249 | T_len in verification, at type 1 |
| `HashInputs.TreeNodeInput` | crates/slh-script/src/signer.rs:414-432 | An XMSS node hashes left child then right, at type 2 with height and index |
| `HashInputs.ClimbInput` | crates/slh-script/src/reference.rs:252-282 | One level of a climb: height and halved position in the address, the index bit ordering the children |
| `HashInputs.ForsLeafInput` | crates/slh-script/src/signer.rs:364-382 | A FORS leaf hashes its secret, at type 3 with its index across all trees |
| `HashInputs.ForsNodeInput` | crates/slh-script/src/signer.rs:383-396 | A FORS node hashes left child then right, at type 3 with its index across all trees |
| `HashInputs.ForsKeyInput` | crates/slh-script/src/reference.rs:307-345 | T_k hashes every tree's root, at type 4 |
| `HashInputs.MessageInput` | crates/slh-script/src/reference.rs:147-164 | H_msg: R, seed, root, two zero bytes, the message; then R, seed, the inner digest, four zero bytes |
| `HashInputs.SplitOf128s` | crates/slh-script/src/reference.rs:289-299 | What the 128s set reads out of its 30 digest bytes: 21 for FORS, the low 54 bits of 7, the low 9 of 2 |
| `Roles.RoleInBounds` | crates/slh-script/src/signer.rs:276-405 | Every role in use under a well-formed set fits its address fields |
| `HostVerifier.Base2bLoop` | crates/slh-script/src/reference.rs:180-193 | Despite its wrapping 64-bit accumulator the loop returns the i-th big-endian b-bit field and reads exactly ceil(out_len*b/8) bytes |
| `HostVerifier.ToInt` | crates/slh-script/src/reference.rs:196-198 | The big-endian value, modulo 2^64 beyond eight bytes |
| `HostVerifier.WotsMessage` | crates/slh-script/src/reference.rs:201-215 | Digit i of the extended message: message digits, then the digits of the left-shifted checksum |
| `HostVerifier.ChainLoop` | crates/slh-script/src/reference.rs:218-226 | The chain from a start for a number of steps |
| `HostVerifier.WotsPkLoop` | crates/slh-script/src/reference.rs:229-249 | wots_pkFromSig |
| `HostVerifier.XmssPkLoop` | crates/slh-script/src/reference.rs:252-282 | xmss_pkFromSig |
| `HostVerifier.SplitDigest` | crates/slh-script/src/reference.rs:289-299 | md and the two indices, masked to their bits |
| `HostVerifier.ForsPkLoop` | crates/slh-script/src/reference.rs:307-345 | fors_pkFromSig: the indices, every tree's root, and the key, the address's tree index being the shifted leaf index at every height |
| `HostVerifier.HMsgLoop` | crates/slh-script/src/reference.rs:147-164 | H_msg |
| `HostVerifier.HypertreeLoop` | crates/slh-script/src/reference.rs:351-405 | Tree and leaf shift down by one layer each turn; the node is the reference's at every layer |
| `HostVerifier.VerifyTraced` | crates/slh-script/src/reference.rs:351-405 | Every intermediate the trace records is the specification's, the FORS roots and the digit string of every layer's node included |
| `HostVerifier.Verify` | crates/slh-script/src/reference.rs:408-410 | True iff the candidate root is the key's root |
| `SlhVerify.FromBytes` | crates/slh-script/src/reference.rs:67-86 | A signature iff the length is exact, and then one of the set's shape |
| `SignatureBytes.ParseSignature` | crates/slh-script/src/reference.rs:67-86 | The parsing loop refuses a wrong length and otherwise returns the same signature |
| `SignatureBytes.WireOffsets` | crates/slh-script/src/reference.rs:67-117 | The byte offset of the randomizer, every secret, every path element and every chain value |
| `SignatureBytes.FromToBytes` | crates/slh-script/src/reference.rs:89-96 | Parsing inverts serializing |
| `SignatureBytes.ToFromBytes` | crates/slh-script/src/reference.rs:89-96 | Serializing inverts parsing |
| `Signing.ChainCompose` | crates/slh-script/src/signer.rs:321-338 | Two stretches of a chain are one |
| `Signing.WotsOpens` | crates/slh-script/src/signer.rs:298-338 | Whatever node was signed, the recovered WOTS+ key is the generated one |
| `Signing.XmssOpens` | crates/slh-script/src/signer.rs:414-432 | Verifying one honest layer gives that layer's true root, whatever node was signed |
| `Signing.ForsOpens` | crates/slh-script/src/signer.rs:347-396 | Whatever leaf is opened, the verifier recovers the tree's true root |
| `Signing.ForsKeyFixed` | crates/slh-script/src/signer.rs:347-361 | PK_FORS of a hypertree position is the same for every message |
| `Signing.NodeIndexAgrees` | crates/slh-script/src/signer.rs:364-396 | The signer's global FORS node index is the verifier's shifted leaf index at every height |
| `Signing.HypertreeOpens` | crates/slh-script/src/signer.rs:213-271 | The verifier's node at each layer is the one the signer signed next |
| `Signing.TopTree` | crates/slh-script/src/signer.rs:213-271 | d-1 shifts by h' bring every tree index to 0, so the last layer is the one tree keygen built |
| `Signing.SignedRoot` | crates/slh-script/src/reference.rs:351-405 | The root recomputed from an honest signature is the generated key's, for every digest |
| `Treehash.FoldIsTree` | crates/slh-script/src/signer.rs:491-528 | Folding the path from a leaf reaches every ancestor and so the root |
| `TreehashLoop.MergeLeaf` | crates/slh-script/src/signer.rs:491-528 | Merging one leaf turns the stack of i leaves into that of i + 1 and stores every path node completed |
| `Treehash.StackFits` | crates/slh-script/src/signer.rs:491-528 | The pending stack never exceeds z + 1 |
| `Treehash.PendingSize` | crates/slh-script/src/signer.rs:491-528 | No more nodes wait than the counter has bits |
| `ParallelMap.RunWorkers` | crates/slh-script/src/signer.rs:536-579 | Every chunk is held by exactly one worker, with its own values, whatever the order of claims |
| `ParallelMap.Collect` | crates/slh-script/src/signer.rs:536-579 | Every index is written exactly once, with its own value |
| `SigningKeys.SigningKey.constructor` | crates/slh-script/src/signer.rs:190-202 | The public key is the specification's key of the seeds, the hash being SHA-256 over the given compression function |
| `KeyHashing.Hasher.ChainLoop` | crates/slh-script/src/signer.rs:287-295 | The chain, every step resumed from the midstate |
| `KeyHashing.Hasher.WotsSecret` | crates/slh-script/src/signer.rs:276-284 | The chain's secret value, from the midstate |
| `KeyHashing.Hasher.ForsSecret` | crates/slh-script/src/signer.rs:399-405 | The FORS secret value, from the midstate |
| `SigningKeys.SigningKey.LeafLayer` | crates/slh-script/src/signer.rs:435-453 | The true leaves of the (layer, tree) asked for, from the cache or by `wots_pk_gen` over the midstate on any number of cores, and the cache still tagged truthfully |
| `SigningKeys.SigningKey.XmssTree` | crates/slh-script/src/signer.rs:414-432 | The tree's root and the target's path, every join hashed through the midstate |
| `KeyHashing.Hasher.XmssNodeHash` | crates/slh-script/src/signer.rs:422-431 | An XMSS node from its children, through the midstate |
| `KeyHashing.Hasher.ForsLeafHash` | crates/slh-script/src/signer.rs:375-382 | A FORS leaf: its secret and the leaf itself, through the midstate |
| `KeyHashing.Hasher.ForsNodeHash` | crates/slh-script/src/signer.rs:383-389 | A FORS node from its children, through the midstate |
| `KeyHashing.Hasher.WotsSignLoop` | crates/slh-script/src/signer.rs:321-338 | wots_sign |
| `KeyHashing.Hasher.WotsPkGenLoop` | crates/slh-script/src/signer.rs:298-318 | wots_pkGen, its longest message fitting the midstate buffer |
| `SigningKeys.SigningKey.ForsTree` | crates/slh-script/src/signer.rs:364-396 | One FORS tree's opened element and path, every leaf and join hashed through the midstate |
| `SigningKeys.SigningKey.ForsSignLoop` | crates/slh-script/src/signer.rs:347-361 | The opened element and path of every tree, whatever order the threads finish in |
| `SigningKeys.SigningKey.SignHypertree` | crates/slh-script/src/signer.rs:213-271 | The hypertree part of the wire bytes |
| `SigningKeys.SigningKey.Sign` | crates/slh-script/src/signer.rs:213-271 | The wire bytes of the specified signature, whatever was signed before and however the work was scheduled |
| `Midstate.Midstate.constructor` | crates/slh-script/src/signer.rs:82-88 | The state holds the compressed first block |
| `Midstate.LongestMessageFits` | crates/slh-script/src/signer.rs:139-139 | The longest message, T_len's, fits the buffer for every digit width iff digits have more than one bit |
| `Midstate.WordAt` | crates/slh-script/src/signer.rs:128-133 | Every state word comes out most significant byte first, in order |
| `Midstate.DigestWords` | crates/slh-script/src/signer.rs:68-88 | The digest is the folded state's eight words |
| `Midstate.TwoBlocks` | crates/slh-script/src/signer.rs:68-134 | Folding two blocks is compressing one after the other |
| `Midstate.PaddedMessage` | crates/slh-script/src/signer.rs:115-120 | The padded message by its bytes: the message, 0x80, the fewest zeros to a whole block, the length in bits |
| `Midstate.Resumed` | crates/slh-script/src/signer.rs:96-134 | Folding the padded remainder from the saved state is hashing from the start |
| `Midstate.HandPadding` | crates/slh-script/src/signer.rs:96-134 | The hand-built padding is the one section 5.1.1 of FIPS 180-4 asks for |
| `ScriptEmitter.Emitter.constructor` | crates/slh-script/src/emit.rs:78-81 | Nothing emitted, an empty frame, nothing fetched |
| `ScriptEmitter.Emitter.Op` | crates/slh-script/src/emit.rs:85-88 | The instruction is appended to the code and nothing else changes |
| `ScriptEmitter.Emitter.NotePeak` | crates/slh-script/src/emit.rs:104-106 | The peak becomes the larger of itself and the frame length, and nothing else changes |
| `ScriptEmitter.Emitter.Data` | crates/slh-script/src/emit.rs:90-95 | Code, frame, queue counters and peak become what the call's specification says of the old ones |
| `ScriptEmitter.Emitter.Num` | crates/slh-script/src/emit.rs:97-102 | Code, frame, queue counters and peak become what the call's specification says of the old ones |
| `ScriptEmitter.Emitter.Cat` | crates/slh-script/src/emit.rs:108-111 | Code, frame, queue counters and peak become what the call's specification says of the old ones |
| `ScriptEmitter.Emitter.Sha256` | crates/slh-script/src/emit.rs:113-116 | Code, frame, queue counters and peak become what the call's specification says of the old ones |
| `ScriptEmitter.Emitter.Swap` | crates/slh-script/src/emit.rs:118-121 | Code, frame, queue counters and peak become what the call's specification says of the old ones |
| `ScriptEmitter.Emitter.Dup` | crates/slh-script/src/emit.rs:123-128 | Code, frame, queue counters and peak become what the call's specification says of the old ones |
| `ScriptEmitter.Emitter.Over` | crates/slh-script/src/emit.rs:130-135 | Code, frame, queue counters and peak become what the call's specification says of the old ones |
| `ScriptEmitter.Emitter.DropTop` | crates/slh-script/src/emit.rs:137-141 | Code, frame, queue counters and peak become what the call's specification says of the old ones |
| `ScriptEmitter.Emitter.BinaryNumOp` | crates/slh-script/src/emit.rs:143-146 | Code, frame, queue counters and peak become what the call's specification says of the old ones |
| `ScriptEmitter.Emitter.Pick` | crates/slh-script/src/emit.rs:149-157 | Code, frame, queue counters and peak become what the call's specification says of the old ones |
| `ScriptEmitter.Emitter.Roll` | crates/slh-script/src/emit.rs:160-166 | Code, frame, queue counters and peak become what the call's specification says of the old ones |
| `ScriptEmitter.Emitter.RollDepth` | crates/slh-script/src/emit.rs:170-175 | Code, frame, queue counters and peak become what the call's specification says of the old ones |
| `ScriptEmitter.Emitter.NameTop` | crates/slh-script/src/emit.rs:177-179 | Code, frame, queue counters and peak become what the call's specification says of the old ones |
| `ScriptEmitter.Emitter.Discard` | crates/slh-script/src/emit.rs:181-184 | Code, frame, queue counters and peak become what the call's specification says of the old ones |
| `ScriptEmitter.Emitter.Substr` | crates/slh-script/src/emit.rs:186-191 | Code, frame, queue counters and peak become what the call's specification says of the old ones |
| `ScriptEmitter.Emitter.EmitBeBytes` | crates/slh-script/src/emit.rs:205-228 | `emit_be_bytes`: code, frame, queue counters and peak become those of the phase whose meaning is proved below |
| `ScriptEmitter.Emitter.EmitBeInt` | crates/slh-script/src/emit.rs:231-249 | `emit_be_int_from`: code, frame, queue counters and peak become those of the phase whose meaning is proved below |
| `ScriptEmitter.Emitter.EmitDigitOf` | crates/slh-script/src/emit.rs:258-279 | `emit_digit_of`: code, frame, queue counters and peak become those of the phase whose meaning is proved below |
| `ScriptEmitter.Emitter.EmitTreeBytes` | crates/slh-script/src/emit.rs:286-293 | `emit_tree_bytes`: code, frame, queue counters and peak become those of the phase whose meaning is proved below |
| `ScriptEmitter.Emitter.Fetch` | crates/slh-script/src/emit.rs:302-314 | `fetch`: code, frame, queue counters and peak become those of the phase whose meaning is proved below |
| `ScriptEmitter.Emitter.SliceBlob` | crates/slh-script/src/emit.rs:318-337 | `slice_blob`: code, frame, queue counters and peak become those of the phase whose meaning is proved below |
| `ScriptEmitter.Emitter.EmitFinishHash` | crates/slh-script/src/emit.rs:343-348 | `finish_hash`: code, frame, queue counters and peak become those of the phase whose meaning is proved below |
| `ScriptEmitter.Emitter.EmitHMsg` | crates/slh-script/src/emit.rs:365-392 | `emit_h_msg`: code, frame, queue counters and peak become those of the phase whose meaning is proved below |
| `ScriptEmitter.Emitter.EmitIndices` | crates/slh-script/src/emit.rs:399-420 | `emit_indices`: code, frame, queue counters and peak become those of the phase whose meaning is proved below |
| `ScriptEmitter.Emitter.EmitHashContext` | crates/slh-script/src/emit.rs:424-451 | `emit_hash_context`: code, frame, queue counters and peak become those of the phase whose meaning is proved below |
| `ScriptEmitter.Emitter.EmitMerkleStep` | crates/slh-script/src/emit.rs:458-483 | `emit_merkle_step`: code, frame, queue counters and peak become those of the phase whose meaning is proved below |
| `ScriptEmitter.Emitter.EmitFors` | crates/slh-script/src/emit.rs:496-577 | `emit_fors`: code, frame, queue counters and peak become those of the phase whose meaning is proved below |
| `ScriptEmitter.Emitter.EmitLayer` | crates/slh-script/src/emit.rs:584-666 | `emit_layer`: code, frame, queue counters and peak become those of the phase whose meaning is proved below |
| `ScriptEmitter.Emitter.EmitWots` | crates/slh-script/src/emit.rs:670-755 | `emit_wots`: code, frame, queue counters and peak become those of the phase whose meaning is proved below |
| `ScriptEmitter.Emitter.EmitBody` | crates/slh-script/src/emit.rs:783-809 | Every phase, the closing checks and the comparison; failed iff the specification refuses |
| `ScriptEmitter.BuildVerifyScript` | crates/slh-script/src/emit.rs:841-845 | Code and recorded peak of the specified verifier script, or an error iff it refuses |
| `ScriptEmitter.BuildVaultScript` | crates/slh-script/src/emit.rs:848-856 | Code and recorded peak of the specified vault script, or an error iff it refuses |
| `SlhHelpers.BeBytesOk` | crates/slh-script/src/emit.rs:205-228 | A number below the sign bit of its width becomes its big-endian bytes |
| `SlhHelpers.BeIntOk` | crates/slh-script/src/emit.rs:231-249 | Reads the big-endian value of a byte range of a named slot |
| `SlhHelpers.DigitAtOk` | crates/slh-script/src/emit.rs:258-279 | The digit reader, its mask skipped for the first digit of a byte, returns the i-th field base_2b defines |
| `SlhHelpers.TreeBytesOk` | crates/slh-script/src/emit.rs:286-293 | The tree address bytes, constant or computed |
| `SlhHelpers.FinishHashOk` | crates/slh-script/src/emit.rs:343-348 | The truncated digest of prefix then message |
| `SlhFors.HMsgPhaseOk` | crates/slh-script/src/emit.rs:365-392 | R, key and message become H_msg |
| `SlhFors.IndicesPhaseOk` | crates/slh-script/src/emit.rs:399-420 | The two hypertree indices split_digest defines |
| `SlhFors.ForsIndexValue` | crates/slh-script/src/emit.rs:504-526 | The widened window, though it may read past md, returns the FORS index base_2b defines on md |
| `SlhFors.HashContextOk` | crates/slh-script/src/emit.rs:424-451 | Seed, padding, layer, tree, type and key pair of an address |
| `SlhFors.ForsTreeOk` | crates/slh-script/src/emit.rs:496-577 | One tree: its root, as the reference computes it, joins the accumulator and its temporaries are gone |
| `SlhFors.ForsPhaseOk` | crates/slh-script/src/emit.rs:496-577 | The node becomes PK_FORS and nothing else is left behind |
| `SlhPath.GateSwapOk` | crates/slh-script/src/emit.rs:458-483 | The run-time swap is conditional, the frame's is not: names are exact up to that swap and the stack length always |
| `SlhPath.MerkleStepOk` | crates/slh-script/src/emit.rs:458-483 | The parent of two children ordered by the index bit |
| `SlhPath.PathLevelsOk` | crates/slh-script/src/emit.rs:496-666 | A whole path: the node becomes the reference's climb and every sibling is fetched in order |
| `SlhWots.ChecksumStepsOk` | crates/slh-script/src/emit.rs:670-708 | The accumulated sum is the checksum of the digits |
| `SlhWots.ChecksumDigitOk` | crates/slh-script/src/emit.rs:690-708 | Shift-based checksum digits equal those the reference reads after its left shift |
| `SlhWots.TopDigit` | crates/slh-script/src/emit.rs:690-708 | The first checksum digit needs no mask |
| `SlhWots.ChainStepsOk` | crates/slh-script/src/emit.rs:722-742 | After every gated step the value is the reference chain from the digit, however many steps ran |
| `SlhWots.ChainPhaseOk` | crates/slh-script/src/emit.rs:709-750 | One chain end joins the accumulator |
| `SlhWots.WotsPhaseOk` | crates/slh-script/src/emit.rs:670-755 | The node becomes the WOTS+ key the reference recovers and its inputs are gone |
| `SlhLayer.LayerPhaseOk` | crates/slh-script/src/emit.rs:584-666 | The node becomes the layer's root under the tree and leaf in force |
| `SlhLayer.LayerPhasesOk` | crates/slh-script/src/emit.rs:584-666 | Every layer: the node becomes the reference's hypertree node |
| `SlhVerify.BodyOk` | crates/slh-script/src/emit.rs:783-809 | The body computes the reference's candidate root and consumes every element |
| `SlhVerify.CheckedRuns` | crates/slh-script/src/emit.rs:795-803 | For any body with that meaning the closing frame, queue and count checks pass and the comparison answers |
| `Lms.SupportedSets` | crates/lms-script/src/params.rs:45-96 | The sets are consistent, with their signature lengths; only in the one-bit set can the largest digit sum, shifted, reach 2^15 |
| `Lms.WireParsed` | crates/lms-wallet/src/spend.rs:54-60 | A signature is found again in its wire form, whatever the leaf and type words say, and its length is the set's |
| `Lms.ParsedWire` | crates/lms-wallet/src/spend.rs:54-60 | Every byte string of the right length is the wire form of what it parses to |
| `LmsInputs.MessageInput` | crates/lms-script/src/verify.rs:85-99 | Q hashes I, the leaf number in four bytes, 81 81, C, the message |
| `LmsInputs.StepInput` | crates/lms-script/src/verify.rs:154-192 | A chain step hashes I, the leaf number, the chain in two bytes, the step in one, the value |
| `LmsInputs.KeyInput` | crates/lms-script/src/verify.rs:197-225 | Kc hashes I, the leaf number, 80 80, every chain's end |
| `LmsInputs.LeafInput` | crates/lms-script/src/verify.rs:234-273 | The leaf hashes I, its node number 2^h + q, 82 82, Kc |
| `LmsInputs.InteriorInput` | crates/lms-script/src/verify.rs:234-273 | A node hashes I, its number, 83 83, its children, the path's element on the left when the node climbed from is odd |
| `LmsInputs.ChecksumInput` | crates/lms-script/src/ots.rs:64-78 | The digest is followed by the checksum's high byte, then its low one |
| `LmsInputs.VerifyGenerated` | crates/lms-script/src/verify.rs:62-80 | There is a script for every leaf of the tree and no other |
| `LmsInputs.VaultGenerated` | crates/lms-script/src/verify.rs:298-307 | The vault additionally needs an output count from 1 to 127 |
| `Lms.OneBitChecksum` | crates/lms-script/src/params.rs:72-81 | In the one-bit set the checksum reaches 2^15 for the all-zero digest, where it is exactly 2^15, and for no other |
| `Lms.CoefIsField` | crates/lms-script/src/ots.rs:13-18 | `coef` is the i-th w-bit big-endian field |
| `Lms.ChecksumFits16` | crates/lms-script/src/ots.rs:64-71 | The shifted checksum fits sixteen bits, and fifteen for every set but the one-bit one |
| `Lms.ChecksumLoop` | crates/lms-script/src/ots.rs:64-71 | The 32-bit loop and its cut to sixteen bits lose nothing |
| `Lms.CoefSourceLoop` | crates/lms-script/src/ots.rs:74-78 | Digest followed by the big-endian checksum |
| `Lms.WitnessPushes` | crates/lms-wallet/src/spend.rs:54-71 | For every wire form of a signature: path and chain values last to first, then C; refused on any other length |
| `LmsVerify.WitnessLayout` | crates/lms-wallet/src/spend.rs:54-71 | The pushes leave C, the chains in order and the path in order, from the top |
| `LmsScript.CoefOpsOk` | crates/lms-script/src/ots.rs:32-57 | The emitted reader leaves the coefficient above the value it read |
| `LmsScript.ChecksumHeadOk` | crates/lms-script/src/verify.rs:108-144 | The checksum as a number beside the digest, for every digest |
| `LmsScript.ChecksumTailOk` | crates/lms-script/src/verify.rs:108-144 | Below 2^15 the digest becomes digest and big-endian checksum |
| `LmsVerify.WideAborts` | crates/lms-script/src/verify.rs:108-144 | At 2^15 the two-byte encoding stops the script |
| `LmsScript.ChainOk` | crates/lms-script/src/verify.rs:154-192 | Chain i takes exactly one value and stashes its end |
| `LmsScript.ChainsOk` | crates/lms-script/src/verify.rs:154-192 | Exactly p chain values are consumed |
| `LmsScript.KeyOpsOk` | crates/lms-script/src/verify.rs:197-225 | The stashed ends become Kc of section 4.6 of RFC 8554 |
| `LmsScript.PathOpsOk` | crates/lms-script/src/verify.rs:234-273 | Kc becomes the candidate root, consuming exactly h path nodes |
| `LmsEmitter.EmitCoefficient` | crates/lms-script/src/ots.rs:32-57 | Appends the specified reader, or refuses an index past the last chain |
| `LmsEmitter.EmitMessageDigest` | crates/lms-script/src/verify.rs:85-99 | Appends the specified phase |
| `LmsEmitter.EmitChecksumAndV` | crates/lms-script/src/verify.rs:108-144 | Appends the specified phase |
| `LmsEmitter.EmitChains` | crates/lms-script/src/verify.rs:154-192 | Appends the specified phase |
| `LmsEmitter.EmitCandidateKey` | crates/lms-script/src/verify.rs:197-225 | Appends the specified phase |
| `LmsEmitter.EmitMerklePath` | crates/lms-script/src/verify.rs:234-273 | Appends the specified phase by halving the node number |
| `LmsEmitter.EmitVerify` | crates/lms-script/src/verify.rs:62-80 | The specified script, refused for a leaf outside the tree |
| `LmsEmitter.EmitVaultScript` | crates/lms-script/src/verify.rs:298-307 | The specified vault script or its refusals |
| `Binding.BindingPreimage` | crates/vault-core/src/binding.rs:114-152 | The serializer loop: the preimage, or a refusal at the first field out of bounds |
| `Binding.ParsePreimage` | crates/vault-core/src/binding.rs:114-152 | A parser inverts the length-prefixed mixed-endian layout |
| `Binding.Refusals` | crates/vault-core/src/binding.rs:114-152 | A view is refused iff it has no output or more than 127, or a field above its literal bound |
| `Binding.HeaderBytes` | crates/vault-core/src/binding.rs:114-152 | The fixed part by its bytes: version, txid, index, output count |
| `Binding.RecordBytes` | crates/vault-core/src/binding.rs:100-152 | One output by its bytes: amount and script length little-endian, version big-endian, script |
| `Binding.RecordsFront` | crates/vault-core/src/binding.rs:114-152 | The outputs follow one another in order |
| `Binding.EmitBindingDigest` | crates/vault-core/src/binding.rs:173-223 | The emitting loop appends the specified program, or refuses an output count out of bounds |
| `Binding.BindingYields` | crates/vault-core/src/binding.rs:173-223 | For any transaction and output count: exactly when the emitted program succeeds, and the digest it leaves |
| `Binding.OutputYields` | crates/vault-core/src/binding.rs:173-223 | Output i is appended iff it exists and its fields fit |
| `Binding.FieldFits` | crates/vault-core/src/binding.rs:62-80 | The serializer's bounds are exactly the fixed widths' sign-bit limits |
| `JournalText.ParseHead` | crates/lms-wallet/src/journal.rs:220-234 | Reading a head and a run of hex digits: the record it names iff the run is even and not empty |
| `JournalText.ParseFormatted` | crates/lms-wallet/src/journal.rs:200-234 | Every record with a signature survives its line |
| `JournalText.HexRoundTrip` | crates/lms-wallet/src/journal.rs:236-253 | Hex decoding inverts encoding |
| `JournalText.DecimalRoundTrip` | crates/lms-wallet/src/journal.rs:200-234 | Decimal decoding inverts encoding |
| `JournalForm.LineForm` | crates/lms-wallet/src/journal.rs:200-217 | Where each field of a line sits, its colons and its newline |
| `JournalForm.HexCharsAt` | crates/lms-wallet/src/journal.rs:236-238 | Byte i is characters 2i and 2i + 1, high digit first, lower case |
| `JournalForm.DecimalDigits` | crates/lms-wallet/src/journal.rs:203-209 | The last digit is the number mod 10, the rest are the number over 10, and no zero leads |
| `JournalForm.PairEdges` | crates/lms-wallet/src/journal.rs:248-253 | Upper-case digits and a leading plus sign read in a pair; nothing else does |
| `JournalForm.HexEdges` | crates/lms-wallet/src/journal.rs:248-253 | Empty and odd-length hex is refused |
| `JournalForm.DecimalEdges` | crates/lms-wallet/src/journal.rs:220-234 | A plus sign and leading zeros read; an empty field, a minus sign and an overflow do not |
| `JournalForm.BlankChars` | crates/lms-wallet/src/journal.rs:220-222 | What trimming removes, by character code |
| `JournalForm.ReadTyped` | crates/lms-wallet/src/journal.rs:220-234 | Whatever reads has a 16-byte vault id, a 32-bit leaf, a 32-byte digest and a signature |
| `Journal.OpenBody` | crates/lms-wallet/src/journal.rs:157-184 | A file of complete lines opens to its records, the last of a leaf winning |
| `Journal.OpenTail` | crates/lms-wallet/src/journal.rs:157-184 | An unterminated last line is kept if it reads, skipped if blank, and otherwise the file is refused (the code; its comment says discarded) |
| `Journal.ThreeTorn` | crates/lms-wallet/src/journal.rs:200-234 | After at most three torn appends the last line, if it reads at all, names the leaf of the first |
| `Journal.OntoTail` | crates/lms-wallet/src/journal.rs:200-217 | A complete line behind an unfinished one makes the file unreadable for good |
| `Journal.TailKey` | crates/lms-wallet/src/journal.rs:220-234 | Hex digits added to a readable line change neither its leaf nor its digest |
| `JournalFile.PutsReopen` | crates/lms-wallet/src/journal.rs:157-217 | Round trip: after any successful puts of records with signatures, reopening gives exactly the map in memory |
| `JournalFile.NoSignatureNoReopen` | crates/lms-wallet/src/journal.rs:248-253 | A put without a signature makes the file refuse for good |
| `JournalFile.FileJournal.constructor` | crates/lms-wallet/src/journal.rs:152-155 | The file and its map |
| `JournalFile.FileJournal.Open` | crates/lms-wallet/src/journal.rs:157-184 | The loop over lines: null iff some line is neither a record nor blank |
| `JournalFile.FileJournal.Get` | crates/lms-wallet/src/journal.rs:196-198 | The record of a leaf, if any |
| `JournalFile.FileJournal.Put` | crates/lms-wallet/src/journal.rs:200-217 | The line, whole or torn, reaches the file; the map learns it only when the append is durable |
| `JournalFile.FileJournal.SignOnce` | crates/lms-wallet/src/journal.rs:95-125 | One step of the state machine; the closure is called iff the leaf has no record |

## Left out

- The engine's own push encoding, script-unit pricing, element-size and stack limits: the engine is not part of this model; `data(b)` pushes exactly b, `num(n)` the minimal encoding of n, and the peak theorem bounds what any limit would be compared with.
- Conditions: `OpIf` is modelled on the booleans the emitters feed it; what the engine does with other values is not stated.
- The SHA-256 rounds, HMAC and the random source: parameters.
- `estimated_slice_units`, `placeholder_witness` and the cost figures derived from them: pricing only.
- SlhVerify.VerifyAnyPushes: one push a blob. With fewer the vault aborts (`Vault.TooFewPushes`); items beneath the pushes stay beneath the answer, and what the engine makes of them is not stated.
- ScriptEmitter.Emitter.Op: the source leaves a method with `?` at the first error; here a sticky `failed` flag turns every later call into a no-op, so what is modelled is that an error anywhere fails the whole generation, not which message it carries.
- Witness.LocateLoop: the source panics on an element past the plan; the model returns nothing, and generation is shown never to ask.
- Generation.VerifyGenerated: plans of positive blobs, as the source's own plans are; an empty blob is not considered.
- TreehashLoop.TreehashAuth: a closure is modelled by what it captures, with one alternative for arbitrary functions.
- ParallelMap.RunWorkers: a schedule says whose claim comes next and the claims themselves are atomic, as are the threads of `fors_sign`; memory ordering below that is not modelled.
- SigningKeys.SigningKey.LeafLayer: the mutex around the cache is not modelled; each call sees the cache the previous one left.
- HostVerifier.ToInt: stated with the wrap-around at 2^64 the source's accumulator has; the callers never reach it.
- Signing.SignaturesVerify: holds for one-bit digits too, as a statement about what is computed; the signer of the source stops there, since their longest message overflows its midstate buffer (`Midstate.LongestMessageFits`), and `SigningKeys.SigningKey` excludes them.
- LMS: no bound on the stack is stated, because the source states none.
- LmsVerify.LmsScriptCorrect: the LMS signer and key generation live in an external library, so completeness of LMS signing is not claimed.
- JournalRuns.RunsAreSafe: the record of a leaf that was only ever returned to a retry is kept by digest here; when it is kept itself is stated by `JournalExact`. One process at a time has the file open, an append leaves a prefix of its line or all of it, and nothing else writes the file.
- JournalText.ParseHead: text is a sequence of characters with the six ASCII blanks; other Unicode blanks are not modelled, and a lone carriage return at the end of a line is removed by trimming as in the source.
- JournalFile.FileJournal.Put: file permissions, directories and `sync_all` are represented only by how the append ends.
- `MemoryJournal`: a map with no file behind it, nothing beyond what the file journal already shows.
- `build_spend`: transaction assembly and mass calculation around `sign_once`; only the witness layout and the journal call are modelled.
- Binding: the encoding of the transaction itself; a view holds the fields the digest commits to.
- BIP32 derivation, mnemonics, key-material detection, wRPC, the command line, configuration, scanning, change and fee arithmetic, and frozen test vectors: outside the four cores, and easy or external.
- Forgery bounds and collision resistance: not decided by this code.
