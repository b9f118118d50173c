# G301: the inner-thread session and the outer cipher, modelled and proved

This project models the two stateful parts of G301 and proves what they keep over whole runs.

**The inner-thread session** (`inner-threads/src`). One endpoint owns ten traffic contexts, five channels in two
directions. It moves from Committing to Active to Draining to Closed, or to Failed, and erases its keys when it ends.

- `Bytes`, `Profile`, `Record`: byte strings, key schedule, wire form, additional data, nonce, and the framing around the
  AEAD. The buffers the program fills in place are arrays here, with the loops that fill them.
- `EndpointModel`: one endpoint as a value, each operation as a function of it. The value also carries a history of the
  records sealed and opened and of every attempt to seal or open with a key, which erasing leaves alone.
- `Session`: the session as an object with mutable fields and arrays. Every method is proved equal to its function.
- `EndpointInvariant`, `EndpointRuns`: what every run of one endpoint keeps, under any calls, bytes and library failures.
- `SessionCalls`: what every call of a session answers and does, from the bytes, the state and the AEAD alone: a
  reference that uses none of the model's own steps.
- `KeyUse`: when a key is used at all, failed attempts included, and under which nonces.
- `Adversary`, `AdversaryTheorems`, `HandshakeBinding`: two endpoints and a network that may replay, reorder, drop, inject
  and reflect. The two endpoints start from secrets of their own; agreement is a theorem, not an assumption.
- `FifoLink`, `LinkAnswers`, `SessionCompletes`: two endpoints of one derivation on a reliable first-in first-out link,
  what each application hears of the other's calls, and how a whole session ends.

**The outer cipher context** (`outer-tls/src/g301_cipher.c`). A streaming decorator around AES-256-GCM that puts a fixed
manifest in front of the additional data and counts encryption records per installed key.

- `CipherModel`: the context as a value, each provider call as a function, and the history of all external calls: inner
  init, update, final, get and set of the tag, locks, the atomic counter, and what each call gave back.
- `CipherContext`: the context as an object around a `Backend`, which stands for the inner cipher and the platform. Every
  method is proved equal to its function.
- `CipherInvariant`: an observer (`Read`) that reads three things off a history alone: the state of the inner cipher, the
  record as the caller sees it, and the budget of the installed key. Then the invariant that ties the context to it.
- `CipherCalls`: what every provider call answers and does, from its arguments, the fields and the external answers alone:
  a reference that uses none of the model's own steps.
- `CipherDiscipline`, `CipherKeys`, `CipherTheorems`, `CipherProgress`: the theorems, over every run and every fault.
- `CipherWitnesses`: concrete runs that show behaviour at the edge of the documentation.

## Assumptions

- **AEAD.** The inner session uses two uninterpreted functions. `Correct` says that opening a sealed record returns its
  plaintext. `Ideal` says of one run that the AEAD opens no tuple (key, nonce, additional data, ciphertext, tag) that no
  endpoint sealed; it is stated move by move and only for tuples that are actually tried.
- **Inner cipher.** The outer context runs against a `Script`: an arbitrary answer, failure or wrong length for each
  external call, and arbitrary bytes in the buffer of a tag fetch. Quantifying over all scripts covers every behaviour,
  adaptive ones included. Only the theorems that mention AES-256-GCM assume `Genuine`: where the inner cipher reports
  success on a record used in order, its result is the one NIST SP 800-38D sections 7.1 and 7.2 define, with counter-mode
  encryption and tag as uninterpreted functions. `CipherProgress.DecryptionSucceedsExactly` and
  `CipherProgress.ReleasedRecordVerifies` assume `Judges` instead, of one closing call: it succeeds exactly if the tag held
  is the right one.
- **Key schedule.** SHA-384 and HKDF (RFC 5869) are uninterpreted. Where a theorem needs that two values do not collide, it
  says so for the few inputs at hand (`CollisionFree`, `Separates`, the last premise of `OneSidedManifestFails`).
- **Limits.** The record limit is any positive number below the largest C `int`, which includes the production constant.

## Where documentation and code differ

`outer-tls/docs/G301_DRAFT.md:72` says that every failed Final poisons the record. In the code a Final that finds no open
record (after a successful one, before any init, or on a poisoned context) fails and changes nothing, so an encryption tag
can still be fetched after a second Final was refused. `CipherTheorems.FailedFinal` gives the exact condition and
`CipherWitnesses.SecondFinalPoisonsNothing` a run.

## What a reader may not expect

A record need not run under the key of the last successful key-bearing init. When an init with another key is refused only
because the lock for installing the write key failed (`outer-tls/src/g301_cipher.c:389-394`), the inner cipher already
holds the new key and `key_valid` is set, so that a later IV-only init and a Final succeed under the key of the refused
init. `CipherWitnesses.RefusedKeyIsUsed` is such a run, `CipherTheorems.FailedInitKeepsKey` says exactly when a failed init
leaves a key in force, and `CipherTheorems.FinalRunsUnderCallersKey` says exactly when a successful Final ran under the key
of the last successful key-bearing init. A caller who has seen no key-bearing init fail since that one need not worry
(`CipherTheorems.FinalRunsUnderLastKey`). The budget is not affected: such an IV-only init installs that key first.

## Model

| member | source | states |
|---|---|---|
| Bytes.ValueOfBigEndian | inner-threads/src/record.rs:63-65 | reading a big-endian number back gives the number, for every width that holds it |
| Bytes.BigEndianOfValue | inner-threads/src/record.rs:84-96 | every byte string is the big-endian form of the number read from it |
| Profile.MaterialIndexIsBijective | inner-threads/src/profile.rs:93-106 | the index of a channel and direction is one-to-one and reaches all of 0 to 9 |
| Profile.DirectionsMirror | inner-threads/src/lib.rs:56-70 | one end sends in the direction the other receives, and never in its own receiving direction |
| Profile.ChannelIdCanonical | inner-threads/src/profile.rs:51-91 | an identifier that decodes to a channel is that channel's identifier |
| Profile.PrefixedFieldInjective | inner-threads/src/profile.rs:170-187 | a length-prefixed field at the head of a string determines the field and what follows |
| Profile.BuildManifest | inner-threads/src/profile.rs:189-199 | the pushed bytes are the published suite manifest, byte for byte, and no field is too long |
| Profile.BuildInfoInjective | inner-threads/src/profile.rs:230-246 | equal info strings agree in purpose, both hashes, channel and direction |
| Profile.ContextInputInjective | inner-threads/src/profile.rs:208-217 | the context-hash input determines the manifest hash and the application context |
| Profile.DeriveSecrets | inner-threads/src/profile.rs:257-355 | succeeds exactly when neither the salt hash, nor the extraction, nor one of the thirty expansions fails, and then each of the ten entries is the derivation for its own channel and direction |
| Profile.DerivedBytes | inner-threads/src/profile.rs:138-246 | whatever the derivation yields is the hash of the manifest, the hash of the written-out context input, and for each channel and direction the key and IV expanded from the written-out info strings |
| Profile.DerivedKeysDiffer | inner-threads/src/profile.rs:302-348 | unless its own expansions collide, a derivation gives ten different keys |
| Profile.SharedKeyMeansSharedSource | inner-threads/src/profile.rs:208-355 | two derivations that share one key and the context hash started from one exporter value and one application context |
| Record.NewHeader | inner-threads/src/record.rs:49-73 | bytes 0 to 3 are version 1, the type byte and the identifier, the next eight read as the sequence, the last four as the length; more than 2^14 bytes are refused, and nothing else |
| Record.CopyInto | inner-threads/src/record.rs:264 | writes exactly the given range of a buffer and leaves the rest alone |
| Record.DecodeEncode | inner-threads/src/record.rs:49-107 | decoding a header gives back all fields it was made from |
| Record.DecodedIsCanonical | inner-threads/src/record.rs:79-107 | every header that decodes is the encoding of its own fields |
| Record.EncodeInjective | inner-threads/src/record.rs:61-65 | headers with equal bytes have equal fields |
| Record.ParseOfWire | inner-threads/src/record.rs:224-246 | parsing header, ciphertext and tag put together gives back these three |
| Record.ParsedIsCanonical | inner-threads/src/record.rs:224-246 | every accepted byte string is the one printed form of what was parsed from it |
| Record.BuildAad | inner-threads/src/record.rs:248-269 | the copy loop fills all 139 bytes: 0, 24, the suite text, both hashes, the direction byte, the header |
| Record.AadInjective | inner-threads/src/record.rs:248-269 | equal additional data agree in both hashes, direction and header |
| Record.BuildNonce | inner-threads/src/record.rs:271-278 | bytes 0 to 3 are those of the IV, and every bit of a later byte is set exactly where the IV and the matching byte of the sequence differ |
| Bytes.XorIsExclusiveOr | inner-threads/src/record.rs:274-276 | a byte is the exclusive or of two others exactly if, bit by bit, it is set where these differ |
| Record.FirstNonce | inner-threads/src/record.rs:387 | sequence number 0 gives back the IV |
| Record.PublishedNonce | inner-threads/src/record.rs:376-386 | the published example: sequence 1 changes 3f3bc8cfde490a24c9f00a90 to 3f3bc8cfde490a24c9f00a91 |
| Record.NonceInjective | inner-threads/src/record.rs:271-278 | under one IV, different 64-bit sequence numbers give different nonces |
| Record.Seal | inner-threads/src/record.rs:148-184 | the output is header, ciphertext and tag of one AEAD call under the nonce and additional data of that header; a wrong length is an error |
| Record.OpenParsed | inner-threads/src/record.rs:186-221 | the plaintext is what one AEAD call on the parsed parts gives, and only at the announced length |
| Record.OpenOfSeal | inner-threads/src/record.rs:148-246 | whoever parses and opens a sealed record with the same inputs gets its plaintext, by exactly the tuple that was sealed |
| Session.Session.constructor | inner-threads/src/session.rs:123-135 | a new session is Committing, with unused counters and no flag set |
| Session.Session.FromExporterEpoch | inner-threads/src/session.rs:102-136 | refuses empty and over-long contexts with InvalidContext, fails with Crypto exactly when some hash, extraction, expansion or the cipher fetch fails; otherwise the manifest hash is that of the 83 manifest bytes, and context hash, salt and the thirty info strings with the labels traffic, key and iv are as written out byte by byte |
| Session.Session.RefreshDue | inner-threads/src/session.rs:144-146 | true when one of the ten contexts reached a soft limit |
| Session.Session.Abort | inner-threads/src/session.rs:149-154 | a session that was not Closed or Failed is Failed with all ten keys, IVs and counters zero; an ended one keeps state, keys and counters; flags and hashes stay |
| Session.Session.SealCommit | inner-threads/src/session.rs:157-169 | refines the endpoint function: the one Commit, and Active once both sides committed |
| Session.Session.SealData | inner-threads/src/session.rs:172-180 | refines the endpoint function: Data in Active only, at most 2^14 bytes |
| Session.Session.SealRefreshRequired | inner-threads/src/session.rs:185-190 | refines the endpoint function: a Guard record in Active only |
| Session.Session.SealClose | inner-threads/src/session.rs:193-206 | refines the endpoint function: one Close, and Closed once both sides closed |
| Session.Session.OpenRecord | inner-threads/src/session.rs:209-271 | refines the endpoint function, and a successful answer is Commit, RefreshRequired, Close or Data of the named channel exactly as byte 1 is 0x80, 0x81, 0x82 or 0x00 |
| Session.Session.ValidateIncoming | inner-threads/src/session.rs:273-298 | reports a wrong channel or length before a wrong state |
| Session.Session.SealRaw | inner-threads/src/session.rs:300-331 | refines the endpoint function: the next number of the sending context, one AEAD seal, counting, and the limit |
| Session.Session.Consume | inner-threads/src/session.rs:51-63 | counts one record on one context and no other, and says whether a hard limit is reached |
| Session.Session.TerminateIfHardLimitReached | inner-threads/src/session.rs:333-338 | a reached limit ends a live session erased and Failed |
| Session.Session.FinishCloseIfComplete | inner-threads/src/session.rs:340-345 | both closes end the session erased and Closed |
| Session.Session.Erase | inner-threads/src/session.rs:347-352 | all ten keys, IVs and counters become zero, nothing else changes |
| Session.Session.Fail | inner-threads/src/session.rs:354-360 | an error erases and fails a live session and leaves an ended one alone |
| EndpointInvariant.SealStep | inner-threads/src/session.rs:157-206 | a sealing call fails the session, or appends exactly the next record of its context and returns its wire form; the state machine invariant holds after it |
| EndpointInvariant.OpenStep | inner-threads/src/session.rs:209-298 | opening fails the session, or appends exactly the record behind one authenticated tuple; the state machine invariant holds after it |
| EndpointInvariant.LimitsFit | inner-threads/src/session.rs:17-74 | below 2^22 records no byte limit can bite, counting cannot overflow, and refresh is due from 2^21 records on |
| EndpointInvariant.PrecheckErrors | inner-threads/src/session.rs:213-229 | no input, forged headers included, makes a live session refuse for a limit |
| EndpointRuns.RunInv | inner-threads/src/session.rs:95-361 | the session invariant holds on every run |
| EndpointRuns.StateMatchesFlags | inner-threads/src/session.rs:157-206 | on every run the state and the four flags agree, and an ended session holds no key, IV or counter |
| EndpointRuns.TerminalAbsorbs | inner-threads/src/session.rs:149-154 | Closed and Failed ignore every call: nothing changes, the history of key uses included, and nothing succeeds |
| EndpointRuns.TerminalForever | inner-threads/src/session.rs:354-360 | so an ended session stays as it is under any number of calls |
| EndpointRuns.AbortEnds | inner-threads/src/session.rs:149-154 | on every run an abort leaves a session Failed unless it was Closed or Failed, with keys, IVs and counters zero and flags, hashes and histories unchanged, and no later call seals, opens or changes anything |
| EndpointRuns.NeverLimitReached | inner-threads/src/session.rs:227-245 | no call of any run reports LimitReached |
| EndpointRuns.SealSucceedsExactly | inner-threads/src/session.rs:157-206 | on every run, with a correct AEAD, a sealing call returns a record exactly when the state machine allows it and the library works |
| EndpointRuns.LimitsFitTogether | inner-threads/src/session.rs:17-74 | in every live state all ten contexts have records equal to the next number, below 2^22, at most 2^14 bytes per record, and room for any legal record |
| EndpointRuns.RefreshDueExactly | inner-threads/src/session.rs:65-67 | a refresh is due exactly when some context has carried 2^21 records |
| EndpointRuns.NoncesNeverRepeat | inner-threads/src/session.rs:300-352 | two records sealed on one context never share a number or a nonce, aborts, failures and erasure included |
| EndpointRuns.NthSealUsesNthNumber | inner-threads/src/session.rs:306-328 | the k-th record sealed on a context carries number k - 1, below 2^22 |
| EndpointRuns.OneCommitOneClose | inner-threads/src/session.rs:157-206 | the first record sealed is the only Commit, and nothing is sealed after a Close |
| SessionCalls.ParseExactly | inner-threads/src/record.rs:79-246 | exactly the complete records parse: version 1, one of four types, one of five identifiers, a length of at most 2^14 that the input matches; and the parts are read off at their offsets |
| SessionCalls.OpenDoes | inner-threads/src/session.rs:209-298 | on every run the answer of an open, error class included, is a function of the input bytes, the state, the number of records received and one AEAD call written out; a taken record moves flags, state, counter and history as written out, anything else ends the session |
| SessionCalls.AnswerNamesTheRecord | inner-threads/src/session.rs:247-271 | on every run an open that succeeds answers Commit, RefreshRequired, Close or Data exactly as byte 1 says, and Data with the channel that bytes 2 and 3 name |
| SessionCalls.SealDoes | inner-threads/src/session.rs:157-206 | on every run the answer of a sealing call, error class included, is the header, ciphertext and tag written out from the state, the number of records sealed and one AEAD call, or the reason; state, flags and counter move as written out |
| KeyUse.KeysAreUsedOnlyAfterChecks | inner-threads/src/session.rs:209-331 | on every run a call makes at most one AEAD attempt: a seal the state machine allows under the next nonce of its context, or an open whose input passed every check, on that input's tuple; none in Closed and Failed, library failures or not |
| KeyUse.SealAttemptsNeverShareNonce | inner-threads/src/session.rs:300-361 | no two attempts to seal on one context share a nonce, those included that the library failed |
| KeyUse.DerivationSeparatesKeys | inner-threads/src/profile.rs:302-348 | the ten keys of a session derived without a collision are pairwise different |
| KeyUse.OneSourceNeverRepeatsPair | inner-threads/src/session.rs:300-331 | two sessions derived from one exporter value and context never attempt to seal twice with one key and nonce, on any network, library failures included |
| Adversary.SealedTupleIsPeers | inner-threads/src/record.rs:248-278 | a tuple an endpoint would open was sealed by the other end, never reflected, under the same hashes, key and header, and opens to just that record |
| Adversary.WorldRunInv | inner-threads/src/session.rs:208-331 | on every run with an ideal AEAD each end has opened, channel by channel, a prefix of what the other sealed |
| AdversaryTheorems.ReportsAreHistories | inner-threads/src/session.rs:172-271 | the plaintexts calls took and returned are those in the histories |
| AdversaryTheorems.PrefixDelivery | inner-threads/src/session.rs:172-271 | what open_record returns on a data channel is a prefix of what the peer's successful seal_data calls took, under replay, reordering, loss, injection and reflection |
| AdversaryTheorems.HandshakeAgreement | inner-threads/src/session.rs:157-206 | an end past the commit exchange has a peer that sealed a Commit under the same two hashes; a Closed end has a peer that sealed Close and is Draining, Closed or Failed |
| AdversaryTheorems.CounterMirroring | inner-threads/src/session.rs:221-245 | once a receiver opened as many records on a context as the sender had sealed there, their counters are equal |
| AdversaryTheorems.LimitEndsBoth | inner-threads/src/session.rs:333-338 | once the record that fills a context has been opened, neither end is live |
| AdversaryTheorems.SameRecordEndsBoth | inner-threads/src/session.rs:262-269 | on either side a successful call ends the session exactly at record 2^22 of a context or at the completing Close; a receiver is Closed exactly by the latter, a sender exactly if that Close is not itself record 2^22 |
| AdversaryTheorems.KeyNoncePairsNeverRepeat | inner-threads/src/session.rs:300-331 | two ends that hold the same ten different keys never seal twice with one key and nonce, whatever the network does |
| HandshakeBinding.ReceiverSharesKey | inner-threads/src/session.rs:231-241 | an end that opened anything holds the same Guard receiving key as its peer's sending key |
| HandshakeBinding.CommitBindsSource | inner-threads/README.md:16-19 | an end past the commit exchange has a peer with the same exporter value and application context |
| HandshakeBinding.DataBindsSource | inner-threads/README.md:16-19 | and no plaintext reaches an application whose peer had another exporter value or context |
| FifoLink.RunKeeps | inner-threads/src/session.rs:157-331 | on every run over a reliable link each queue holds exactly the sealed records not yet opened, in order |
| FifoLink.DrainDeliversEverything | inner-threads/src/session.rs:209-271 | emptying the queue gives a live receiver every record its peer ever sealed, whatever ended the peer, exactly unless the receiver sealed its own Close and Data or RefreshRequired is still in flight |
| FifoLink.ClosedMeansComplete | inner-threads/src/session.rs:340-345 | on every run over a reliable link an end that is Closed has opened every record its peer ever sealed |
| LinkAnswers.Progress | inner-threads/src/session.rs:157-298 | opening the next record in flight answers how the peer's call behind it is heard (seal_commit as Commit, seal_data as its channel and bytes, and so on), unless it is Data or RefreshRequired crossing the receiver's own Close, which is refused; both ways |
| LinkAnswers.AnswersAreCalls | inner-threads/src/session.rs:157-271 | on every run over a reliable link the answers at one end are, one by one and in order, how the successful sealing calls at the other are heard, and all of them once the end is Closed |
| SessionCompletes.SessionCompletes | inner-threads/src/session.rs:157-271 | without library failures, commits, then any interleaving of data and refresh records said and heard that fills no context, then closes, whoever closes first, leave both ends Closed, and the opens at each have answered Commit, exactly what the other said in order, and Close |
| SessionCompletes.SessionIsActive | inner-threads/src/session.rs:157-169 | from the commits on and all through such a conversation both ends are Active |
| CipherContext.Backend.Init | outer-tls/src/g301_internal.h:29-31 | an inner init may fail; the call is noted with its arguments |
| CipherContext.Backend.GetTag | outer-tls/src/g301_internal.h:35 | a tag fetch may fail or report any length, and writes arbitrary bytes into the buffer it is given either way; the call is noted |
| CipherContext.Backend.Update | outer-tls/src/g301_internal.h:32-33 | an inner update may fail or report any length; the call is noted |
| CipherContext.CipherCtx.constructor | outer-tls/src/g301_cipher.c:406-431 | a new context is all zero, with no record |
| CipherContext.CipherCtx.InvalidateRecord | outer-tls/src/g301_cipher.c:82-87 | drops the record and the tag set for it, and nothing else |
| CipherContext.CipherCtx.Poison | outer-tls/src/g301_cipher.c:89-93 | demands a new init and drops the tag, and nothing else |
| CipherContext.CipherCtx.RecordCurrentKey | outer-tls/src/g301_cipher.c:95-111 | only a different key marks the current key as changed; a failed lock changes nothing |
| CipherContext.CipherCtx.InstallWriteKey | outer-tls/src/g301_cipher.c:113-143 | fast path or comparing path, only another key than the installed one starts a new count |
| CipherContext.CipherCtx.ReserveEncryptionRecord | outer-tls/src/g301_cipher.c:145-173 | grants one record within the limit; every refusal poisons and ends the record |
| CipherContext.CipherCtx.InjectManifest | outer-tls/src/g301_cipher.c:458-478 | sends the manifest once, after the reservation, and becomes active only if all of it was taken |
| CipherContext.CipherCtx.Update | outer-tls/src/g301_cipher.c:480-531 | refines the update function: refused calls leave the record alone, a failed or short inner call poisons it |
| CipherContext.CipherCtx.Final | outer-tls/src/g301_cipher.c:533-583 | refines the final function |
| CipherContext.CipherCtx.GetEncryptionTag | outer-tls/src/g301_cipher.c:621-661 | whatever the inner cipher wrote, the caller's buffer is unchanged on every failing path and on a size query, and holds the fetched tag exactly on success |
| CipherContext.CipherCtx.GetCtxParams | outer-tls/src/g301_cipher.c:663-703 | refines the get function; the caller's buffer changes only to a released tag |
| CipherContext.CipherCtx.SetCtxParams | outer-tls/src/g301_cipher.c:743-789 | refines the set function: a call with a tag first forgets the old one |
| CipherContext.CipherCtx.Reject | outer-tls/src/g301_cipher.c:309-328 | what a malformed init drops |
| CipherContext.CipherCtx.ValidateInitParams | outer-tls/src/g301_cipher.c:243-284 | accepts exactly a list without forbidden or repeated names and with the fixed length fields, whose tag, if any, is well formed and for a record that begins and is decrypted |
| CipherContext.CipherCtx.Init | outer-tls/src/g301_cipher.c:286-404 | refines the init function; the second check of a tag without a new record is never reached |
| CipherContext.CipherCtx.Perform | outer-tls/src/g301_cipher.c:444-789 | one provider call changes the object as the model says and notes what it gave back; no call but a successful tag request touches the caller's tag buffer |
| CipherCalls.ManifestIsDocumented | outer-tls/docs/G301_DRAFT.md:31-47 | the 32 manifest bytes are the documented name, version, count, four data entries and control entry |
| CipherCalls.InitReachesExactly | outer-tls/src/g301_cipher.c:286-361 | in every context an init reaches the inner cipher exactly if key and IV have length 32 and 12 or are absent with 0, no name is forbidden or repeated, all length fields are right, an IV comes with a key or a valid one, and a tag is well formed, for decrypting, and beside such an IV |
| CipherCalls.InitDoes | outer-tls/src/g301_cipher.c:286-404 | on every run an init that is not so is refused without an external call, with its exact effect on record and tag; one that is makes the written-out inner and lock calls, succeeds exactly if they do, and leaves every field as written out |
| CipherCalls.UpdateDoes | outer-tls/src/g301_cipher.c:458-531 | in every context an update is refused without a trace, empty, or starts the record (reservation, limit, manifest) and hands the data on; answer, calls and every field are written out for each case |
| CipherCalls.FinalDoes | outer-tls/src/g301_cipher.c:533-583 | in every context a final is refused without a trace, poisons, or starts and closes the record; answer, calls and every field are written out for each case |
| CipherCalls.SetParamsDoes | outer-tls/src/g301_cipher.c:705-789 | in every context a tag is set exactly for a legal list with a well-formed tag on an open decryption when the inner cipher takes it; answer, calls and every field |
| CipherCalls.GetParamsDoes | outer-tls/src/g301_cipher.c:621-703 | in every context a tag is fetched exactly for a legal request of 16 bytes on a finished encryption and given out exactly if all of it came; answer, calls and every field |
| CipherInvariant.ApplyInv | outer-tls/src/g301_cipher.c:286-789 | every call, with every possible fault, keeps the tie between the context's flags and its history |
| CipherInvariant.RunInv | outer-tls/src/g301_cipher.c:286-789 | so it holds on every run |
| CipherInvariant.InstallCompares | outer-tls/src/g301_cipher.c:113-143 | on either path a successful install leaves what comparing the keys leaves, and a failed one changes no key |
| CipherDiscipline.RunDisciplined | outer-tls/src/g301_cipher.c:145-173 | on every run each inner update, final, tag fetch and tag setting finds a clean record; each encryption call is charged to the installed key within its limit; the manifest comes first and payload never precedes additional data |
| CipherTheorems.FinalIsOneRecord | outer-tls/src/g301_cipher.c:458-583 | when Final succeeds, the inner cipher has seen the manifest, the caller's accepted non-empty chunks in order and one final, and nothing else, since its accepted IV-bearing init, under the caller's IV and direction and the key in force |
| CipherTheorems.FinalRunsUnderCallersKey | outer-tls/src/g301_cipher.c:339-403 | a successful Final ran under the key of the last successful key-bearing init exactly if no key-bearing init since was refused after its inner call and key record succeeded, or the last such gave that same key |
| CipherTheorems.FinalRunsUnderLastKey | outer-tls/src/g301_cipher.c:339-403 | in terms of what a caller is told: if no key-bearing init failed since the last successful one, a successful Final ran under that one's key |
| CipherKeys.RunTie | outer-tls/src/g301_cipher.c:346-374 | on every run a valid key is the one in force: that of the last successful key-bearing init, or of a later one refused only at the install |
| CipherWitnesses.RefusedKeyIsUsed | outer-tls/src/g301_cipher.c:389-394 | a run in which a Final succeeds under the key of a refused init, after that of the last successful one |
| CipherWitnesses.SuchALockScript | outer-tls/src/g301_cipher.c:389-394 | answers of the external calls that lead to that run exist |
| CipherWitnesses.SecondFinalPoisonsNothing | outer-tls/src/g301_cipher.c:554-559 | a run in which a second Final is refused, poisons nothing, and the tag is then fetched |
| CipherTheorems.FinalIsGcm | outer-tls/SECURITY.md:14-16 | the output is AES-256-GCM over manifest and additional data, whatever the chunking, rejected calls and earlier faults; a successful decryption verified the caller's tag over it |
| CipherTheorems.FreshTag | outer-tls/src/g301_cipher.c:560-568 | decryption succeeds only if the last call that carried a tag since the record began was accepted, and the inner cipher then holds just that tag |
| CipherTheorems.TagIsOfThisRecord | outer-tls/src/g301_cipher.c:621-701 | a tag given out was fetched by that very call from the finished encryption record, with no inner init since |
| CipherTheorems.TagIsGcm | outer-tls/src/g301_cipher.c:621-701 | that tag is the GCM tag of manifest, additional data and the ciphertext the caller got |
| CipherTheorems.ChunkingDoesNotMatter | outer-tls/src/g301_cipher.c:480-531 | two encryptions of one text agree in ciphertext and tag however each was cut into calls and whatever failed before |
| CipherTheorems.DecryptionUndoesEncryption | outer-tls/SECURITY.md:14-16 | a context that verifies what another released accepted its tag and recovered its text |
| CipherTheorems.OneSidedManifestFails | outer-tls/docs/G301_DRAFT.md:103-107 | a tag computed without the manifest, with it twice, or with another one does not verify, unless the tag function collides |
| CipherTheorems.PoisonContainment | outer-tls/SECURITY.md:17-19 | after any inner failure or wrong length no update, final, tag fetch or tag setting reaches the inner cipher before it accepted an IV-bearing init |
| CipherTheorems.FailedFinal | outer-tls/src/g301_cipher.c:533-583 | a failed Final poisons the record exactly when one was open, and otherwise changes nothing |
| CipherTheorems.OnlyInitOpens | outer-tls/docs/G301_DRAFT.md:73 | only a successful IV-bearing init opens a record |
| CipherTheorems.RecordSurvivesFailedInit | outer-tls/src/g301_cipher.c:301-342 | a failed init keeps a record open exactly when its own arguments or a missing key turned it away before the inner call and it did not carry a tag beside a key or a new direction; a failed init with a tag never leaves a tag set |
| CipherTheorems.BudgetHolds | outer-tls/src/g301_cipher.c:145-173 | on every run at most the limit of records is charged to a key, and the counter stays at most one above it and within an int |
| CipherTheorems.ProductionBudget | outer-tls/src/g301_internal.h:22-24 | with the production limit at most 23,680,450 records are charged to a key and the counter fits an int |
| CipherKeys.CountNeverFalls | outer-tls/docs/G301_DRAFT.md:89-94 | from any reachable context on, while no encrypting init succeeds under another key, the installed key stays, its counter never falls, and an exhausted key stays exhausted |
| CipherKeys.SwitchStartsAtZero | outer-tls/src/g301_cipher.c:127-137 | and an encrypting init that does succeed under another key installs it with a count of zero |
| CipherTheorems.RefusedExactlyAtTheLimit | outer-tls/src/g301_cipher.c:145-173 | a new encryption record is granted exactly when fewer than the limit were charged and the counter could be raised |
| CipherProgress.BudgetDecides | outer-tls/src/g301_cipher.c:145-173 | on every run, an Update or Final that would start a new encryption record is refused, ends the record, demands a new init and reaches no inner cipher when the budget is used up; otherwise it is accepted unless an external call fails |
| CipherTheorems.WriteKeyBookkeeping | outer-tls/src/g301_cipher.c:95-143 | on every run a valid key is the one the inner cipher last accepted, the fast path equals the comparing path, and an open encryption record runs under the installed key |
| CipherTheorems.FailedInitKeepsKey | outer-tls/src/g301_cipher.c:339-403 | after a failed init with a key, a key is in force exactly if the arguments were wrong and one was before, or if they were right and only the install failed |
| CipherProgress.FeedingGoesThrough | outer-tls/src/g301_cipher.c:480-531 | without a fault, every further chunk of a text that keeps additional data before payload is accepted |
| CipherProgress.RecordGoesThrough | outer-tls/src/g301_cipher.c:286-583 | after any run, a well-formed init, such a text, for decryption a tag given in the init or set anywhere before the Final, and the Final all succeed when no external call fails and the budget allows it, and reach the inner cipher as one record of exactly these chunks with the tag set last |
| CipherProgress.DecryptionSucceedsExactly | outer-tls/src/g301_cipher.c:533-583 | after any run, a legal decryption whose external calls succeed up to the closing one succeeds in Final exactly if the tag set last is the GCM tag of manifest, additional data and ciphertext under the key in force, where the inner cipher judges as GCM prescribes |
| CipherProgress.ReleasedRecordVerifies | outer-tls/SECURITY.md:14-16 | so a context fed the ciphertext and the tag that another one released, under the same key, IV and additional data, verifies, however it cuts the text into calls |

## Left out

- The cryptography: AES, GHASH, SHA-384, HKDF and the EVP wrapper `outer-tls/src/g301_inner_evp.c` are uninterpreted functions or the `Backend`, under the assumptions above.
- Record.Seal: the separate EVP calls inside one seal are one AEAD call that may fail as a whole.
- Record.OpenParsed: likewise for the EVP calls inside one open.
- Session.Session.Consume: on an overflow, which no run reaches, the program has raised one or two of the three numbers before it fails and erases them; here they stay as they are until then.
- OSSL_PARAM lists: reduced to whether a tag is present and well formed, whether length fields have the fixed values, and whether a forbidden or repeated name occurs; string scanning and type coercion are not modelled.
- Null contexts, memory allocation, error-queue raising, capability reporting, provider loading and test hooks.
- Concurrency: a context has one caller at a time, so the lock and the atomic addition are calls that may fail, and the second look at the current key under the lock finds what the first one found.
- CipherContext.CipherCtx.Update: the output buffer is not modelled as an array: what a failing inner update has already written into it is not captured, only the bytes a call reports; decryption output is reported before its tag is verified, as in the source.
- Erasing means that fields become zero; what remains in memory, constant time and compiler effects are not modelled.
- CipherTheorems.BudgetHolds: the budget is per context and installed key, as the source intends; nothing is said about a key shared by two contexts or installed again after another.
- Two sessions of one role from one exporter value, possible only through a test feature.
- That a Closed session has delivered all data over a lossy network, or that data crossing a local Close is accepted: the source promises neither.
- Benchmarks, scripts, packaging and test programs.
