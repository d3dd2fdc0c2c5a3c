# road-1337: a verified model of the relay, the file transfer and the codecs

road-1337 is an end-to-end encrypted messenger. Two sessions talk through a "blind relay" that routes opaque
packets by the hash of a public key. This project models the four parts in which the program's correctness
lies and proves what they promise, for all inputs, all interleavings and all runs.

* **The relay as a concurrent machine** (`RelayMachine`). The accept loop, one handler per connection, the
  sweeper, every goroutine started by `go s.evict(...)` and `Stop` are threads with program counters. Acquiring
  and releasing the read/write lock, entering a peer's `sync.Once`, closing, each table access, each write and
  each clearing of a buffer are steps of their own. A writer announces itself before it waits for the readers
  inside, as in `sync.RWMutex`. `RelayInvariants` states what holds in every state, `RelaySteps` that each of
  the steps keeps it, and the other `Relay…` modules what follows: no orphan connections, evictions that never
  hit a replacement, lock progress and release, routing, buffers, the sweep, capacity, what `Stop` does
  (`RelayStop`), and what the state says about the past (`RelayHistory`). `RelayWitness` builds runs that reach the
  capacity bound, `RelayDelivery` runs from the start that register two clients and deliver any given packets
  between them, and `RelaySilence` runs in which a client falls silent; `RelayRuns`, `RelayTurn` and
  `RelayAtomic` are the pieces of such runs.
* **The relay's objects** (`RelayServer`). The routing table, the peers and the pooled buffers as classes over
  real arrays, one goroutine at a time. `RelayRefinement` ties them to the machine: each method has the effect of
  a run of machine steps.
* **The file transfer.** `Fragments` is what a sender puts on the wire, `Transfers` what a receiver does with a
  payload, `Delivery` the theorem that interleaved transfers arrive independently of each other, `Client` the
  session objects with all their loops, and `EndToEnd` the composition of a sending session, the relay among
  other clients and a receiving session, disk to disk.
* **The codecs.** `Base58` with `Positional` (notation in any base), `Protocol` with `Words` (big-endian words),
  `Cipher` (fixed-size packets around an abstract AEAD), `Framing` (frames over a segmented byte stream).

## Assumptions

* An AEAD is any pair of functions for which opening inverts sealing and a seal is 16 bytes longer than its
  input (`Cipher.Lawful`); this is a hypothesis of the theorems that need it, and `Cipher.LawfulExists` shows
  that it can be met. The key hash is an arbitrary function.
* `conn.Write` is atomic: it writes everything or fails.
* TCP keeps the order of bytes and cuts them into arbitrary segments.
* For the delivery theorems: FileIDs of transfers that are active at the same time differ, and so do their output
  paths.
* Unless a read fails, reading a file gives as many bytes as `Stat` reported, in blocks of any size up to the buffer.
* `lastAlive` is read and written atomically. In the program the relay loop writes it without the lock under
  which the sweep reads it, which Go calls a data race.

## Where the code and its documentation differ

The model follows the code.

* `internal/protocol/protocol.go:6-12` says that a transfer ends with an EOF packet and does not depend on byte
  counts. No EOF packet is ever sent; the receiver counts bytes (`internal/client/client.go:527`).
* The count is compared with `>=`, so a transfer completes with up to 4056 bytes more than announced
  (`Transfers.ByteCountCompletion`, reached by `Transfers.OverrunReached`), and it is a 64-bit word: for announced
  sizes above 2^64 - 4057 it can wrap and miss the end (`Transfers.DetectsCompletionIff`, `Transfers.WrapMisses`).
* `internal/client/client.go:371` computes the announced number of chunks in `int64` and cuts it to 32 bits. For
  sizes above 2^63 - 131071 the sum wraps around, and from 2^32 blocks on the number is not the true one
  (`Fragments.ChunkPacketCount`).
* `internal/client/client.go:184-185` says that the teardown cleans up any open file transfers. In two cases it
  does not, and no others (`Client.AllFilesClosedIff`): a file header that names the FileID of an open transfer
  replaces it without closing its file (`Client.ReplacedStaysOpen`), and if the teardown comes between opening and
  dispatching the packet of a file header, the file is opened afterwards (`Client.LateHeaderStaysOpen`). No code
  closes these files; the garbage collector may do so for a replaced one.
* `internal/client/client.go:217-218` calls `sendLoop` the sole writer of the connection; pings, pongs and file
  transfers write to it as well.
* `internal/crypto/cipher.go:98-100` returns without clearing the block that holds the plaintext when reading the
  padding fails (`Cipher.Session.Seal`).
* An empty file is announced as sent even if its only chunk could not be sent
  (`internal/client/client.go:395-400`, `Client.Session.SendFile`).
* `maxPeers` is compared long before the registration, so it is not a bound on the table. `RelayCapacity` has the
  bound that holds and `RelayWitness` shows that it is reached.

## Model

| member | source | states |
|---|---|---|
| Base58.EncodeBase58 | internal/crypto/base58.go:20-51 | The loops return the text over the alphabet that denotes the same number in base 58 as the bytes do in base 256, most significant digit first, with one leading '1' for each leading zero byte, for every input including the empty one |
| Base58.DecodeBase58 | internal/crypto/base58.go:60-93 | For a text over the alphabet the loops return the bytes of the number it denotes, with one leading zero byte per leading '1'; for any other they fail and name a foreign character |
| Base58.DivideOut | internal/crypto/base58.go:37-40 | The division loop yields exactly the base-58 digits of the number, least significant first |
| Base58.TableIndex | internal/crypto/base58.go:81-87 | The linear scan finds the rank of a character, or -1 outside the alphabet |
| Base58.AlphabetAt | internal/crypto/base58.go:12 | The alphabet string lists 58 symbols in the order of their ranks |
| Base58.DecodeEncode | internal/crypto/base58.go:14-51 | Decoding inverts encoding on every byte string |
| Base58.EncodeDecode | internal/crypto/base58.go:53-93 | Encoding inverts decoding on every text that decodes |
| Base58.DecodeFails | internal/crypto/base58.go:53-93 | Decoding fails if and only if some character is outside the alphabet, and reports the first one |
| Base58.Bijection | internal/crypto/base58.go:14-93 | No two keys share a text, no two texts name the same key, and exactly the texts over the alphabet name one |
| Base58.DenotesOne | internal/crypto/base58.go:14-93 | A text denotes one byte string only and a byte string is denoted by one text only, so the two contracts above determine the results |
| Words.PutUint | internal/protocol/protocol.go:68-69 | The big-endian word is stored in place and nothing else in the buffer changes |
| Words.GetPut | internal/protocol/protocol.go:80-81 | Reading a word back gives the stored number, for all 16, 32 and 64-bit values |
| Words.PutGet | internal/protocol/protocol.go:80-81 | Storing the number read from a word gives the word back |
| Words.BigEndian | internal/protocol/protocol.go:80-81 | The number read from 2, 4 or 8 bytes is the one in which the first byte weighs most |
| Protocol.EncodeHeader | internal/protocol/protocol.go:65-71 | Nine bytes: the type, the chunk index and the FileID, big-endian |
| Protocol.BuildMessage | internal/protocol/protocol.go:89-95 | A message payload is the type, eight zero bytes and the data |
| Protocol.BuildFileChunk | internal/protocol/protocol.go:99-109 | A chunk payload is the byte 4, the chunk index, the FileID and the body |
| Protocol.BuildFileEOF | internal/protocol/protocol.go:112-117 | An EOF payload is the byte 8, four zero bytes and the FileID |
| Protocol.DecodePayload | internal/protocol/protocol.go:74-86 | Decoding a built payload gives back its header and body, for all field values |
| Protocol.RebuildPayload | internal/protocol/protocol.go:74-86 | A payload decodes if and only if it was built from a header and a body, and re-encoding gives it back |
| Protocol.PayloadLayout | internal/protocol/protocol.go:74-86 | Which bytes of a payload are its type, chunk index, FileID and body, and that it decodes from nine bytes on |
| Protocol.EncodeFileHeader | internal/protocol/protocol.go:132-144 | Size in 8 bytes, number of chunks and FileID in 4 each, the length of the name in 2, all big-endian, and the name; or an error exactly if the name is longer than 255 bytes |
| Protocol.DecodeFileHeaderBytes | internal/protocol/protocol.go:147-163 | Decoding inverts encoding, even with bytes behind the header |
| Protocol.RebuildFileHeader | internal/protocol/protocol.go:147-163 | Re-encoding a decoded file header gives back exactly the bytes consumed |
| Protocol.FileHeaderLayout | internal/protocol/protocol.go:147-163 | Which bytes of a file header are which field, and exactly when it is too short or its name is cut off |
| Protocol.EncodeHandshake | internal/protocol/protocol.go:175-181 | 65 bytes: the version, the sender's key, the recipient's hash |
| Protocol.DecodeHandshake | internal/protocol/protocol.go:184-195 | From 65 bytes on the version is byte 0, the sender's key bytes 1 to 32 and the recipient's hash bytes 33 to 64; a shorter one is an error |
| Protocol.DecodeHandshakeBytes | internal/protocol/protocol.go:184-195 | Decoding inverts encoding of a handshake |
| Protocol.RebuildHandshake | internal/protocol/protocol.go:184-195 | Decoding succeeds exactly from 65 bytes on, and re-encoding gives those 65 bytes back |
| Cipher.NewSession | internal/crypto/cipher.go:58-73 | A session exists exactly for a 32-byte key and keeps a copy of it |
| Cipher.OpenSealed | internal/crypto/cipher.go:75-120 | Sealing succeeds exactly if the plaintext has at most 4066 bytes and the random source delivers; the packet has 4096 bytes and opens to the plaintext, for every nonce and padding |
| Cipher.SealedLayout | internal/crypto/cipher.go:85-120 | The packet is the nonce and, sealed under it, 4068 bytes: the length of the plaintext, the plaintext, and what the random source gave for the rest; sealing fails for the first of three reasons |
| Cipher.OpenedLayout | internal/crypto/cipher.go:122-153 | For every packet, what it opens to or for which of four reasons it does not |
| Cipher.OpenedExactly | internal/crypto/cipher.go:122-153 | A packet opens to a plaintext if and only if it has 4096 bytes and its authenticated block is that plaintext with its length in front and anything behind |
| Cipher.Session.Seal | internal/crypto/cipher.go:85-120 | Computes the sealed packet; the plaintext block is wiped on success and on a missing nonce, and still holds the plaintext if the padding could not be read |
| Cipher.Session.Open | internal/crypto/cipher.go:124-153 | Computes the opened plaintext or the error; a block was decrypted exactly on success, on a short block and on a bad length, and on each of these ways out it is wiped |
| Cipher.Session.Zeroize | internal/crypto/cipher.go:155-164 | The key bytes are zero, key and AEAD are dropped |
| Framing.FramesRecovered | internal/relay/relay.go:224-231 | Whatever partial frame follows, the frames read are the frames written |
| Framing.Stream.ReadFull | internal/client/client.go:267-276 | A full read takes exactly the next buffer-sized piece of the stream, over any segmentation, and fails only if the stream ends first |
| Framing.ReadWritten | internal/client/client.go:249-281 | For every segmentation of the bytes, the read loop over one buffer recovers exactly the list of frames written |
| Fragments.BodiesComplete | internal/client/client.go:432-446 | Cutting a block loses and duplicates nothing and makes ceil(n/4057) pieces, all of 4057 bytes except that the last may be shorter |
| Fragments.ChunkBodiesComplete | internal/client/client.go:395-429 | The bodies of a transfer concatenate to the file; each has 1 to 4057 bytes unless the file is empty |
| Fragments.ItemsCarry | internal/client/client.go:374-429 | The packets of a transfer are its header and then one chunk per body, in order, under its FileID; the chunks of a block carry its number as a 32-bit word |
| Fragments.ItemsFit | internal/client/client.go:432-446 | Every packet fits, so sealing never refuses one |
| Fragments.ItemDecodes | internal/client/client.go:285-321 | The receiver reads from each packet what the sender put in |
| Fragments.LastIndex | internal/client/client.go:402-419 | The last packet of a non-empty file carries the number of its last block as a 32-bit word |
| Fragments.HeaderTells | internal/client/client.go:365-380 | The header of a file announces its name, its size and its FileID, one chunk for an empty file and otherwise, while that fits 32 bits, as many chunks of 131072 bytes as hold it |
| Fragments.TotalChunksExact | internal/client/client.go:368-372 | The announced number of chunks is ceil(size/131072) as a 32-bit word if and only if the size is at most 2^63 - 131071 |
| Fragments.ChunkPacketCount | internal/client/client.go:368-419 | With full reads a non-empty file takes 33*(size/131072) + ceil((size mod 131072)/4057) chunk packets; the index after the last chunk is TotalChunks if and only if the size is at most 2^63 - 131071, and TotalChunks is the number of blocks if and only if that fits 32 bits |
| Transfers.SavedOnce | internal/client/client.go:483-541 | Against any payloads and disk faults a transfer is announced at most once, is closed from then on and keeps its contents |
| Transfers.DoneIsFinal | internal/client/client.go:248-256 | After the teardown nothing is received |
| Transfers.DisconnectEnds | internal/client/client.go:318-321 | A payload of type 7 ends the session, and no other payload does: nothing is open any more and what was saved stays |
| Transfers.OthersIgnored | internal/client/client.go:296-322 | Payloads of other types than 3, 4 and 7, and those that are too short, change nothing |
| Transfers.HeaderArrives | internal/client/client.go:302-308 | What a payload of type 3 does, in terms of its bytes: a new, empty transfer with the name, size and FileID in it, unless it is malformed or the file cannot be created |
| Transfers.ChunkArrives | internal/client/client.go:483-541 | What a payload of type 4 does, in terms of its bytes: unknown FileIDs are ignored, more than 131072 bytes drop the transfer, a failed write keeps what was written without counting it, and otherwise the bytes are added, counted in 64 bits and saved once the count reaches the announced size |
| Transfers.ByteCountCompletion | internal/client/client.go:508-541 | With successful writes a completed transfer has at least TotalSize and fewer than TotalSize + 4057 bytes, and an open one has fewer than announced |
| Transfers.OverrunReached | internal/client/client.go:514-527 | For every countable size some healthy run of packets completes the transfer with 4056 bytes more than announced, so the bound is exact |
| Transfers.WrapMisses | internal/client/client.go:514-527 | For every TotalSize above 2^64 - 4057 some healthy run of packets leaves the transfer open with all its bytes and saves nothing |
| Transfers.DetectsCompletionIff | internal/client/client.go:514-527 | Over all runs of the receiver with successful writes, no transfer of a given size is ever open with all its bytes, if and only if that size is at most 2^64 - 4057 |
| Delivery.InertChangesNothing | internal/client/client.go:279-321 | Packets that do not open, messages, pings, pongs and unknown types leave the transfers alone |
| Delivery.TransfersAreIndependent | internal/client/client.go:248-322 | For any number of files with distinct FileIDs, any interleaving with each other and with other traffic, any disk faults and at every step, each file is in the state that its own packets alone determine |
| Delivery.StatusDecides | internal/client/client.go:452-541 | A file is announced as saved if and only if all its packets came and the disk served them, then with exactly the bytes sent; before that its content is a prefix of the file with the byte count equal to its length |
| Delivery.CompleteFilesAreSaved | internal/client/client.go:527-541 | On a healthy disk every file whose packets have all come is out of the registry and saved once, with its header and exactly its bytes |
| Client.Session.BuildFrame | internal/client/client.go:562-571 | The outer frame is the recipient's key hash and then the sealed packet |
| Client.Session.SendPacket | internal/client/client.go:548-578 | Writes exactly one frame if the session is open and ready, sealing succeeds and the connection takes it, and nothing otherwise; of seven reasons to fail it reports the first |
| Client.Session.SendChunkFragmented | internal/client/client.go:432-446 | A block goes out as its bodies in order, up to the first packet that cannot be sent, which is the first one if the session is closed or not connected |
| Client.Session.SendBlocks | internal/client/client.go:402-429 | The read loop sends the chunks of all blocks in order, with the block index, up to the first failure |
| Client.Session.SendFile | internal/client/client.go:344-429 | A file that cannot be opened sends nothing; otherwise header and chunks of what is read go out in order up to the first failure; the success message appears exactly if all did and no read failed, and for an empty file as soon as its header is out |
| Client.BrokenReadSends | internal/client/client.go:402-427 | If a read fails after n blocks, what goes out is the front of the transfer: the header and the chunks of exactly the first n blocks |
| Client.Session.RecvFile | internal/client/client.go:452-479 | A file header registers a fresh transfer under its FileID unless the file cannot be created |
| Client.Session.AppendChunk | internal/client/client.go:483-541 | The objects do what the value model says: reject, write, count, complete; a done transfer is left alone and none is done between packets |
| Client.Session.Dispatch | internal/client/client.go:296-322 | Each packet type has the effect of the value model; a running session ends if and only if the type is 7, and is torn down then; and only a ping, type 5, makes the session write, namely a pong |
| Client.PongLaidOut | internal/client/client.go:312-313 | The pong is an empty payload of type 6 |
| Client.Session.RecvLoop | internal/client/client.go:248-293 | Over any segmentation of the stream the loop handles the whole packets in order and ends in the teardown of the state that the value model computes for those that came before the end of the stream, a disconnect, or a teardown by another goroutine while a packet is awaited or after it was opened; keys are wiped and the connection is closed then; of all files ever opened none is open, exactly if no header was dispatched too late and none replaced an open transfer; and the session has written one pong for each ping handled, and nothing else |
| Client.NothingAfterDisconnect | internal/client/client.go:248-322 | With the first disconnect the session is over with what it had saved; whatever packets follow, and whatever teardown comes later, changes nothing of what the loop ends with |
| Client.EndedSaved | internal/client/client.go:248-322 | However the loop ends, what is saved is what the packets handled before the teardown saved; a packet dispatched after it saves nothing |
| Client.AllFilesClosedIff | internal/client/client.go:184-213 | When the loop has ended, no file is open if and only if no header whose file can be created was dispatched after the teardown and none that was handled before named the FileID of a transfer open at that time |
| Client.AnnouncementExists | internal/crypto/cipher.go:75-120 | Every file header with a name of at most 255 bytes can be sealed into a packet that announces it, so the two failing inputs exist |
| Client.LateHeaderStaysOpen | internal/client/client.go:283-312 | A failing input: a header opened before the teardown and dispatched after it |
| Client.ReplacedStaysOpen | internal/client/client.go:474-476 | A failing input: two headers with the same FileID, whatever else they say |
| Client.Session.Zeroize | internal/client/client.go:185-213 | Wipes the cipher and the peer key, closes the connection and all open files, forgets the transfers; a second call changes nothing |
| RelaySteps.BufferDiscipline | internal/relay/relay.go:215-259 | Every buffer step takes a clean buffer, fills it, clears it or gives it back clean |
| RelaySteps.StoreOrphans | internal/relay/relay.go:195-202 | Overwriting a table entry orphans nobody, because the old connection was closed under the same lock |
| RelaySteps.RemovedOrphans | internal/relay/relay.go:204-213 | Deleting an entry orphans nobody, because its connection was closed before |
| RelaySteps.StepKeeps | internal/relay/relay.go:84-297 | Every step of every thread keeps the invariant |
| RelaySteps.RunKeeps | internal/relay/relay.go:84-297 | So does every run |
| RelayTheorems.NoOrphanConnection | internal/relay/relay.go:149-213 | In every interleaving every accepted connection is before registration, or the table entry under its own key hash, or closed |
| RelayTheorems.FinishedHandler | internal/relay/relay.go:149-161 | The connection of a handler that has ended is closed and not in the table, also if another goroutine ran its eviction |
| RelayTheorems.EntriesAreLive | internal/relay/relay.go:195-202 | Every entry is a peer with a live handler under the hash of the key it presented |
| RelayTheorems.OneEntryEach | internal/relay/relay.go:195-202 | A connection has at most one entry |
| RelayTheorems.EmptyWhenAllEnded | internal/relay/relay.go:149-161 | Once all handlers have ended the table is empty |
| RelayTheorems.EntryLeaves | internal/relay/relay.go:195-213 | Over any run, an entry that is gone or replaced left at a step that was its own eviction or the registration of a newer connection with the same key, and was closed by then; so evicting a superseded peer never removes its replacement |
| RelayTheorems.EvictedNeverReturns | internal/relay/relay.go:204-213 | A peer whose eviction has completed stays closed and never enters the table again |
| RelayProgress.LockProgress | internal/relay/relay.go:195-297 | Whenever a thread waits for the table lock or a peer's `once`, some thread can take a step that depends on nothing outside |
| RelayProgress.GetsThrough | internal/relay/relay.go:195-297 | From every reachable state, whatever the other threads hold or wait for, a finite run of such steps brings a thread that waits for the table lock or a peer's `once` through |
| RelayRelease.LockIsReleased | internal/relay/relay.go:195-297 | While a thread holds the table lock or waits for the readers inside, it and they can take only a bounded number of steps, at most (P + 2)R + P + 4 for P peers ever registered and R readers inside, whatever all others do in between, and one of them can always take its next step; so every schedule that lets them step releases the lock |
| RelayRelease.OnceIsLeft | internal/relay/relay.go:204-213 | While a thread runs the `once` of a peer it takes at most five steps, whatever happens in between, and waits for nothing but the table lock |
| RelayProgress.OnceOutsideLock | internal/relay/relay.go:204-213 | Nobody enters a `once`, or closes inside of it, while holding the table lock |
| RelayProgress.WriterExcludes | internal/relay/relay.go:54-56 | A thread inside a write-locked section is alone with the table |
| RelayRouting.OnlyAddressedPackets | internal/relay/relay.go:224-258 | Every packet written to a connection is the tail of a frame that the named sender sent with that peer's key hash in front |
| RelayRouting.DeliveredInOrder | internal/relay/relay.go:224-258 | Deliveries from one sender to one connection keep the order of sending |
| RelayRouting.DeliveredOnce | internal/relay/relay.go:224-258 | No frame is delivered twice, neither to one connection nor to two |
| RelayRouting.CompleteWhileRegistered | internal/relay/relay.go:239-258 | While the recipient stays registered and no write to it fails, its log gains exactly the packets addressed to it, all of them, in order, once each |
| RelayBuffers.BuffersAreBurnt | internal/relay/relay.go:215-259 | Pooled buffers and those at the head of a relay loop are all zeros on every path, and no buffer is shared or both held and pooled |
| RelaySweep.SweepExact | internal/relay/relay.go:277-291 | Under any concurrent registrations, heartbeats and evictions a sweep looks at every peer in its snapshot, evicts each one that it finds silent for more than 45 seconds, even if that peer speaks before the sweep is through, and leaves in the table only peers that it found fresh when it looked at them or that were not registered at the snapshot |
| RelaySweep.SweepEvictsMarked | internal/relay/relay.go:288-290 | The sweep starts the eviction of nobody whom it did not find stale |
| RelaySweep.StaleMeansSilent | internal/relay/relay.go:277-285 | A peer is marked stale only if nothing arrived from it within 45 seconds before the sweep, or a frame has arrived that is about to be noted |
| RelayHistory.MarkedWasSilent | internal/relay/relay.go:277-285 | Over every run: each frame of a peer that the sweep marks was read more than 45 seconds ago, unless one has arrived that is about to be noted |
| RelaySilence.SilenceDecides | internal/relay/relay.go:164-291 | For every number of seconds there is a run in which a client registers and is silent that long: after the next sweep it is still registered if these are at most 45, and otherwise closed and gone |
| RelayHistory.KeysWerePresented | internal/relay/relay.go:164-193 | Over every run, each key that the relay has for a connection was presented by it in a handshake of at least 65 bytes whose first byte is 1 |
| RelayHistory.EntriesPresented | internal/relay/relay.go:164-202 | So every entry of the table stands under the digest of bytes 1 to 32 of such a handshake of its connection |
| RelayHistory.ClosedIsDead | internal/relay/relay.go:204-258 | Over every run, nothing is written to a closed connection and no frame is read from it |
| RelayHistory.ReadFailsForGood | internal/relay/relay.go:229-231 | After a read has failed the handler reads and routes no frame any more and is on its way to its own eviction |
| RelayHistory.NoBufferLost | internal/relay/relay.go:216-222 | Over every run, each buffer ever made is in the pool, held by a handler, or was dropped from the pool by the collector |
| RelayStop.StopInProgress | internal/relay/relay.go:138-142 | While `Stop` goes through the table, every entry that it has not still to close is closed |
| RelayStop.StopCloses | internal/relay/relay.go:126-146 | On every run on which `Stop` has gone through the table there is a step at which it released the lock, and every connection registered at that moment is closed, then and ever after |
| RelayStop.StoppedListening | internal/relay/relay.go:129-138 | From the moment at which `Stop` asks for the lock, `done` and the listener are closed |
| RelayStop.NoMoreConnections | internal/relay/relay.go:105-114 | Once the listener is closed no connection is accepted on any run |
| RelayStop.OnlyStopEnds | internal/relay/relay.go:105-114 | Neither the accept loop nor the sweep loop ends before `Stop` is called |
| RelayCapacity.CapacityBound | internal/relay/relay.go:105-123 | If at most K connections are past `isFull` and not yet registered or failed, registered peers and those never exceed maxPeers - 1 + K |
| RelayWitness.CapacityReached | internal/relay/relay.go:105-123 | For every K some run reaches that bound, so maxPeers itself is not one |
| RelayTurn.FrameGetsThrough | internal/relay/relay.go:223-258 | The loop body as eight steps that spare the table: a frame for a registered, open recipient is delivered and the handler is back with a burnt buffer, the table and the lock as before |
| RelayAtomic.EvictionRuns | internal/relay/relay.go:204-213 | Uninterrupted, an eviction is a run that closes the peer, removes its own entry and completes its `once`, or changes nothing if that was done before |
| RelayAtomic.TurnRuns | internal/relay/relay.go:223-258 | Uninterrupted, a turn of the relay loop is a run with the fate that table, deadline and write decide, and after a failed write with the eviction of the recipient and of nobody else |
| RelayDelivery.PacketsGetThrough | internal/relay/relay.go:105-258 | For any digest, any two keys that differ under it and any packets, a run from the start accepts and registers both clients and writes to the first exactly the packets that the second addresses to it, while it stays registered |
| RelayServer.Server.Register | internal/relay/relay.go:195-202 | The peer is entered under its key hash, and exactly the connection it supersedes is closed |
| RelayServer.Server.Evict | internal/relay/relay.go:204-213 | Once only, the peer is closed and its own entry goes, never that of a replacement |
| RelayServer.Server.SweepStale | internal/relay/relay.go:277-291 | Exactly the entries that were silent for more than 45 seconds are closed and gone; all other connections stay as they are, and no heartbeat or packet of anybody changes |
| RelayServer.Server.GetBuffer | internal/relay/relay.go:216-217 | A buffer from the pool or a new one is all zeros and belongs to nobody else |
| RelayServer.Server.RelayTurn | internal/relay/relay.go:233-257 | The frame in the buffer is routed as specified, nobody but the recipient is written to or evicted, nobody's heartbeat but the sender's is noted, and the buffer is all zeros afterwards on every path |
| RelayServer.Server.RelayLoop | internal/relay/relay.go:215-260 | Over any segmentation of the stream the frames are routed one after the other, until for the first time a read fails or the peer's own connection has been closed, and the pool only gets zeroed buffers |
| RelayServer.Server.DoHandshake | internal/relay/relay.go:164-193 | A peer results if and only if the deadline can be set, 65 bytes come and the first of them is 1; its key hash is the digest of bytes 1 to 32 |
| RelayServer.Server.HandleConn | internal/relay/relay.go:149-161 | A connection is served if and only if it sends 65 bytes in time and the first is 1, under the digest of bytes 1 to 32; any other is closed and the table and all peers are left alone; a served one is registered, which closes the one it supersedes, every peer is written exactly the packets routed to it, and in the end the connection is closed and no longer in the table |
| RelayServer.RouteDelivers | internal/relay/relay.go:233-258 | If no write fails, a registered peer gets all packets addressed to its key hash, in order, and only those, and the table stays |
| RelayServer.RouteIsSafe | internal/relay/relay.go:233-258 | In any case the table only loses entries, and nothing is written that was not addressed to its receiver |
| RelayRefinement.RegisterRefines | internal/relay/relay.go:195-202 | Handshake and registration of a peer object have the effect of a run of machine steps: same table, same connections closed, same heartbeats, same packets written |
| RelayRefinement.EvictRefines | internal/relay/relay.go:204-213 | So has the eviction of a peer object by any thread, the first time and every other time |
| RelayRefinement.TurnRefines | internal/relay/relay.go:223-258 | So has a turn of the relay loop over the buffer, whatever becomes of the frame |
| EndToEnd.SentFileIsCarried | internal/client/client.go:548-578 | The frames a session writes for a file are addressed to its peer, have 4128 bytes, and their packets have 4096 bytes and open to that transfer |
| EndToEnd.SendOne | internal/client/client.go:344-446 | If the success message appears for a non-empty file, and whenever the session is up and each packet can be sent, the connection was given the frames of all packets of that transfer |
| EndToEnd.ForeignPackets | internal/client/client.go:279-283 | Packets of other senders among those of the session change nothing |
| EndToEnd.RelayedInOrder | internal/relay/relay.go:215-258 | What the receiver gets from the sender is the list of packets the sender addressed to it |
| EndToEnd.FilesArrive | internal/client/client.go:248-541 | Any number of files that a session sealed, framed and sent interleaved, relayed among other clients and read back in any segmentation, arrive each as its own packets determine; under each FileID exactly the files whose packets have all come and were served are added to the saved ones, with the bytes sent |
| EndToEnd.ReceiveFiles | internal/client/client.go:248-293 | The receiving session, reading what the relay wrote in any segmentation and then ending in any way, has added exactly the complete files to what it had saved |
| EndToEnd.CanBeRelayed | internal/relay/relay.go:105-258 | The hypotheses about the relay can be met for all packets of the right size, by a run from its start |
| EndToEnd.FilesGetThrough | internal/client/client.go:248-578 | Disk to disk with nothing assumed in between: a session that is up sends any files with distinct FileIDs, interleaved in any way, some run of the relay from its start carries the packets, and a fresh session with the same key has then saved exactly the files whose packets were all sent and that its disk served, each of them once, under its name and with exactly its bytes |
| EndToEnd.OneFileArrives | internal/client/client.go:248-578 | The same for one file sent by the loops of `SendFile`: a healthy disk has it once, under its name and with exactly its bytes |

## Left out

- Argon2id, X25519, HKDF, SHA-256 and the inside of ChaCha20-Poly1305: library code; the key hash is an arbitrary
  function and the AEAD a hypothesis.
- Key files, the keychain, JSON, permissions and save paths: file-system plumbing. Opening an output file
  either succeeds or fails, and different transfers write to different files.
- The terminal interface, progress texts, percentages and the history window: messages appear only as the list of
  completed transfers.
- Secrecy, the quality of random numbers and traffic analysis: not functional correctness. Nonces and padding
  are arbitrary.
- Whether `Stop` returns: it closes only the connections that are registered at that moment, so a handler whose
  connection is still at its handshake may go on.
- Whether `conn` and `cipherSess` stay nil after a teardown: `connect` stores both without looking at `done` again.
- What follows a partly written packet: writes are atomic here, and the delivery theorems require that no write
  to the recipient fails.
- `PeerCount` and `Snapshot` of the relay: read-only views of the table under its read lock.
- `connect`, `sendLoop` and `pingLoop` of the session: their packets appear as inert traffic in any interleaving.
- Client.Session.SendFile: a file that changes between `Stat` and the reads is not modelled, and the FileID is
  given, not drawn.
- Client.Session.RecvLoop: a teardown by another goroutine between reading a packet and opening it, where the
  program calls the cipher that the teardown has dropped and panics, and one in the middle of a handler, are not
  modelled.
- Client.Session.SendPacket: a teardown by another goroutine between its checks and the sealing is not modelled; the
  program then calls the dropped cipher and panics. One that comes later shows as a write that fails.
- RelayServer.Server.RelayLoop: an eviction that the program starts with `go` runs at once here, which is one of its
  interleavings in the machine (`RelayRefinement.TurnRefines`); the others are the subject of the machine.
- RelayServer.Server.SweepStale: nothing else runs during this sweep; `RelaySweep.SweepExact` is the statement
  about concurrent ones.
- RelayProgress.GetsThrough: some run brings a waiting thread through, and whoever is in its way leaves after a
  bounded number of steps (`RelayRelease`); which of several waiting writers comes first depends on the scheduler,
  so that a given one comes in the end is not claimed.
- RelayDelivery.PacketsGetThrough: the runs built here have two clients; the theorems about routing hold for any
  number of them.
