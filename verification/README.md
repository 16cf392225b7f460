# Verified model of the 5G user plane function

A Dafny model of the hard parts of the OpenNetVM-based 5G UPF and of the AES code shipped
with its examples, with proofs over all inputs, all runs and all interleavings. `dafny verify
dfyconfig.toml` checks everything. The modules follow the program:

- **Downlink shaper** (`5gc/upf_u/upf_u.c`, `5gc/upf_u/upf_u_trtcm.c`). `TokenBucket` has the
  integer arithmetic of a bucket and the bound it really gives. `Sched` has the per-flow queues
  and the active lists of one UE, `Rates` the buckets of a UE and the trace from which rates are
  read off, `History` the laws of that trace, `Shaper` admission, drains and flushes. On these:
  `Filling` (what a bucket gives, the counterpart of the bound), `Admission` (what is decided about
  a packet), `Gains` (what each operation adds to the history), `Settings` (what a configuration
  restarts), `Billing` (whose bytes a bucket is charged for), `Priority` (guaranteed traffic first,
  the rest in turn), `Buffers` (references to packet buffers), `Turns` (one turn of a drain), `Dropping` (when an
  admitted packet can still be dropped), `Settling` (repeated refills at one instant), `Stopping`
  and `Starving` (when a drain stops, and the exact condition for work conservation), and
  `FailingRuns` (runs from start-up that end where it fails).
- **The shaper in place.** `Links` has the pointers: doubly linked lists of flows and chains of
  entries. `FlowState` is a UE's flow table made of them, `BucketState` its row of buckets, and
  `ShaperState` the shaper that works on both; each method is proved equal to the function that
  the theorems are about.
- **All UEs** (same files). `UeIndex` is the hash over the UE table, `RoundRobin` the bitmap
  scan, `Ownership` says whose packets wait in a slot and which pool entries they hold, and
  `System` puts slots, index, bitmap, cursor and entry pool together. `SystemState` has the
  globals: the table object, 256 shaper objects over its rows and their flow tables, the scanner
  and the pool; the packet path, the drain loop and session removal call their methods.
  `Scans` says what one call of the drain does to all UEs, `PacketPath` what one packet does, both
  without bitmaps, hash and pool. `Promises` carries what holds of one slot over to all slots.
- **Classifier snapshots** (`5gc/upf_c/n4_onvm_pfcp_handler.c`, `5gc/upf_u/upf_u.c`).
  `Snapshot` is a state machine whose steps are UPF-C's seqlock stores, sends, frees and
  message handling, interleaved with every worker's seqlock reads and flips; messages in
  flight are delivered late, repeatedly and in any order. `SnapshotRuns` proves what holds
  in every run, and `Ledger` where every PDR and every snapshot is. `Reclaimer` has UPF-C's side of it as objects: the retire queue, the ACK
  tracker, publication and the ACK handler.
- **Classifier rules** (`5gc/classifiers`): `Classifier`. **ARP neighbours**
  (`5gc/upf_u/upf_u_arp.c`): `Arp`. **AES** (`examples/aes_encrypt/aes.c`; the copy under
  `examples/aes_decrypt` is the same code): `AesTables`, `Aes`, `AesInPlace`, `AesModes`,
  `AesBuffers`; `AesStandard` has the cipher by the indices of FIPS 197, `AesKeys` its key
  expansion, and `CcmStandard` CCM as NIST SP 800-38C defines it. `Common` and `Arith`
  are shared.

Time is an arbitrary monotone sequence of clock readings; the flow hash is an arbitrary
function of the key; whether a send, an allocation or a rebuild succeeds is a parameter.

## Where the code falls short of the simple law

Each of these has its failing input and its exact condition.

- "At most depth + rate * time" is false of a bucket, because the cycles charged for tokens
  are rounded down: an eager poller gains. It holds for every polling run exactly when one
  of byte rate and clock rate divides the other (`TokenBucket.TextbookBoundIff`). What always
  holds has one cycle of slack per crediting refill (`Shaper.RatesHold`).
- A drain may stop although the head of a queue could be paid for, because a second refill
  at the same instant can find another token (`Settling.SomeBucketsDoNotSettle`; a third never
  does, `Settling.RefilledSettles`). The code gets there: `FailingRuns.OverlookedIsReached`. For
  every known UE, with or without GBR QERs, a drain at a standing clock is work-conserving, for
  all budgets and all queues of packets that fit the widest bucket of their policy, exactly when
  one refill settles the Session-AMBR bucket and, for each QER, one refill settles the MFBR
  bucket or what a second refill would find there fits the GFBR bucket
  (`Starving.WorkConservingIff`; GFBR buckets need not settle).
- A drain that drops a packet may stop although the packet behind it can be paid for, even from
  settled buckets (`Starving.DropEndsDrain`). The code gets there when a rate is lowered while
  packets wait: `FailingRuns.DropIsReached`. A drain drops nothing, and so stops only as it
  should, when every waiting packet fits the widest bucket its policy allows
  (`Dropping.DrainDropsNothing`, `Stopping.DrainIsWorkConserving`); a single turn drops its
  packet exactly when it does not (`Turns.TryDropsIff`).
- If the send of a flip request fails for a worker that an earlier request had reached, some
  run frees the snapshot which that worker is using. Reclamation is safe in every run exactly
  when requests, once they reach a worker, keep reaching it
  (`SnapshotRuns.SafeIffRequestsKeepArriving`).
- A retired snapshot leaks exactly when another one is retired before all workers that were told
  have answered: the one slot for it is overwritten. A removed PDR is lost exactly when the retire
  queue is full and cannot grow. Nothing else ever gets out of sight
  (`Ledger.GoneOnlyWhen`, `Ledger.PdrsConserved`, `Ledger.SnapsConserved`).
- Adding a UE with address zero puts an entry into the hash whose row still reads as free.
  Hash and table stay in agreement exactly for nonzero addresses, or when the table is full
  (`UeIndex.AddAgreesIff`).
- A PDR with a precedence of 2^31 or more never matches, because its inverted priority is
  negative (`Classifier.LowestPrecedenceWins`).
- CCM refuses to decrypt what it made of an empty payload (`AesModes.CcmUndone`).
- CCM's formatted data fit the buffer that the encryption allocates exactly unless the associated
  data fill their last block and the payload ends one byte into a block
  (`AesModes.FormattedFitsIff`; 14 bytes of associated data and one of payload make 64 bytes in a
  buffer of 63, `AesModes.FormattedOverruns`). The buffer of the decryption always suffices.
- CCM's formatted data are those of NIST SP 800-38C exactly when there are associated data,
  their length plus two is no multiple of 16, and the payload is shorter than 2^16
  (`CcmStandard.FormatAgreesIff`).
- CCM encrypts the payload from counter block 1, as the standard says, exactly for MACs of at most
  14 octets. For 16 octets, and only then, it starts from the block that encrypts the MAC
  (`CcmStandard.PayloadCounterIff`), so that payload and MAC meet the same key stream
  (`CcmStandard.KeyStreamReused`).

## Model

| member | source | states |
|---|---|---|
| `TokenBucket.CreditTracksFluid` | 5gc/upf_u/upf_u_trtcm.c:303-326 | an uncapped refill moves last_cycle forward but never past now, raises tokens*hz + (now-last)*byteRate by less than one cycle's worth, never lowers it when byteRate <= hz, and never raises it when one rate divides the other |
| `TokenBucket.RefillTracksFluid` | 5gc/upf_u/upf_u_trtcm.c:284-326 | an upper bound only: any refill keeps tokens within the depth and last within now, never takes tokens away, and raises the fluid level at most in its crediting branch; the exact tokens are in `Filling.RefillValue` |
| `TokenBucket.MeteredBound` | 5gc/upf_u/upf_u_trtcm.c:284-340 | bytes*hz <= depth*hz + byteRate*(elapsed + crediting refills), from the bucket's account since its initialisation |
| `TokenBucket.TextbookBoundIff` | 5gc/upf_u/upf_u_trtcm.c:321-325 | the bound without slack holds for every polling run iff byte rate divides clock rate or the reverse |
| `TokenBucket.NoOverflow` | 5gc/upf_u/upf_u_trtcm.c:258-326 | the 128-bit products do not overflow for rates below 2^40 and 64-bit cycle counts |
| `Filling.DepthMeans` | 5gc/upf_u/upf_u_trtcm.c:258-269 | kbit/s become bytes per second exactly; the depth is 100 ms of the rate rounded up, at least 2048 and at most 64 bits, and zero iff the rate is |
| `Filling.RefillValue` | 5gc/upf_u/upf_u_trtcm.c:284-326 | after a refill the bucket holds min(depth, tokens + whole bytes earned since the last one), rate and depth as before |
| `Filling.RefillClock` | 5gc/upf_u/upf_u_trtcm.c:303-326 | the clock of a refilled bucket stands at now when it is full, and is otherwise behind by less than a byte and a cycle are worth; at most a cycle of earnings is lost |
| `Filling.IdleFills` | 5gc/upf_u/upf_u_trtcm.c:314-318 | a bucket left alone for more than depth * hz / byteRate cycles is full |
| `Filling.TakeValue` | 5gc/upf_u/upf_u_trtcm.c:755-778 | a poll is served iff its length is there, counting what was earned up to the depth |
| `Filling.RunTracks` | 5gc/upf_u/upf_u_trtcm.c:284-340 | over any polling run, served plus left equals found plus earned up to one cycle per poll: from above always, from below while nothing runs over |
| `Filling.WindowBound` | 5gc/upf_u/upf_u_trtcm.c:284-340 | in any window that begins with a refill, whatever came before, at most depth, rate over the window and a cycle per poll leave |
| `Filling.ServedAtLeast` | 5gc/upf_u/upf_u_trtcm.c:284-340 | a poller that is refused at the end of a run in which nothing ran over was served all that was there and earned, but for its length, a byte, and a cycle per poll |
| `BucketState.UeRow.Restart` | 5gc/upf_u/upf_u_trtcm.c:333-340 | a restarted bucket of the row is full, at the depth of its rate; no other bucket changes |
| `BucketState.UeRow.Update` | 5gc/upf_u/upf_u_trtcm.c:284-326 | the in-place refill of one bucket computes the refill function, all branches; `Filling.RefillValue` says what that is |
| `BucketState.UeRow.PayOne` | 5gc/upf_u/upf_u_trtcm.c:755-778 | pays iff the refilled bucket holds the length, and takes exactly that |
| `BucketState.UeRow.PayBoth` | 5gc/upf_u/upf_u_trtcm.c:780-810 | guaranteed service pays from both buckets or from neither, after refilling both |
| `BucketState.UeRow.Pay` | 5gc/upf_u/upf_u_trtcm.c:755-837 | the three consume calls on a row equal the consume function, unknown UE and unknown QER included |
| `BucketState.UeRow.SetAmbr` | 5gc/upf_u/upf_u_trtcm.c:482-518 | a refreshed Session-AMBR in place equals the function that `Settings.RefreshAmbrMeans` describes |
| `BucketState.UeRow.FindOrFree` | 5gc/upf_u/upf_u_trtcm.c:538-549 | one loop finds the slot of a QER, or else the first free one |
| `BucketState.UeRow.SetQer` | 5gc/upf_u/upf_u_trtcm.c:520-609 | a refreshed GBR QER in place equals the function that `Settings.RefreshQerMeans` describes |
| `Sched.PolicyOk` | 5gc/upf_u/upf_u.c:497-512 | a policy change moves a waiting flow to the list its new policy dictates and keeps the whole structural invariant |
| `Sched.PushOk` | 5gc/upf_u/upf_u.c:659-678 | queueing behind waiting packets keeps the invariant and adds one packet at the tail |
| `Sched.OpenOk` | 5gc/upf_u/upf_u.c:441-457 | the first packet of a flow claims a free slot, enters one list, and keeps the invariant |
| `Sched.ServeOk` | 5gc/upf_u/upf_u.c:743-761 | serving takes exactly the head entry of the first flow of a list and requeues or zeroes the flow |
| `Sched.RotateOk` | 5gc/upf_u/upf_u.c:737-741 | a flow that cannot be paid goes to the tail of its list and nothing else changes |
| `Sched.ReleaseClaimed` | 5gc/upf_u/upf_u.c:514-518 | claiming a slot and giving it back after a drop changes nothing |
| `Sched.LookupFinds` | 5gc/upf_u/upf_u.c:430-458 | probing finds a key exactly in the slot that holds it, whatever the hash |
| `Sched.FreeSlotFinds` | 5gc/upf_u/upf_u.c:430-458 | a free slot is found whenever there is one |
| `Rates.ConsumeMeter` | 5gc/upf_u/upf_u_trtcm.c:755-837 | every consume call keeps the account of every bucket, refills included |
| `Rates.RefreshAmbrMeter` | 5gc/upf_u/upf_u_trtcm.c:482-518 | a refreshed Session-AMBR keeps the account of every bucket in step with its tokens |
| `Rates.RefreshQerMeter` | 5gc/upf_u/upf_u_trtcm.c:520-609 | a refreshed GBR QER keeps the account of every bucket in step with its tokens; which buckets restart is in `Settings.RefreshQerMeans` |
| `Rates.RateBound` | 5gc/upf_u/upf_u_trtcm.c:690-837 | the rate bound for every bucket of a UE from its account |
| `Shaper.TryGood` | 5gc/upf_u/upf_u.c:687-768 | each turn of the drain, whichever branch, keeps queues, rates, order and conservation |
| `Shaper.DrainUe` | 5gc/upf_u/upf_u.c:870-939 | a drain keeps all invariants, sends n <= min(budget, 128) packets, which are exactly the Sent events it adds, and leaves the configured rates alone; which packets those are is in `Priority` |
| `Shaper.ArriveGood` | 5gc/upf_u/upf_u.c:580-685 | admission keeps all invariants, whatever it decides |
| `Shaper.FlushGood` | 5gc/upf_u/upf_u.c:968-1001 | a flush keeps all invariants and accounts for every waiting packet |
| `Shaper.RunGood` | 5gc/upf_u/upf_u.c:430-1001 | all invariants hold over every run of arrivals, drains, removals and reconfigurations |
| `Shaper.FlowsLeaveInOrder` | 5gc/upf_u/upf_u.c:608-768 | per flow key, over every run, departures are a subsequence of arrivals: the fast path never overtakes a queued packet |
| `Shaper.RatesHold` | 5gc/upf_u/upf_u.c:546-578 | over every run, bytes paid from AMBR, GFBR and MFBR buckets obey the bound with its slack |
| `Shaper.PacketsConserved` | 5gc/upf_u/upf_u.c:649-761 | every queued packet was sent, discarded or flushed exactly once, or waits exactly once |
| `Buffers.BuffersAccountedFor` | 5gc/upf_u/upf_u.c:659-761 | in every interleaving of shaper, framework (which carries out verdicts late) and transmit thread, a buffer has one reference per time its packet waits, per verdict outstanding and per time it is on its way out; none is freed twice, used after free or leaked |
| `Billing.ChargedAsLimited` | 5gc/upf_u/upf_u.c:546-578 | over every run, a bucket was charged since its start for exactly the packets it limits: all of flows without GBR for AMBR, all of its QER's flows for MFBR, those served as guaranteed for GFBR |
| `Billing.TrafficWithinRates` | 5gc/upf_u/upf_u.c:546-578 | so all bytes of a QER obey its configured MFBR (also when GFBR > MFBR), its guaranteed bytes the GFBR, all bytes of other flows the Session-AMBR |
| `Shaper.StructureHolds` | 5gc/upf_u/upf_u.c:460-518 | over every run: 64 slots, a flow is in use iff packets wait in it, at most 512 of it and 2048 in all; GBR flows are on the first list, other QoS flows on the second, the rest on the third, and on no other; counts equal sums and keys are unique |
| `Admission.ArriveDecides` | 5gc/upf_u/upf_u.c:580-685 | a packet passes iff none of its flow waits and tokens pay for it, is dropped iff it can never fit or a limit stops it, and else is queued exactly behind the packets of its flow, with no other flow's queue changed |
| `Admission.ArrivePolicy` | 5gc/upf_u/upf_u.c:608-657 | a packet that some bucket could carry sets the policy of its flow, for those that wait already too and even if it is dropped for a limit; no other flow changes |
| `Admission.PassedAs` | 5gc/upf_u/upf_u.c:565-578 | a packet that passes at once is charged to the Session-AMBR without a guaranteed bit rate, else to GFBR and MFBR iff both can pay, else to the MFBR alone |
| `Gains.ArriveRecords` | 5gc/upf_u/upf_u.c:580-685 | every arrival leaves exactly one record with what is stored of it (buffer, destination, colour, the length its policy meters or else that of the buffer), and the record says what was decided |
| `Gains.DoAdds` | 5gc/upf_u/upf_u.c:430-1001 | arrivals only let packets in or through, drains only let them out, only configurations restart buckets; at most one uncapped refill of a bucket per reading of the clock |
| `Admission.RefreshQerSets` | 5gc/upf_u/upf_u_trtcm.c:520-609 | configuring a QER fails iff an id or rate is zero, the UE is unknown, or it is new and all slots are taken; else it is found under its id with exactly these rates, in buckets that run at them |
| `Settings.RefreshAmbrMeans` | 5gc/upf_u/upf_u_trtcm.c:482-518 | fails iff the UE is unknown and then changes nothing; otherwise stores the rate, restarts the bucket, full, iff the rate changed, leaves its tokens and clock alone otherwise, and touches no QER |
| `Settings.RefreshQerMeans` | 5gc/upf_u/upf_u_trtcm.c:520-609 | the two buckets of a QER restart, full, at the new rates, iff the QER is new or one of its rates changed; with unchanged rates no bucket changes and no event is added; every other slot and the Session-AMBR stay |
| `Settings.RefreshTwice` | 5gc/upf_u/upf_u_trtcm.c:577-609 | configuring the same QER again, at any later time, changes nothing |
| `Settings.NewUeMeans` | 5gc/upf_u/upf_u_trtcm.c:630-651 | a new UE has its Session-AMBR, a full bucket for it, and no QER |
| `Settings.TrafficSinceChange` | 5gc/upf_u/upf_u.c:1319-1333 | over every run, all traffic a bucket limits since its configured rate last changed, however often it was configured again, keeps to depth, rate over that time and one cycle per reading of the clock |
| `Admission.RunsAtConfiguredRates` | 5gc/upf_u/upf_u_trtcm.c:482-609 | over every run each bucket runs at the configured Session-AMBR, GFBR or MFBR, and QER ids are unique |
| `Turns.TryDropsIff` | 5gc/upf_u/upf_u.c:713-735 | a turn drops a packet iff it no longer fits the widest bucket its flow's policy allows |
| `Turns.FailedPassKeepsOrder` | 5gc/upf_u/upf_u.c:770-793 | in every state, after a pass that sends nothing, what remains of the list is in the old order and the other lists are unchanged |
| `Priority.GuaranteedFirst` | 5gc/upf_u/upf_u.c:770-802 | a guaranteed pass sends as many packets as it may, or ends with every GBR flow that still waits tried in vain since the last packet left |
| `Priority.DrainRounds` | 5gc/upf_u/upf_u.c:870-939 | a drain is a sequence of rounds: guaranteed packets, min(budget, 16, room in the buffer of 128) of them unless guaranteed service gives way, then others up to the same limit unless there is nothing left to send |
| `Priority.OthersWait` | 5gc/upf_u/upf_u.c:893-918 | when a packet leaves by excess or Session-AMBR service, then in its round just before either as many guaranteed packets had left in a row as budget, burst and buffer allow, or every GBR flow that still waits had been tried in vain |
| `Priority.ExcessTakesTurns` | 5gc/upf_u/upf_u.c:829-868 | excess service asks the three lists in turn and sends the head of a flow of the first that has something to send, by its service; the next round begins after that list |
| `Dropping.DrainKeepsFit` | 5gc/upf_u/upf_u.c:713-735 | while the packets of a flow fit, a drain drops none of them, whatever else it drops |
| `Dropping.DrainDropsNothing` | 5gc/upf_u/upf_u.c:713-735 | while every waiting packet fits the widest bucket of its policy, a drain drops nothing, and they keep fitting |
| `Dropping.NeverDropped` | 5gc/upf_u/upf_u.c:530-606 | per flow, over every run in which no arrival changes its policy and no configuration lowers the depth of the bucket that policy uses while it waits, no packet of it is dropped after admission, whatever happens to other flows and buckets |
| `Dropping.NewQerIsKind` | 5gc/upf_u/upf_u.c:1319-1333 | configuring a QER under another id takes no room from a waiting flow |
| `Dropping.AmbrIsKind` | 5gc/upf_u/upf_u_trtcm.c:482-518 | a changed Session-AMBR takes no room from a waiting GBR flow |
| `Settling.RefilledSettles` | 5gc/upf_u/upf_u_trtcm.c:303-326 | after any refill, whatever is then spent, one more refill at the same instant settles the bucket |
| `Settling.CeilingStays` | 5gc/upf_u/upf_u_trtcm.c:303-326 | what two refills at one instant find is what further ones find, at most the depth |
| `Settling.ConsumeGet` | 5gc/upf_u/upf_u_trtcm.c:755-837 | a consume call refills the buckets that would pay, takes the length from all or none of them, and leaves every other bucket alone |
| `Settling.ConsumePaysIff` | 5gc/upf_u/upf_u_trtcm.c:755-837 | a consume call pays iff UE and QER are known and every bucket that has to pay holds the length after its refill |
| `Settling.SomeBucketsDoNotSettle` | 5gc/upf_u/upf_u_trtcm.c:303-326 | a bucket that gains a token at each of two refills at the same instant |
| `Stopping.DrainStopsOrDrops` | 5gc/upf_u/upf_u.c:870-939 | at a standing clock, when one refill settles AMBR and the MFBR buckets (or a second finds only what fits GFBR), a drain of whatever waits stops only when budget or buffer is used up, nothing waits, no head can be paid by any eligible bucket, or it dropped a packet |
| `Stopping.DrainIsWorkConserving` | 5gc/upf_u/upf_u.c:870-939 | the same without exception, when every waiting packet fits the widest bucket of its policy |
| `Starving.WorkConservingIff` | 5gc/upf_u/upf_u.c:829-939 | for every known UE, all queues of fitting packets and all budgets are served so iff that condition on the buckets holds; iff it holds, all queues whatsoever are, unless the drain drops |
| `Starving.DropEndsDrain` | 5gc/upf_u/upf_u.c:713-735 | a queue of a packet beyond the depth and a payable one: the drain drops the first and stops with its budget unspent |
| `FailingRuns.OverlookedIsReached` | 5gc/upf_u/upf_u.c:829-868 | a run from start-up (UE added at 3 kbit/s, full-depth packet passed, two bytes queued) after which a drain sends nothing although the head can be paid and everything fits |
| `FailingRuns.DropIsReached` | 5gc/upf_u/upf_u.c:713-735 | a run from start-up (packets queued, then Session-AMBR lowered) after which a drain drops the head and stops although the next packet can be paid, from buckets at rest |
| `Links.InsertThreads` | 5gc/upf_u/upf_u.c:471-486 | TAILQ_INSERT_TAIL on the pointers appends the flow to its list, forwards and backwards |
| `Links.RemoveThreads` | 5gc/upf_u/upf_u.c:488-495 | TAILQ_REMOVE of a flow anywhere in its list closes the gap in both directions and moves the ends |
| `Links.RemoveAll` | 5gc/upf_u/upf_u.c:488-495 | unlinking from one list leaves the three others threaded as they were |
| `Links.AppendChain` | 5gc/upf_u/upf_u.c:666-673 | linking an entry behind the tail appends it to the flow's chain |
| `Links.PopChain` | 5gc/upf_u/upf_u.c:743-748 | unlinking and freeing the head leaves the chain of the rest, and head and tail are null together |
| `FlowState.AppendStored` | 5gc/upf_u/upf_u.c:659-678 | a new entry joins one chain and no other, and no entry is lost |
| `FlowState.PopStored` | 5gc/upf_u/upf_u.c:743-761 | a freed entry leaves one chain and no other, and no entry is lost |
| `FlowState.FlowTable.Activate` | 5gc/upf_u/upf_u.c:471-486 | on the pointers, the flow joins the tail of the list its head belongs to |
| `FlowState.FlowTable.Deactivate` | 5gc/upf_u/upf_u.c:488-495 | on the pointers, the flow leaves its list |
| `FlowState.FlowTable.UpdatePolicy` | 5gc/upf_u/upf_u.c:497-512 | in-place policy change equals the function |
| `FlowState.FlowTable.FindFlow` | 5gc/upf_u/upf_u.c:430-458 | the probe loop returns the first slot in probe order with the key, or -1 iff no slot in use has it |
| `FlowState.FlowTable.PushTail` | 5gc/upf_u/upf_u.c:659-678 | a packet is linked behind the tail, counted, and makes an idle flow active, as the function does to sequences |
| `FlowState.FlowTable.PopHead` | 5gc/upf_u/upf_u.c:743-761 | the head entry is unlinked and freed, and the flow requeued or zeroed, as the function does to sequences |
| `FlowState.FlowTable.Flush` | 5gc/upf_u/upf_u.c:968-1001 | walking all chains frees every entry, none is left in memory, and all slots and lists are reset |
| `ShaperState.UeShaper.Pay` | 5gc/upf_u/upf_u.c:546-563 | one consume call on the UE's row, at the next reading of the clock, equals the function |
| `ShaperState.UeShaper.DrainOneFrom` | 5gc/upf_u/upf_u.c:687-768 | the attempt loop equals the recursive drain of one packet and hands exactly that packet on |
| `ShaperState.UeShaper.DrainExcessFrom` | 5gc/upf_u/upf_u.c:829-868 | the round-robin over three lists equals the function |
| `ShaperState.UeShaper.Drain` | 5gc/upf_u/upf_u.c:870-939 | the drain loop equals the function that `Priority.DrainRounds` describes; sent == nb_tx <= min(budget, 128); the transmit buffer holds exactly the packets sent, in order; the active bit is set iff packets remain |
| `ShaperState.UeShaper.Shape` | 5gc/upf_u/upf_u.c:580-685 | admission in place equals the function and its decision |
| `ShaperState.UeShaper.FlushAll` | 5gc/upf_u/upf_u.c:968-1001 | the flush empties every queue, returns the number of packets that waited, and resets the lists |
| `ShaperState.UeShaper.RefreshGbr` | 5gc/upf_u/upf_u_trtcm.c:520-609 | a refreshed QER of the UE keeps all invariants and equals the function |
| `Ownership.DrainOwns` | 5gc/upf_u/upf_u.c:721-761 | a drain returns one pool entry per packet that leaves, and all flows keep the slot's UE address |
| `Ownership.ArriveOwns` | 5gc/upf_u/upf_u.c:649-685 | an arrival takes one pool entry iff it is queued |
| `Ownership.FlushHeld` | 5gc/upf_u/upf_u.c:978-990 | a flush returns exactly one pool entry per waiting packet |
| `Ownership.RemoveOwns` | 5gc/upf_u/upf_u.c:1893-1903 | after a removal nothing waits, no entry is held, and the row is zero |
| `UeIndex.SearchIff` | 5gc/upf_u/upf_u_trtcm.c:446-457 | a nonzero address is found at row i iff row i holds it |
| `UeIndex.VacantExists` | 5gc/upf_u/upf_u_trtcm.c:459-474 | while a row is free, probing meets a vacant slot (pigeonhole) |
| `UeIndex.InsertAgrees` | 5gc/upf_u/upf_u_trtcm.c:459-474 | insertion succeeds while a row is free and keeps hash and table in agreement |
| `UeIndex.RebuiltAgrees` | 5gc/upf_u/upf_u_trtcm.c:674-684 | rebuilding indexes every row, whatever the hash held before |
| `UeIndex.RebuildNeverFails` | 5gc/upf_u/upf_u_trtcm.c:676-684 | every insertion of a rebuild succeeds |
| `UeIndex.AddAgreesIff` | 5gc/upf_u/upf_u_trtcm.c:611-656 | adding keeps the agreement iff the address is nonzero or the table is full |
| `UeIndex.AddSpec` | 5gc/upf_u/upf_u_trtcm.c:611-656 | adding a nonzero address returns its row, opens one if it had none, fails iff the table is full without it, and touches no other row |
| `UeIndex.RemoveSpec` | 5gc/upf_u/upf_u_trtcm.c:658-688 | removal succeeds iff the address is present, zeroes its row and no other |
| `UeIndex.SearchIsExact` | 5gc/upf_u/upf_u_trtcm.c:446-688 | after any additions and removals of nonzero addresses, search returns i iff row i holds the address, and -1 iff none does |
| `UeIndex.UeTable.Find` | 5gc/upf_u/upf_u_trtcm.c:446-457 | the probe loop equals the search |
| `UeIndex.UeTable.FindFreeRow` | 5gc/upf_u/upf_u_trtcm.c:627-629 | the row scan returns the first free row |
| `UeIndex.UeTable.OpenRow` | 5gc/upf_u/upf_u_trtcm.c:630-651 | a row is written and indexed, or cleared again if the hash refuses it |
| `UeIndex.UeTable.AddUe` | 5gc/upf_u/upf_u_trtcm.c:611-656 | adding in place equals the function, error branch included |
| `UeIndex.UeTable.RemoveUe` | 5gc/upf_u/upf_u_trtcm.c:658-688 | delete-by-rebuild in place equals the function |
| `RoundRobin.Scanner.Next` | 5gc/upf_u/upf_u.c:365-402 | the two-pass word scan returns the cyclically first active unskipped UE at or after the cursor, -1 iff there is none, equals a plain one-by-one scan, and moves the cursor just past its result |
| `RoundRobin.NextFromIsNext` | 5gc/upf_u/upf_u.c:365-402 | the plain scan returns the cyclically first eligible UE |
| `RoundRobin.VisitApproaches` | 5gc/upf_u/upf_u.c:394-397 | each visit serves a waiting UE or strictly lowers its distance ahead of the cursor |
| `RoundRobin.ServedInTime` | 5gc/upf_u/upf_u.c:941-961 | a UE that stays eligible is served within its distance plus one visits |
| `RoundRobin.ServedInAnyWindow` | 5gc/upf_u/upf_u.c:941-961 | a UE whose bit stays set is served by one of any 287 consecutive visits, also when they begin in the middle of a drain call that has tried it |
| `System.ConfigureHealthy` | 5gc/upf_u/upf_u.c:1291-1334 | finding or opening a UE's slot keeps the system invariant |
| `System.PacketHealthy` | 5gc/upf_u/upf_u.c:1605-1618 | a downlink packet keeps the system invariant |
| `System.DrainFrom` | 5gc/upf_u/upf_u.c:941-961 | the drain over slots keeps the system invariant and sends at most the budget; what it does is in `Scans.DrainCall` |
| `Scans.DrainCall` | 5gc/upf_u/upf_u.c:941-961 | in every reachable state a call drains at most 32 different UEs, each time the first one with packets at or after the one behind the last, each with what is left of the budget, and leaves all others alone; it ends only when the budget is sent, 32 UEs were drained, or no UE outside them has packets |
| `PacketPath.ConfigureMeans` | 5gc/upf_u/upf_u.c:1291-1317 | configuring takes the row that has the address, else the first free one, else none; sets its Session-AMBR and touches no other row |
| `PacketPath.PacketMeans` | 5gc/upf_u/upf_u.c:1605-1618 | a packet is dropped without any change iff no row has or can take its address; otherwise its row is configured, no other slot changes, and its decision is that of the slot's shaper unless the QER could not be set: the shared pool never matters |
| `System.RemoveHealthy` | 5gc/upf_u/upf_u.c:1893-1903 | session removal keeps the system invariant and leaves the index that removal by rebuild gives |
| `System.AlwaysHealthy` | 5gc/upf_u/upf_u.c:315-328 | the system invariant holds in every reachable state |
| `System.NoUeStranded` | 5gc/upf_u/upf_u.c:674-678 | in every run a bitmap bit is set iff the UE has queued packets, and any 287 consecutive visits during which it is set serve the UE |
| `System.PoolNeverRefuses` | 5gc/upf_u/upf_u.c:280-313 | outstanding entries never exceed 256*2048 and the pool never decides: a packet the limits admit always gets an entry |
| `System.FlowsStayHome` | 5gc/upf_u/upf_u.c:1605-1618 | a queued flow carries the address of its slot's UE, also after the slot was reused, and the index leads exactly there |
| `System.SlotsKeepTheirPromises` | 5gc/upf_u/upf_u.c:430-1001 | in every slot of every run: order, rates, conservation and structure |
| `Promises.SlotsKeepRates` | 5gc/upf_u/upf_u.c:546-578 | in every slot of every run of the system, also a reused one, each bucket runs at its configured rate and was charged for exactly the packets it limits, which keep to the rate |
| `Promises.NeverDroppedAnywhere` | 5gc/upf_u/upf_u.c:530-606 | per flow, over every run of the whole system that is kind to it, no packet of it is dropped once admitted, whatever happens to other flows, UEs and buckets and in whichever slot its UE is |
| `Promises.PacketMovesSo` | 5gc/upf_u/upf_u.c:1605-1618 | a downlink packet is exactly one configuration of its slot, at most one of its QER, and at most one admission |
| `System.KeysLeaveInOrder` | 5gc/upf_u/upf_u.c:608-1001 | over the whole life of the system, also when a UE is removed and comes back in another slot, the packets of a flow key leave in the order of their arrival |
| `SystemState.Globals.DrainSlot` | 5gc/upf_u/upf_u.c:870-939 | draining the shaper object of a slot, with pool and bitmap, is the drain of its value and changes no other slot |
| `SystemState.Globals.DrainQueues` | 5gc/upf_u/upf_u.c:941-961 | the drain loop over scanner and shaper objects takes exactly the step of the system model, and keeps its invariant |
| `SystemState.Globals.OnDownlinkPacket` | 5gc/upf_u/upf_u.c:1605-1618 | the packet path through table, row and shaper objects takes exactly the step of the system model, with its decision |
| `SystemState.Globals.FindOrOpen` | 5gc/upf_u/upf_u.c:1307-1317 | finding, refreshing or opening the slot of an address through the objects is the configuration step |
| `SystemState.Globals.OnSessionRemove` | 5gc/upf_u/upf_u.c:1893-1903 | flushing the shaper object, clearing its row and rebuilding the hash is the removal step |
| `Snapshot.CreateInv` | 5gc/upf_c/n4_onvm_pfcp_handler.c:859-937 | creating a PDR, also when the rebuild fails and it is taken back, keeps the protocol invariant |
| `Snapshot.UpdateInv` | 5gc/upf_c/n4_onvm_pfcp_handler.c:1395-1456 | so does a rebuild after an update |
| `Snapshot.WithdrawInv` | 5gc/upf_c/n4_onvm_pfcp_handler.c:1736-1771 | so does removing a PDR, also when the rebuild fails and it is put back; what becomes of the PDR is in `Ledger` |
| `Snapshot.StoreEvenInv` | 5gc/upf_c/n4_onvm_pfcp_handler.c:230-246 | so does the store that publishes the even version and retires the old snapshot |
| `Snapshot.FinishInv` | 5gc/upf_c/n4_onvm_pfcp_handler.c:492-515 | so does the end of a publication, also when nobody was reached |
| `Snapshot.LastAck` | 5gc/upf_c/n4_onvm_pfcp_handler.c:258-277 | when the last expected ACK is in, every worker with a snapshot has moved to that version, whatever ACKs were duplicated, late or overtaken |
| `Snapshot.AckStepInv` | 5gc/upf_c/n4_onvm_pfcp_handler.c:530-548 | handling any ACK in flight keeps the invariant |
| `Snapshot.CommitInv` | 5gc/upf_u/upf_u.c:186-227 | a worker's flip keeps the invariant and acknowledges the version it read |
| `Snapshot.StepInv` | 5gc/upf_u/upf_u.c:1873-1891 | every step of UPF-C and of every worker keeps the invariant |
| `Snapshot.DueFacts` | 5gc/upf_c/n4_onvm_pfcp_handler.c:194-203 | on a sorted retire queue exactly the entries up to the acknowledged version are freed |
| `SnapshotRuns.CommitsArePublished` | 5gc/upf_u/upf_u.c:190-227 | in every reachable state a worker's (pointer, version) is the snapshot published with that even version, and an ACK(v) in flight or recorded comes from a worker at v or later |
| `SnapshotRuns.StepsOnlyAdvance` | 5gc/upf_c/n4_onvm_pfcp_handler.c:230-277 | no step lowers a worker's version, republishes a version or changes a snapshot |
| `SnapshotRuns.ListsAgree` | 5gc/upf_c/n4_onvm_pfcp_handler.c:859-937 | in every reachable state the active snapshot describes exactly the PDR list (also after failed rebuilds), the retire queue is sorted, no snapshot or PDR was freed twice, no listed PDR and not the active snapshot was freed |
| `SnapshotRuns.LostRequestIsUnsafe` | onvm/utlt/upf_events.c:140-151 | whenever a request is lost after an earlier one arrived, some run frees a snapshot in use |
| `SnapshotRuns.SafeIffRequestsKeepArriving` | 5gc/upf_c/n4_onvm_pfcp_handler.c:420-548 | in all interleavings no worker's snapshot, nor a PDR it mentions, is freed, iff requests that reached a worker once keep reaching it |
| `SnapshotRuns.FullFanOutIsSafe` | 5gc/upf_c/n4_onvm_pfcp_path.c:55-61 | with a fan-out to every worker it is always safe and nothing is freed twice |
| `Ledger.PdrsConserved` | 5gc/upf_c/n4_onvm_pfcp_handler.c:187-203 | in every reachable state each PDR ever created is in exactly one place: listed, being removed, deferred, freed, or lost |
| `Ledger.SnapsConserved` | 5gc/upf_c/n4_onvm_pfcp_handler.c:489-548 | in every reachable state each snapshot ever made is in exactly one place: being built, active, just replaced, retired, freed, or leaked |
| `Ledger.GoneOnlyWhen` | 5gc/upf_c/n4_onvm_pfcp_handler.c:187-192 | a PDR is lost exactly when its removal ends with a full queue, a snapshot leaks exactly when the retired slot is overwritten; no other step loses anything |
| `Ledger.LastAnswerFrees` | 5gc/upf_c/n4_onvm_pfcp_handler.c:530-548 | in every reachable state the answer of the last worker that was told frees the retired snapshot and all deferred PDRs |
| `Ledger.AllAnsweredFrees` | 5gc/upf_c/n4_onvm_pfcp_handler.c:258-277 | once every worker that was told of the latest version has answered, in whatever order and however often, with any other steps between but no publication, the retired snapshot and all deferred PDRs are freed |
| `Ledger.WithdrawnIsFreed` | 5gc/upf_c/n4_onvm_pfcp_handler.c:1736-1771 | a PDR that is removed, with its removal published, room in the queue and somebody told, is freed when all who were told have answered |
| `Reclaimer.RetireQueue.Ensure` | 5gc/upf_c/n4_onvm_pfcp_handler.c:161-173 | growth by doubling keeps the contents, makes room unless memory runs out, and overshoots at most twofold |
| `Reclaimer.RetireQueue.MaybeCompact` | 5gc/upf_c/n4_onvm_pfcp_handler.c:176-184 | compaction moves the entries down in place and keeps their sequence |
| `Reclaimer.RetireQueue.DeferFree` | 5gc/upf_c/n4_onvm_pfcp_handler.c:187-192 | appends, unless the queue is full and cannot grow |
| `Reclaimer.RetireQueue.FreeUpTo` | 5gc/upf_c/n4_onvm_pfcp_handler.c:195-203 | frees exactly the due prefix and leaves the array at most half wasted |
| `Reclaimer.AckTracker.Reset` | 5gc/upf_c/n4_onvm_pfcp_handler.c:251-257 | a new version forgets all earlier ACKs |
| `Reclaimer.AckTracker.MarkOne` | 5gc/upf_c/n4_onvm_pfcp_handler.c:258-277 | counts each worker once and says when the last one is in |
| `Reclaimer.Collector.StoreEven` | 5gc/upf_c/n4_onvm_pfcp_handler.c:489-500 | storing the even version and caching the retired snapshot is the protocol's step |
| `Reclaimer.Collector.Send` | 5gc/upf_c/n4_onvm_pfcp_handler.c:502-503 | the fan-out counts exactly the workers reached |
| `Reclaimer.Collector.Finish` | 5gc/upf_c/n4_onvm_pfcp_handler.c:502-512 | resetting the tracker, freeing a snapshot nobody was told about and deferring a removed PDR is the protocol's step |
| `Reclaimer.Collector.OnAckFree` | 5gc/upf_c/n4_onvm_pfcp_handler.c:530-548 | the handler changes its globals and frees as the protocol's ACK step does |
| `Reclaimer.Collector.QueueStaysSorted` | 5gc/upf_c/n4_onvm_pfcp_handler.c:161-203 | over every run of publications, ACKs and worker steps, through growth and compaction, the array holds its entries by ascending version, none of them listed or freed; and nothing in use is freed when requests keep arriving |
| `Classifier.MaskedBounds` | 5gc/classifiers/classifier_wrapper.cpp:25-27 | on 32-bit words, shift and mask keep the prefix and clear the rest, the complement sets the rest |
| `Classifier.IpRangeIsPrefix` | 5gc/classifiers/classifier_wrapper.cpp:23-28 | an address lies in the computed range iff its first len bits are those of the rule |
| `Classifier.BoxMeans` | 5gc/classifiers/classifier_wrapper.cpp:30-92 | the compiled box contains a packet iff every set field matches: prefix for addresses, equality otherwise |
| `Classifier.MatchesPacket` | 5gc/classifiers/ElementaryClasses.h:64-70 | the loop decides membership in the box |
| `Classifier.Classify` | 5gc/classifiers/Simulation.h:61-68 | the list search answers with the first matching rule |
| `Classifier.PriorityInverts` | 5gc/classifiers/classifier_wrapper.cpp:86-87 | the inversion is exact and order-reversing up to 2^31-1, negative above, and undone by the read-back |
| `Classifier.LowestPrecedenceWins` | 5gc/classifiers/classifier_wrapper.cpp:178-206 | over rules in descending priority, a hit is a matching PDR of lowest precedence, recovered exactly; a miss iff every matching PDR has precedence 2^31 or more |
| `Arp.FindIff` | 5gc/upf_u/upf_u_arp.c:66-93 | lookup finds exactly the entry the table holds for the key |
| `Arp.StoreMeans` | 5gc/upf_u/upf_u_arp.c:96-142 | a write binds its key and keeps every other binding, except that a full table without the key loses the one in the key's home slot |
| `Arp.DoValid` | 5gc/upf_u/upf_u_arp.c:215-247 | update, lookup and request keep keys unique and chains unbroken |
| `Arp.LearnedIsFound` | 5gc/upf_u/upf_u_arp.c:96-142 | after any run, lookup after update returns the new MAC |
| `Arp.LostOnlyWhenFull` | 5gc/upf_u/upf_u_arp.c:132-141 | after any run, a key disappears only from a full table, by a store of an absent key whose home slot it occupied |
| `Arp.LookMeans` | 5gc/upf_u/upf_u_arp.c:66-93 | a lookup keeps every entry, but for marking the one it finds stale iff it was reachable and was learned more than 300 seconds ago |
| `Arp.RequestMeans` | 5gc/upf_u/upf_u_arp.c:215-247 | a request makes an incomplete entry for an unknown key, asks again for a stale or overdue one while keeping its address, and does nothing within a second of the last one or while the address is good |
| `Arp.AskedOncePerSecond` | 5gc/upf_u/upf_u_arp.c:215-247 | after a request went out, another one within a second does nothing |
| `Arp.NeighTable.Lookup` | 5gc/upf_u/upf_u_arp.c:66-93 | the probe loop, with its stale marking, equals the function |
| `Arp.NeighTable.Learn` | 5gc/upf_u/upf_u_arp.c:96-142 | the update loop equals the function |
| `Arp.NeighTable.Ask` | 5gc/upf_u/upf_u_arp.c:145-247 | the table part of a request equals the function |
| `AesTables.SboxInverse` | examples/aes_encrypt/aes.c:109-143 | the two S-boxes undo each other |
| `AesTables.SboxIsInversion` | examples/aes_encrypt/aes.c:109-125 | the S-box is inversion in GF(2^8) followed by the affine map of section 5.1.1 of FIPS 197 |
| `Aes.TablesMultiply` | examples/aes_encrypt/aes.c:151-237 | the six columns of gf_mul are multiplication by 2, 3, 9, 11, 13 and 14 in GF(2^8) |
| `Aes.SubShiftUndone` | examples/aes_encrypt/aes.c:675-771 | InvShiftRows and InvSubBytes undo SubBytes and ShiftRows |
| `Aes.MixColumnsUndone` | examples/aes_encrypt/aes.c:779-957 | InvMixColumns undoes MixColumns |
| `Aes.CipherUndone` | examples/aes_encrypt/aes.c:963-1185 | the inverse cipher undoes the cipher for every state, schedule and number of rounds |
| `Aes.DecryptInverts` | examples/aes_encrypt/aes.c:963-1185 | aes_decrypt inverts aes_encrypt for every block, every key schedule and all key sizes |
| `Aes.RoundsAgreeIff` | examples/aes_encrypt/aes.c:1027-1054 | both sides make the same number of rounds iff the key size is 128 or at least 192 |
| `AesInPlace.EncryptBlock` | examples/aes_encrypt/aes.c:963-1076 | the unrolled in-place rounds equal the cipher function, which `AesStandard.EncryptIsCipher` compares with FIPS 197 |
| `AesInPlace.DecryptBlock` | examples/aes_encrypt/aes.c:1079-1185 | the unrolled in-place rounds equal the inverse cipher function, which `AesStandard.DecryptIsInvCipher` compares with FIPS 197 |
| `AesStandard.LayersAgree` | examples/aes_encrypt/aes.c:675-771 | SubBytes, ShiftRows and their inverses by the standard's indices: row r turns by r places |
| `AesStandard.KeyColumnIs` | examples/aes_encrypt/aes.c:626-640 | the bytes of a round key's column are those of its word, the top one in row 0 |
| `AesStandard.EncryptIsCipher` | examples/aes_encrypt/aes.c:963-1076 | aes_encrypt computes the cipher of section 5.1 of FIPS 197, with 10, 12 and 14 rounds and the bytes of a block in the state array column by column, for every block and schedule |
| `AesStandard.DecryptIsInvCipher` | examples/aes_encrypt/aes.c:1079-1185 | aes_decrypt computes the inverse cipher of section 5.3 |
| `AesKeys.RconIsPower` | examples/aes_encrypt/aes.c:579-581 | the table of round constants holds the powers of x in GF(2^8) |
| `AesKeys.SubWordIs` | examples/aes_encrypt/aes.c:561-572 | SubWord sends each byte of a word through the S-box |
| `AesKeys.KeySetup` | examples/aes_encrypt/aes.c:574-613 | aes_key_setup writes a schedule as section 5.2 of FIPS 197 defines it, and leaves the array alone for other key sizes |
| `AesKeys.OneSchedule` | examples/aes_encrypt/aes.c:602-612 | a key has only one such schedule |
| `AesModes.CbcUndone` | examples/aes_encrypt/aes.c:252-321 | CBC decryption inverts CBC encryption for any number of blocks and any invertible cipher |
| `AesModes.CbcMacIsLast` | examples/aes_encrypt/aes.c:275-298 | the MAC is the last block of CBC encryption |
| `AesModes.IncrementAdds` | examples/aes_encrypt/aes.c:326-336 | increment_iv adds one to the last counter_size bytes modulo 256^counter_size and keeps the others |
| `AesModes.CounterCounts` | examples/aes_encrypt/aes.c:326-336 | the n-th counter block is the IV plus n modulo 2^128 |
| `AesModes.CtrBytewise` | examples/aes_encrypt/aes.c:340-361 | for any length, output byte i is in[i] xor E(iv + i/16)[i%16] |
| `AesModes.CtrTwice` | examples/aes_encrypt/aes.c:363-367 | CTR undoes itself |
| `AesModes.CcmUndone` | examples/aes_encrypt/aes.c:373-506 | decrypting a CCM encryption gives the payload with mac_auth true iff the payload is not empty |
| `AesModes.CcmAcceptsIff` | examples/aes_encrypt/aes.c:440-506 | decryption authenticates a text and returns p iff p is not empty and the text is exactly the encryption of p under the same nonce and associated data |
| `AesModes.CcmRejectsIff` | examples/aes_encrypt/aes.c:494-500 | decryption refuses texts too short for a payload, and yields zeros without authentication iff the text is no encryption under the same nonce and associated data |
| `AesModes.FormattedFitsIff` | examples/aes_encrypt/aes.c:392-408 | the formatted data fit the encryption's buffer iff not both paddings are longest, and always fit the decryption's |
| `CcmStandard.FormatAgreesIff` | examples/aes_encrypt/aes.c:516-555 | the formatted data are those of appendix A.2 of NIST SP 800-38C iff there are associated data, they do not fill their last block, and the payload is shorter than 2^16 |
| `CcmStandard.FirstCounterIsZero` | examples/aes_encrypt/aes.c:508-514 | the MAC is encrypted with the standard's counter block 0 |
| `CcmStandard.PayloadCounterIff` | examples/aes_encrypt/aes.c:421-427 | the payload starts from counter block 1 iff the MAC has at most 14 octets, and from the MAC's own block iff it has 16 |
| `CcmStandard.CountsAlike` | examples/aes_encrypt/aes.c:326-336 | counting over 16 octets agrees with the standard's counter blocks while they last |
| `CcmStandard.CcmConforms` | examples/aes_encrypt/aes.c:373-437 | where formatting and counters agree, so does the ciphertext, for every cipher |
| `CcmStandard.KeyStreamReused` | examples/aes_encrypt/aes.c:421-430 | with 16-octet MACs, ciphertexts of the first payload block and of the MAC differ exactly as the two do |
| `AesBuffers.AesCbcUndone` | examples/aes_encrypt/aes.c:252-321 | CBC over AES round-trips for all key sizes |
| `AesBuffers.EncryptCbc` | examples/aes_encrypt/aes.c:252-273 | the buffer loop computes CBC, refuses exactly the lengths that are no multiple of 16, also with input and output in one buffer |
| `AesBuffers.DecryptCbc` | examples/aes_encrypt/aes.c:300-321 | likewise for decryption |
| `AesBuffers.IncrementIv` | examples/aes_encrypt/aes.c:326-336 | the in-place carry loop equals the increment |
| `AesBuffers.EncryptCtr` | examples/aes_encrypt/aes.c:340-361 | the in-place loop with its short last block equals CTR |

## Left out

- TokenBucket.TextbookBoundIff: assumes a clock faster than 30 Hz and the 5-byte bit rates of sections 8.2.8 and 8.2.9 of 3GPP TS 29.244.
- SystemState.Globals.DrainQueues: the spin locks are not modelled; each operation on the globals runs to its end.
- Bucket structures as objects of their own: a row of the UE table is one object, its buckets are values in it, and a pointer to a bucket is the bucket's name in the row.
- Reuse of entry addresses: the pool hands out an address that was not used before, per UE; the number of free entries is counted for all UEs together.
- Classifier.LowestPrecedenceWins: takes the rules in descending priority; SortRules itself (std::sort with a comparison that is not strict) is not modelled.
- AesModes.CcmUndone: CCM is on sequences, not on its malloc'ed buffer, and with an authentication result always asked for.
- Stopping.DrainIsWorkConserving: is about a clock that stands still during the drain, as is Starving.WorkConservingIff.
- The flow hash (FNV over the key bytes): lookups probe all 64 slots, so the proofs hold for every hash function.
- Null-pointer checks on packet, key and pool, colour counters and drop counters, `last_active_tsc`.
- 64-bit wrap-around of cycle counts and 32-bit wrap-around of snapshot versions; weak-memory effects: atomics are sequentially consistent steps.
- Ledger.AllAnsweredFrees: that workers do answer is an assumption of the lemma; no fairness of schedules is modelled.
- Ledger.WithdrawnIsFreed: is about a removal that somebody was told of; a PDR whose removal reached nobody stays deferred until a later version is acknowledged.
- The effect of session deletion on PDRs (UpfSessionRemove), session maps, worker selection, TLV conversion and flow-description parsing.
- The PartitionSort and TupleSpaceSearch back ends: a snapshot is its set of rules.
- The trTCM meter and its flow table, the session rings for buffered packets, ICMP, GTP-U encapsulation, configuration parsing, load balancer and NF start-up code.
- Sending and receiving ARP packets: `Arp` has what they do to the table.
