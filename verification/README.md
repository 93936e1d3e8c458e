# A verified model of the Ralink 802.11n USB station driver

The driver receives aggregated frames out of order and puts them back in order, keeps the tables of
block-ack sessions and of stations, and encrypts and authenticates in software. This project models
that code in Dafny and proves what it keeps and what it computes.

The files, by source file:

| source | modules |
|---|---|
| `common/ba_action.c`, receive reordering | `SequenceNumbers`, `ReorderSpec`, `ReorderProofs`, `ReorderOrder`, `ReorderSafety`, `ReorderConservation`, `ReorderByNumber`, `ReorderProgress`, `ReorderExamples` (one session on values); `ReorderSystem` (all sessions on one pool, on values); `ReorderLists`, `ReorderHeap` (the linked lists and the block pool) |
| `common/ba_action.c`, session tables | `BaSessions`, `Bitmaps` (on values); `BaTable` (the arrays) |
| `common/cmm_aes.c` | `AesField`, `AesWords`, `AesTables`, `AesCipher`, `AesContext`, `AesOnto`, `AesBytewise`, `AesSbox`, `AesKnown`, `KeyWrap`, `Ccm`, `CcmHeaders` |
| `common/cmm_wep.c` | `Crc`, `CrcKnown`, `Rc4`, `Rc4Known`, `Wep` |
| `common/cmm_wpa.c`, `common/cmm_sanity.c` | `EapolKeyData` (on values), `GroupKey` (the buffers and the station) |
| `common/cmm_data.c` | `MacTable` |
| `common/crypt_md5.c` | `Md5`, `Md5Known` |
| `common/cmm_tkip.c` | `Michael`, `MichaelKnown`, `TkipSbox`, `TkipMix`, `TkipKnown` |
| `common/cmm_mac_usb.c` | `Beacon` |

`Bytes`, `Remainders` and `CipherKeys` hold what several of them share. Code that updates lists, arrays
and fields is a class or a method with loops; its contract says that the new state is a function of the
old one, and the theorems are about that function.

## What is proved

* **Reordering.** A step of a session (a frame, a gap timeout, a block-ack request, the idle timer, a
  second ADDBA request, another session changing the pool) keeps the receive window *if and only if* it is not
  the one arrival that strands a held successor. It leaves a session that delivers in order whatever the
  transmitter and the timers may still do *if and only if* it is not one of two steps that repeat or overtake a
  held frame (`ReorderSafety.SafeIff`, `ReorderSafety.RunSafeIff`). Over every run without those steps the list is
  sorted, free of duplicates, 2 to `BAWinSize` ahead of `LastIndSeq` and shorter than the window, and what is
  passed up strictly ascends in the transmitter's unbounded numbering.
* **What becomes of each frame.** From any state that keeps the invariants, the 12-bit arithmetic, the list scans
  and the wrapped clock take exactly the steps described in unbounded numbers and elapsed ticks
  (`ReorderByNumber.NextByNumber`). A frame that is not too long, not late and no copy of a held one is passed up or
  held, whatever the state of the pool. Over every run without the two steps the frames released are exactly the
  others, in order (`ReorderProgress.RunReleases`), and a frame held `d` numbers ahead has been passed up once
  `d - 1` timeouts have expired (`ReorderProgress.HeldIsPassedUp`).
* **All sessions on one pool.** A run of the adapter is a sequence of calls on any sessions. Over every such run,
  the steps above included, each frame given is exactly once passed up, released or held, and the blocks free,
  held and leaked are the pool; without EAPOL frames none leaks. Each session sees the run as one of its own, so
  what is proved of a session holds in it (`ReorderSystem.RunAccountsEach`). The linked-list code computes these
  runs (`ReorderHeap.Adapter.ServeAll`).
* **Expectations that fail, with inputs.** A block-ack request that starts at a held frame delivers that
  frame and then expects it again (`ReorderExamples.BarDeliversTwice`); an empty pool strands a successor
  (`ReorderExamples.EmptyPoolStrandsSuccessor`) and an EAPOL frame costs a block for good
  (`ReorderExamples.EapolLeaksBlock`). The exact conditions are `ReorderSafety.SafeIff`,
  `ReorderProofs.NextKeepsWindow` and `ReorderSystem.RunConservesAll`.
* **AES.** Both implementations, the byte-wise one and the one with tables and an equivalent inverse cipher,
  compute the same function, and encryption and decryption invert each other for keys of all three sizes. Key
  wrap round-trips both ways for every length. Wrap and unwrap are those of RFC 3394 up to 42 blocks; from 43 on
  the wrap leaves the states of the RFC at step 256 and the unwrap at its first step, whatever the key. The unwrap
  does not make step 3 of section 2.2.2, so the code returns a plaintext where the RFC returns an error
  (`KeyWrap.RejectedYetUnwrapped`). CCM decryption in place accepts a frame *if and only if* it is the
  encapsulation of what it decrypts to. Two headers have the same additional data *if and only if* they differ at
  most in the bits that may change on the way, so a frame and its retransmissions are authentic together. The S-box
  is the affine image of the inverse in the field, and the published AES-128 example comes out.
* **WEP, TKIP, MD5.** Every frame sealed is opened, however it was cut into calls, and a change of one byte is
  caught; the table CRC is the bitwise CRC; the buffered Michael and MD5 are the word-wise and one-shot ones
  for every way of cutting the message; the lazily reduced TKIP mixing is the fully reduced one. From outside the
  code: the bias of the second RC4 byte, a key for every RC4 state, the CRC check value and residue, and the published
  examples of MD5, Michael and TKIP mixing.
* **GTK delivery.** What the sender puts in the message, the station installs; a WPA2 message 3 from another
  network than the one it expects is rejected. A group message installs a key under an exact condition, which the wrap of an 8-bit
  subtraction makes wider than the length test suggests (`EapolKeyData.GroupInstallsIff`,
  `EapolKeyData.ShortEncapsulationInstalled`).
* **Tables.** The block-ack tables agree with themselves and with the peers' index arrays, bitmaps and the
  counters after every run; the hash chains of the MAC table cover exactly the entries in use, and looking up
  is a linear search. After any run of inserts of fresh addresses and deletes an address is in the table *if and
  only if* the last operation that took effect on it was an insert.
* **Beacon timer.** The 64-bit remainder taken in 32-bit steps is right *if and only if* the number of carries out
  of 32 bits is a multiple of the odd part of `BeaconPeriod`. So it is right for every timer value exactly for the
  periods that are powers of two. Any other period fails first at the first upper half at which the sum can
  overflow: for 100 time units that is 2^20 - 24, with a lower half 98304 or more into the period.

Where the code and its comments differ the model follows the code. The comment on the longer reordering
timeout says 100 ms for 3000 ms (common/ba_action.c:39). The comment on padding key data asks for padding of
data shorter than 16 octets as well (common/cmm_wpa.c:2668-2671); the code pads to a multiple of 8 only.
The error text of the fallback branch speaks of a failed allocation, but the branch also takes every EAPOL frame.

## Model

| member | source | states |
|---|---|---|
| SequenceNumbers.SmallerIsOrder | include/mlme.h:911 | bit 11 of the difference of two wrapped numbers orders the unbounded numbers they stand for, when these are at most half the space apart |
| SequenceNumbers.StepOneIsSuccessor | include/mlme.h:910 | the successor test on wrapped numbers is the successor test on unbounded ones, within a whole space |
| SequenceNumbers.AheadRebase | include/mlme.h:910-914 | moving the base forward by no more than the distance shortens the distance by exactly that much |
| SequenceNumbers.AheadOfCounter | include/mlme.h:910-914 | two unbounded numbers less than a whole space apart are told apart by their wrapped forms |
| SequenceNumbers.SmallerDistance | common/ba_action.c:1397 | a request whose start is accepted lies 1 to 2048 ahead of the last indicated number |
| ReorderLists.ReorderingList.Enqueue | common/ba_action.c:176-181 | the block becomes the head of the list, which stays an acyclic chain of its counted length |
| ReorderLists.ReorderingList.Dequeue | common/ba_action.c:186-203 | the head is taken off and unlinked; an empty list gives nothing and stays empty |
| ReorderLists.ReorderingList.InsertSorted | common/ba_action.c:143-170 | the pointer code inserts in front of the first frame that is not earlier, refuses a duplicate, and leaves a chain carrying the sorted insertion |
| ReorderLists.ReorderingList.Scan | common/ba_action.c:147-161 | the scan stops in front of the first frame not before the new one, and sees a duplicate exactly if there is one |
| ReorderLists.TakePlaced | common/ba_action.c:186-203 | taking a head off one of several lists that share a pool keeps every block on exactly one list or loose |
| ReorderLists.PutPlaced | common/ba_action.c:143-181 | putting a loose block anywhere into a list keeps every block on exactly one list or loose |
| ReorderLists.PlacedIsPartition | common/ba_action.c:223-331 | a block of the pool is loose exactly if it is on no list, and otherwise on exactly one |
| ReorderLists.PlacedCounts | common/ba_action.c:261-303 | a placement of the blocks on disjoint acyclic lists counts every block once |
| ReorderProofs.AscendingBound | common/ba_action.c:1601 | pigeonhole: a list with strictly ascending distances within bounds is no longer than the bounds allow |
| ReorderProofs.LeadLeCuts | common/ba_action.c:368-394 | the loop that passes up frames not after `x` stops exactly at the distance of `x` |
| ReorderProofs.LeadBeforeCuts | common/ba_action.c:147-161 | the insertion scan stops exactly below the distance of the new frame |
| ReorderProofs.LeadInOrderCuts | common/ba_action.c:343-360 | the in-order loop takes exactly the gap-free prefix |
| ReorderProofs.DropToKeeps | common/ba_action.c:368-394 | passing up everything to a point and moving the last number there leaves held frames at distance 1 or more |
| ReorderProofs.DrainRestoresWindow | common/ba_action.c:334-366 | the in-order drain leaves distances of 2 or more |
| ReorderProofs.SkipGapKeepsWindow | common/ba_action.c:446-467 | skipping one missing number and draining keeps the window |
| ReorderProofs.FlushKeepsWindow | common/ba_action.c:423-472 | the gap timeout keeps the window, whichever of its branches it takes |
| ReorderProofs.ClassifyByDistance | common/ba_action.c:1698-1776 | the branch an arriving frame takes depends on its distance alone: 0, 1, within the window, beyond it, or in the backward half |
| ReorderProofs.InsertKeepsOrdered | common/ba_action.c:143-170 | sorted insertion keeps the order, and reports a duplicate exactly if the number is held |
| ReorderProofs.SlidePlaces | common/ba_action.c:1745-1760 | making room for a frame beyond the window puts the frame at its upper end |
| ReorderProofs.WrapMinus | common/ba_action.c:1745-1757 | the start of the new window, computed with its own borrow, is the frame's number minus the window size modulo 4096 |
| ReorderProofs.FallbackWindow | common/ba_action.c:1604-1618 | a frame that is passed up instead of buffered leaves a window if and only if its successor is not held |
| ReorderProofs.FallbackBeyond | common/ba_action.c:1604-1618 | beyond the window the same branch empties the list and keeps the window |
| ReorderProofs.ArriveKeepsWindow | common/ba_action.c:1640-1777 | an arrival keeps the window if and only if it does not strand a held successor; afterwards the session is never reset |
| ReorderProofs.EnqueueLengthBounded | common/ba_action.c:1601 | the assertion inside the enqueue step: the list never exceeds the window, not even between two steps |
| ReorderProofs.BarKeepsWindow | common/ba_action.c:1397-1402 | every block-ack request keeps the window |
| ReorderProofs.NextKeepsWindow | common/ba_action.c:1640-1777 | each of the steps keeps the window if and only if it is admissible |
| ReorderProofs.IndicateIsSteps | common/ba_action.c:1640-1777 | a call of the entry point is the steps a run takes for its frame, oversized frames included |
| ReorderProofs.RunKeepsWindow | common/ba_action.c:1640-1777 | over every admissible run: sorted, no duplicates, 2 to the window size ahead, shorter than the window, and empty when reset |
| ReorderOrder.PassUpTracks | common/ba_action.c:334-419 | passing up a prefix of the list extends the ascending log and keeps held frames numbered from the new base |
| ReorderOrder.DrainTracks | common/ba_action.c:334-366 | the in-order drain keeps delivery in order |
| ReorderOrder.SkipGapTracks | common/ba_action.c:446-467 | skipping a gap keeps delivery in order |
| ReorderOrder.BeyondTracks | common/ba_action.c:1740-1776 | a frame beyond the window keeps delivery in order, buffered or not |
| ReorderOrder.FallbackTracks | common/ba_action.c:1604-1618 | a frame passed up instead of buffered keeps the order invariant (log ascending up to the last number, held frames numbered from it, window) if and only if neither it nor its successor is held |
| ReorderOrder.BarTracks | common/ba_action.c:1397-1402 | a block-ack request keeps the order invariant if and only if its starting frame is not held |
| ReorderOrder.ArriveTracks | common/ba_action.c:1640-1777 | an arrival within half the space of the last number keeps the order invariant if and only if it is not the disordering one |
| ReorderOrder.FlushTracks | common/ba_action.c:423-472 | the gap timeout keeps delivery in order |
| ReorderOrder.NextKeepsInv | common/ba_action.c:1640-1777 | each step keeps the order invariant if and only if it is not one of the two disordering steps |
| ReorderOrder.RunDeliversInOrder | common/ba_action.c:1640-1777 | over every run without those steps, what was passed up since the last reset strictly ascends in unbounded numbers: nothing twice and nothing late |
| ReorderSafety.SafeIff | common/ba_action.c:1640-1777 | a step leaves a session whose log ascends after every regular continuation if and only if it is not one of the two disordering steps: after such a step some continuation delivers a frame twice |
| ReorderSafety.RunSafeIff | common/ba_action.c:1640-1777 | a run keeps the session safe at every point if and only if it takes neither of those steps |
| ReorderSafety.BarUnsafe | common/ba_action.c:1397-1402 | after a request that starts at a held frame the retransmission of that frame is delivered again |
| ReorderSafety.ArrivalUnsafe | common/ba_action.c:1604-1618 | after an in-window frame is passed up although it or its successor is held, a frame is delivered twice, at once or by the next flush |
| ReorderConservation.ArriveConserves | common/ba_action.c:1640-1777 | on every branch and from any state one frame more is passed up, released or held, no block is created or lost, and one leaks exactly on the EAPOL branch |
| ReorderConservation.FlushConserves | common/ba_action.c:423-472 | the gap timeout loses no frame and no block |
| ReorderConservation.NextConserves | common/ba_action.c:1561-1619 | every step loses no frame and no block: it adds the frame it is given, and only other sessions move blocks in or out |
| ReorderConservation.RunConserves | common/ba_action.c:1561-1777 | over any run of one session from any state each frame given is exactly once passed up, released or held, and each block free, held or leaked, apart from what other sessions do to the pool |
| ReorderConservation.NoEapolNoLeak | common/ba_action.c:1574-1603 | without EAPOL frames nothing leaks |
| ReorderSpec.AgreedWindow | common/ba_action.c:640-646 | of the two sizes 8 bits count; the window is at most each of them and equals one, or is 64 if either is 0 |
| ReorderByNumber.TimeAfterIs | include/os/rt_linux.h:448-451 | the clock comparison holds exactly for more than `d` elapsed ticks, and no more than half a turn of the clock beyond |
| ReorderByNumber.DrainIs | common/ba_action.c:334-365 | the in-order pass-up takes the frames numbered from the successor of the last number up to the first gap |
| ReorderByNumber.CopiedIs | common/ba_action.c:143-171 | the insertion finds a copy exactly if a held frame has the same number, and otherwise the place between the lower and the higher numbers |
| ReorderByNumber.ByNumberArrival | common/ba_action.c:1640-1777 | in unbounded numbers: late frames and held copies are released; the next frame is passed up with all that continues it; a frame of the window is held, or if it cannot be, passed up after the lower ones; one beyond it moves the window to end at it |
| ReorderByNumber.ByNumberTimeout | common/ba_action.c:423-472 | in elapsed ticks: up to hz/10 nothing happens; after that a session that holds a frame moves on by at least one and passes up what continues; after hz/2 with two frames or more everything is passed up and the session reset |
| ReorderByNumber.ByNumberBar | common/ba_action.c:1397-1402 | a request for a number after the last one passes up exactly the frames numbered up to it and sets the last number one below; any other changes nothing |
| ReorderByNumber.NextByNumber | common/ba_action.c:423-1777 | each step of each kind, on a reset session too, is the one described by number |
| ReorderProgress.ArrivalKeeps | common/ba_action.c:1640-1777 | an arrival releases the frame exactly if it is late or a copy of a held one, and no other frame; any other frame, and every held one, is passed up or held afterwards |
| ReorderProgress.FrameIsKept | common/ba_action.c:1574-1618 | a first, later or new frame is passed up at once or held, with a free block or without, and nothing is released |
| ReorderProgress.FrameIsHeld | common/ba_action.c:1574-1602 | a new frame of the window with a free block joins the held ones, and nothing is passed up or released |
| ReorderProgress.IndicateKeeps | common/ba_action.c:1640-1700 | the whole entry point: a frame over 1520 bytes that is no A-MSDU is released and nothing else happens; of the others exactly those refused after the timeout check are released |
| ReorderProgress.HeldAdvances | common/ba_action.c:423-472 | every step leaves a held frame passed up or held, and an expired timeout moves the last number on by at least one |
| ReorderProgress.RunReleases | common/ba_action.c:1132-1777 | over every regular run the frames released are, in order, exactly those too long, late or copies of held ones; all others given are passed up or held |
| ReorderProgress.HeldIsPassedUp | common/ba_action.c:423-472 | no frame stays held for good: one held d numbers ahead has been passed up once d - 1 timeouts of the run have expired |
| ReorderSystem.RunConservesAll | common/ba_action.c:223-331 | over any run of all sessions from any state the frames given are exactly those passed up, released or held by some session, the blocks free, on the lists of all sessions and leaked stay as many, and one more leaks at each leaking move |
| ReorderSystem.NoEapolLeaksNothing | common/ba_action.c:1574-1603 | without EAPOL frames no move of any session leaks |
| ReorderSystem.SeenIsRun | common/ba_action.c:1640-1777 | a run of all sessions is for each session a run of its own, in which the others only change the pool |
| ReorderSystem.StepKeepsWindows | common/ba_action.c:1640-1777 | a step of any session keeps the windows of all sessions if and only if it strands no held successor |
| ReorderSystem.RunKeepsWindows | common/ba_action.c:1640-1777 | over every admissible run of all sessions on one pool each stays inside its window |
| ReorderSystem.RunDeliversInOrderEach | common/ba_action.c:1640-1777 | over every run of all sessions a session that takes no disordering step delivers in order, whatever the others do |
| ReorderSystem.RunAccountsEach | common/ba_action.c:1132-1777 | the same of what is released, kept and passed up in time, for each session of a run of all sessions |
| ReorderSystem.CallIs | common/ba_action.c:1397-1777 | a call of an entry point on a session is the steps of that call in the run of all sessions |
| ReorderExamples.BarDeliversTwice | common/ba_action.c:1397-1402 | a request that starts at a held frame is a disordering step, and makes the driver deliver the frame twice |
| ReorderExamples.EmptyPoolStrandsSuccessor | common/ba_action.c:1604-1618 | with an empty pool a frame strands its held successor, breaks the window, and a copy of a delivered frame stays held |
| ReorderExamples.EapolLeaksBlock | common/ba_action.c:1574-1618 | an EAPOL frame inside the window leaks a block |
| ReorderHeap.Adapter.constructor | common/ba_action.c:261-303 | all blocks are on the free list and the pool is partitioned |
| ReorderHeap.Adapter.AllocBlock | common/ba_action.c:307-321 | the head of the free list, or nothing exactly if it is empty; all other lists as they were |
| ReorderHeap.Adapter.FreeBlock | common/ba_action.c:323-331 | the block becomes the head of the free list |
| ReorderHeap.Adapter.DequeueFrom | common/ba_action.c:206-209 | the first held frame and its block leave the session's list |
| ReorderHeap.Adapter.Probe | common/ba_action.c:212-217 | the sequence number of the first held frame, or nothing exactly if none is held |
| ReorderHeap.Adapter.IndicateInOrder | common/ba_action.c:334-366 | the loop passes up exactly the gap-free prefix, gives its blocks back and returns the last number, or the reset value if it passed up nothing |
| ReorderHeap.Adapter.IndicateLe | common/ba_action.c:368-394 | the loop passes up exactly the leading frames that are not after `x` |
| ReorderHeap.Adapter.RefreshReordering | common/ba_action.c:397-419 | everything is passed up and the session reset |
| ReorderHeap.Adapter.FlushTimeout | common/ba_action.c:423-472 | the pointer code computes the timeout step of the machine, which `ReorderByNumber.ByNumberTimeout` states in elapsed ticks |
| ReorderHeap.Adapter.EnqueuePacket | common/ba_action.c:1561-1619 | the pointer code computes the enqueue step, both branches; that it holds what can be held is `ReorderProgress.FrameIsHeld` |
| ReorderHeap.Adapter.BufferPacket | common/ba_action.c:1576-1603 | a buffered frame takes its block onto the list; a duplicate is released and its block freed |
| ReorderHeap.Adapter.PassThrough | common/ba_action.c:1604-1618 | what is not after the frame is passed up, then the frame, and the last number is the frame's |
| ReorderHeap.Adapter.IndicateAmpdu | common/ba_action.c:1640-1777 | the entry point computes the machine's step on one session, which `ReorderByNumber.ByNumberArrival` states in unbounded numbers, and keeps the pool partitioned over all sessions |
| ReorderHeap.Adapter.BlockAckReq | common/ba_action.c:1397-1402 | the block-ack request computes the machine's step |
| ReorderHeap.Adapter.ReAddSession | common/ba_action.c:621-711 | a second ADDBA request passes everything up, resets, and settles the window (`ReorderSpec.AgreedWindow`) |
| ReorderHeap.Adapter.IdleTimeout | common/ba_action.c:1132-1158 | the idle timer computes the machine's step: a reset for more than 1000 elapsed ticks (`ReorderByNumber.NextByNumber`) |
| ReorderHeap.Adapter.PoolIsPartitioned | common/ba_action.c:223-331 | every block of the pool is on exactly one list, free or one session's, unless an EAPOL frame took it |
| ReorderHeap.Adapter.BlocksArePool | common/ba_action.c:261-303 | in every state the blocks free, on the lists of the sessions, and leaked count up to the pool |
| ReorderHeap.Adapter.Serve | common/ba_action.c:1132-1777 | any entry point on any session is the run of all sessions that takes the steps of the call, and leaves the other sessions alone |
| ReorderHeap.Adapter.ServeAll | common/ba_action.c:1132-1777 | any sequence of calls is such a run: every frame given is once passed up, released or held, the blocks are the pool, and none is lost unless an EAPOL frame took it; each session that takes no disordering step delivers in order, releases exactly the refused frames and holds none past its turn |
| AesTables.SboxInverts | common/cmm_aes.c:673-707 | the reverse S-box undoes the forward S-box on every byte |
| AesSbox.SboxIsDefined | common/cmm_aes.c:53-87 | every S-box entry is the affine image of the inverse of its index in GF(2^8), section 5.1.1 of FIPS 197 |
| AesTables.TableEntries | common/cmm_aes.c:710-920 | every entry of the forward and reverse tables is the S-box entry times the MixColumns and InvMixColumns coefficients |
| AesField.InvMixMix | common/cmm_aes.c:1044-1055 | the inverse column mix undoes the column mix over the field with 256 elements |
| AesCipher.DecRoundsRetrace | common/cmm_aes.c:1190-1276 | the equivalent inverse cipher retraces the states of encryption round by round |
| AesCipher.DecryptEncrypt | common/cmm_aes.c:1101-1276 | under a reversed and inverse-mixed schedule decryption undoes encryption, for any number of rounds |
| AesCipher.ForwardTableWordIs | common/cmm_aes.c:1111-1134 | four forward table entries and the round key are a substituted, mixed and keyed column |
| AesCipher.ReverseTableWordIs | common/cmm_aes.c:1200-1224 | the same for the reverse tables and the inverse round |
| AesCipher.KeyTableWordIs | common/cmm_aes.c:1042-1097 | the four key tables together are the inverse column mix |
| AesContext.Context.SetKey | common/cmm_aes.c:957-1097 | for 128, 192 and 256 bits the schedule is the key expansion of FIPS 197 section 5.2 and the decryption schedule its inverse; any other size is refused and changes nothing |
| AesContext.Context.Expand128 | common/cmm_aes.c:979-995 | the loop leaves the pointer at word 40, which is 4 times the rounds, and every word expanded |
| AesContext.Context.Expand192 | common/cmm_aes.c:997-1014 | the loop leaves the pointer at word 48, and every word expanded |
| AesContext.Context.Expand256 | common/cmm_aes.c:1015-1040 | the loop leaves the pointer at word 56, and every word expanded |
| AesContext.Context.InvertSchedule | common/cmm_aes.c:1042-1097 | the decryption keys are the encryption keys reversed, inverse-mixed except at both ends |
| AesContext.Context.EncryptBlock | common/cmm_aes.c:1101-1186 | the unrolled table rounds compute the cipher of FIPS 197 section 5.1 over the schedule; input and output may be one buffer |
| AesContext.Context.DecryptBlock | common/cmm_aes.c:1190-1276 | the unrolled reverse rounds compute the equivalent inverse cipher of section 5.3.5 over the decryption schedule |
| AesContext.AesRoundTrip | common/cmm_aes.c:957-1276 | decryption undoes encryption for every key of every size and every block |
| AesOnto.EncryptDecrypt | common/cmm_aes.c:957-1276 | encryption undoes decryption for every key of every size and every block: an injective function of the finitely many blocks is onto |
| AesContext.ReadyContext | common/cmm_aes.c:957-1276 | a context set to a key computes AES under that key in both directions |
| AesContext.InverseUnique | common/cmm_aes.c:1042-1097 | the decryption schedule is determined by the encryption schedule |
| AesBytewise.Xor128 | common/cmm_aes.c:102-113 | the bytewise sum, with the output allowed to be either input |
| AesBytewise.NextKey | common/cmm_aes.c:121-146 | the next round key from the last, in place |
| AesBytewise.ByteSub | common/cmm_aes.c:148-158 | SubBytes |
| AesBytewise.ShiftRow | common/cmm_aes.c:174-194 | ShiftRows |
| AesBytewise.MixColumn | common/cmm_aes.c:196-257 | masking, shifting with carry between bytes, and a conditional 0x1b are the column mix over the field |
| AesBytewise.RoundKeyStep | common/cmm_aes.c:121-146 | the round keys made on the fly are those of the key expansion |
| AesBytewise.Aes128 | common/cmm_aes.c:381-417 | the byte-wise cipher computes the same function as the table cipher, for every key and block |
| AesKnown.PublishedCiphertext | common/cmm_aes.c:381-417 | the AES-128 example of appendix C.1 of FIPS 197 |
| KeyWrap.AesGtkKeyWrap | common/cmm_aes.c:1287-1338 | the nested loops over R compute the wrap of the whole blocks for every length the local R holds, 0 and lengths that are not a multiple of 8 included |
| KeyWrap.AesGtkKeyUnwrap | common/cmm_aes.c:1355-1410 | the loops compute the unwrap of the whole blocks, copy the rest, and leave the register A they do not check |
| KeyWrap.StepUndone | common/cmm_aes.c:1310-1325 | one unwrap step undoes one wrap step, with the step number cut to 8 bits alike |
| KeyWrap.StepsUndone | common/cmm_aes.c:1287-1410 | any number of unwrap steps undoes as many wrap steps |
| KeyWrap.StepsRedone | common/cmm_aes.c:1287-1410 | any number of wrap steps undoes as many unwrap steps |
| KeyWrap.UnwrapWrap | common/cmm_aes.c:1287-1410 | unwrapping what was wrapped restores the plaintext and the initial value of A, for any number of blocks |
| KeyWrap.AuthenticIffWrapped | common/cmm_aes.c:1355-1410 | a ciphertext is the wrap of a plaintext if and only if its unwrap leaves the initial value in A, and then of what the unwrap writes |
| KeyWrap.WrapIsRfc | common/cmm_aes.c:1287-1338 | for at most 42 blocks the wrap is that of RFC 3394 section 2.2.1, whose step number has 64 bits |
| KeyWrap.UnwrapIsRfc | common/cmm_aes.c:1355-1410 | for at most 42 blocks the RFC (section 2.2.2) returns what the unwrap writes if A is the initial value and an error otherwise, and a plaintext exactly for its own wraps |
| KeyWrap.RejectedYetUnwrapped | common/cmm_aes.c:1383-1406 | step 3 of section 2.2.2 is not made: for every key, plaintext and wrong value of A the code writes that plaintext for a ciphertext the RFC rejects |
| KeyWrap.MasksAgree | common/cmm_aes.c:1310-1325 | all masks of the wrap are those of the RFC if and only if there are at most 42 blocks |
| KeyWrap.StatesAgree | common/cmm_aes.c:1310-1325 | every state of the wrap is the RFC's if and only if there are at most 42 blocks |
| KeyWrap.UnwrapStatesAgree | common/cmm_aes.c:1383-1399 | every state of the unwrap is the RFC's if and only if there are at most 42 blocks |
| KeyWrap.UnstepsPart | common/cmm_aes.c:1383-1399 | an unwrap step with a number above 255 leads to another state than the RFC's, for every key and ciphertext |
| KeyWrap.StepsPart | common/cmm_aes.c:1310-1325 | step 256 leads to another state than the RFC's, for every key, number of blocks and plaintext |
| KeyWrap.BlockOfLoops | common/cmm_aes.c:1310-1325 | the two nested loops visit the blocks in the order of the flat step number |
| Ccm.ConstructCtrPreload | common/cmm_aes.c:419-448 | counter block i of RFC 3610 section 2.3 |
| Ccm.ConstructMicIv | common/cmm_aes.c:343-374 | block B_0 of section 2.2 with M = 8, L = 2 and AAD present |
| Ccm.ConstructMicHeader1 | common/cmm_aes.c:266-287 | the first sixteen bytes of the encoded and padded AAD |
| Ccm.ConstructMicHeader2 | common/cmm_aes.c:295-335 | the other sixteen, with address 4 or without |
| Ccm.BitwiseXor | common/cmm_aes.c:165-172 | the sum of sixteen bytes |
| Ccm.AheadUntouched | common/cmm_aes.c:533-589 | what lies eight bytes ahead of the in-place shift has not been overwritten |
| Ccm.BlockStep | common/cmm_aes.c:533-571 | each block read is still ciphertext, and writing its plaintext eight bytes down continues the shift |
| Ccm.DecryptPayload | common/cmm_aes.c:533-571 | the loop and its short last block leave the whole plaintext where the CCMP header began |
| Ccm.ComputeMic | common/cmm_aes.c:597-648 | the MIC computed block by block is the CBC-MAC of section 2.2, padding included |
| Ccm.SoftDecryptAes | common/cmm_aes.c:450-661 | the result is true exactly if the frame is authentic, and the buffer holds header, plaintext and the rest as it came; a key of length 0 changes nothing |
| Ccm.OpensEncapsulated | common/cmm_aes.c:450-661 | the encapsulation of any plaintext is authentic, decrypts to it, and parses back |
| Ccm.AuthenticIffEncapsulated | common/cmm_aes.c:574-660 | a frame passes the MIC check if and only if it is the encapsulation of what it decrypts to |
| Ccm.CryptTwice | common/cmm_aes.c:533-571 | counter-mode decryption is encryption again |
| CcmHeaders.AadIff | common/cmm_aes.c:266-335 | two headers have the same additional data exactly if they differ at most in subtype bits 4 and 5, Retry, Power Management, More Data, Protected Frame, the duration and the sequence number |
| CcmHeaders.RetransmissionAlike | common/cmm_aes.c:450-661 | frames that differ only there decrypt to the same payload and pass the check together |
| CcmHeaders.NonceIs | common/cmm_aes.c:343-374 | the nonce is priority 0, the transmitter address and the packet number, highest byte first, of which the CCMP header carries the bytes lowest first |
| CcmHeaders.BlocksSay | common/cmm_aes.c:343-448 | the flags of B_0 and of the counter blocks are those of RFC 3610 for an 8-byte MIC, 2-byte lengths and AAD, and both blocks end in the number, highest byte first |
| CcmHeaders.CryptAt | common/cmm_aes.c:533-571 | byte j of the payload is masked with byte j mod 16 of the encrypted counter block j/16 + 1 |
| CcmHeaders.TagAt | common/cmm_aes.c:574-600 | the MIC is masked with the encrypted counter block 0 |
| Crc.TableIs | common/cmm_wep.c:40-106 | every table entry is eight steps of the reflected division by the CRC-32 polynomial |
| Crc.CalcIsBitwise | common/cmm_wep.c:463-472 | the table CRC is the bit-at-a-time CRC of RFC 1662 appendix C.3 on every message |
| Crc.CalcConcat | common/cmm_wep.c:463-472 | the CRC composes over concatenation |
| Crc.OneByteDetected | common/cmm_wep.c:463-472 | messages of one length that differ in exactly one byte have different CRCs |
| Crc.CalcFcs32 | common/cmm_wep.c:463-472 | the loop computes the CRC of its buffer |
| CrcKnown.CheckValue | common/cmm_wep.c:463-472 | the CRC-32 of the digits 1 to 9 is CBF43926 |
| CrcKnown.ResidueIs | common/cmm_wep.c:463-472 | the CRC over any message and its complemented CRC, lowest byte first, is DEBB20E3, as appendix C.3 of RFC 1662 has it |
| CrcKnown.AcceptedLeavesResidue | common/cmm_wep.c:220-257 | whatever the receiver accepts leaves that constant |
| Rc4.ArcFour.Init | common/cmm_wep.c:279-307 | the state is the key schedule of the key and a permutation of 0 to 255 |
| Rc4.ArcFour.Byte | common/cmm_wep.c:325-345 | the next byte of the stream and the next state |
| Rc4.ArcFour.Encrypt | common/cmm_wep.c:366-409 | the buffer is masked with the stream and the state moved on, in place or shifted down in one buffer as well |
| Rc4.ArcFour.WpaEncrypt | common/cmm_wep.c:427-440 | the same from byte 256 of the stream on |
| Rc4.ScheduleKeeps | common/cmm_wep.c:279-307 | the key schedule keeps the state a permutation at each of its steps |
| Rc4.AfterKeeps | common/cmm_wep.c:325-345 | the state stays a permutation for ever |
| Rc4.CryptConcat | common/cmm_wep.c:399-409 | encrypting in two calls is encrypting in one |
| Rc4.CryptTwice | common/cmm_wep.c:366-409 | decryption is encryption again |
| Rc4Known.SecondByteIsZero | common/cmm_wep.c:325-345 | from a fresh state with 0 in entry 2 and not 2 in entry 1 the second byte given out is 0 |
| Rc4Known.IdentityStream | common/cmm_wep.c:325-345 | the stream of the identity state begins 2, 5, 7, 13, 13 |
| Rc4Known.EveryStateHasKey | common/cmm_wep.c:279-307 | for every permutation there is a key of 256 bytes whose schedule ends in it |
| Rc4Known.IdentityKey | common/cmm_wep.c:279-345 | the key 0, 0, 255, 254, ..., 2 exchanges nothing, and its stream begins 2, 5, 7, 13, 13 |
| Rc4Known.KeyTwice | common/cmm_wep.c:279-307 | a key and the key written twice have the same schedule |
| Wep.Adapter.InitWepEngine | common/cmm_wep.c:139-167 | CRC and cipher at the start for the IV and the key, and the IV and key number in the frame |
| Wep.Adapter.EncryptData | common/cmm_wep.c:190-198 | the chunk is encrypted and absorbed into the CRC |
| Wep.Adapter.SetIcv | common/cmm_wep.c:491-499 | the complemented CRC, encrypted, little-endian |
| Wep.Adapter.SoftDecryptWep | common/cmm_wep.c:220-257 | the payload is decrypted four bytes down and the result is true exactly if the CRC fits; a key of length 0 changes nothing |
| Wep.SealedIs | common/cmm_wep.c:139-198 | however the payload is cut into calls, it is sealed as if in one piece |
| Wep.WepRoundTrip | common/cmm_wep.c:139-257 | every frame sent is accepted under its key number with its payload restored, for every key, IV, payload and way of cutting it |
| Wep.OneByteRejected | common/cmm_wep.c:220-257 | a good frame with one byte of its encrypted part changed is rejected |
| Wep.KeyIdReadBack | common/cmm_wep.c:139-225 | the receiver reads the key number the sender wrote |
| EapolKeyData.ParseDelivers | common/cmm_wpa.c:2181-2336 | the parser finds the key the sender put in, for WPA2 message 3 and group message 1 |
| EapolKeyData.WalkPassesElement | common/cmm_wpa.c:2105-2160 | the element walk passes the sender's element, stops at the encapsulation, and has found the network exactly if the receiver expects it |
| EapolKeyData.OpensSealed | common/cmm_sanity.c:1351-1378 | decryption undoes both ways of encrypting key data, padding or not |
| EapolKeyData.GtkDelivery | common/cmm_wpa.c:2545-2714 | end to end: for every PTK, GTK, key number, element, IV and either cipher the station parses the sender's key under the sender's number |
| EapolKeyData.MismatchRejected | common/cmm_wpa.c:2198-2212 | a WPA2 message 3 whose element is not the one expected is rejected |
| EapolKeyData.IndexRejected | common/cmm_wpa.c:2277-2282 | a group message with a key number outside 1 to 3 is rejected |
| EapolKeyData.GroupInstallsIff | common/cmm_wpa.c:2234-2291 | exactly when a group message installs a key, for every buffer, and that it is the 32 bytes that follow; under WPA2 the length byte is any but 6 to 21 |
| EapolKeyData.ShortEncapsulationInstalled | common/cmm_wpa.c:2251-2256 | an input on which the length test fails to reject: with a length byte of 0 the 8-bit difference is 250 |
| GroupKey.InsertRsnIe | common/cmm_wpa.c:3075-3135 | the element of the right kind, with its length, written at the offset |
| GroupKey.ConstructEapolKeyData | common/cmm_wpa.c:2545-2714 | the key data field, its length and the body length are those of the content; messages without key data are left alone |
| GroupKey.CheckRsnIeLoop | common/cmm_wpa.c:2105-2160 | the loop computes the element walk: whether one matched, and where it stopped |
| GroupKey.Station.ParseEapolKeyData | common/cmm_wpa.c:2181-2336 | accepts exactly what the parser accepts, and installs GTK, default key and shared key, or changes none of them; the shared key is bytes 0 to 15 of the GTK, its RxMic bytes 16 to 23 and its TxMic bytes 24 to 31 |
| GroupKey.Station.OpenKeyData | common/cmm_sanity.c:1351-1378 | the buffer holds the decrypted key data for either cipher |
| GroupKey.Station.TakeKeyData | common/cmm_sanity.c:1345-1408 | which messages are decrypted, copied, parsed or passed over, and what the station installs, the shared key byte by byte |
| GroupKey.HandshakeDelivers | common/cmm_sanity.c:1345-1408 | what the sender leaves in the message meets what the receiver demands, and is delivered whatever lies behind it in the receiver's buffer |
| MacTable.MacTab.constructor | common/cmm_data.c:1723-1895 | zeroed entries are an empty, valid table |
| MacTable.MacTab.Lookup | common/cmm_data.c:1700-1721 | walking the chain finds nothing exactly if no entry has the address, and with distinct addresses the entry a linear search finds |
| MacTable.MacTab.FindVacancy | common/cmm_data.c:1739-1760 | the slot search finds the first vacant slot from the first client on |
| MacTable.MacTab.LinkIn | common/cmm_data.c:1876-1891 | the entry becomes the last of its chain and no other bucket changes |
| MacTable.MacTab.Insert | common/cmm_data.c:1723-1895 | the first vacant slot holds the address, is counted and on its chain; a fresh address is then found there, every other where it was; without a vacant slot nothing changes and there is no entry |
| MacTable.MacTab.Unlink | common/cmm_data.c:1943-1968 | the entry is bypassed by its predecessor or by the bucket, wherever it stood |
| MacTable.MacTab.Delete | common/cmm_data.c:1903-2003 | if the slot held that address and none is there twice, the address is gone, every other is found where it was, and one fewer is counted; otherwise nothing changes; the chains stay right |
| MacTable.MacTab.ChainsPartition | common/cmm_data.c:1876-1985 | every entry in use is on the one chain of its address, and nothing else is on any chain, nor twice |
| MacTable.RunKeepsDistinct | common/cmm_data.c:1723-2003 | after any inserts of fresh addresses and deletes no address is in the table twice |
| MacTable.MatchIsFirst | common/cmm_data.c:1700-1721 | with distinct addresses an entry that has the address is the first that does |
| MacTable.DeleteRemoves | common/cmm_data.c:1937-1985 | a delete whose slot holds the address removes it and leaves every other address where it was found; any other delete changes nothing |
| MacTable.InsertAdds | common/cmm_data.c:1723-1895 | an insert of a fresh address puts it in the first vacant slot and leaves every other where it was found; with no vacant slot it changes nothing |
| MacTable.PresentIff | common/cmm_data.c:1723-2003 | after any inserts of fresh addresses and deletes an address is present exactly if the last operation that took effect on it was an insert |
| BaSessions.ClaimKeeps | common/ba_action.c:479-551 | giving an entry to a peer and TID keeps counters, pointers and bits in agreement |
| BaSessions.AnswerKeeps | common/ba_action.c:553-619 | the peer's positive response keeps them in agreement |
| BaSessions.ReleaseKeeps | common/ba_action.c:785-851 | giving an entry back keeps them in agreement, whether it is in use or not |
| BaSessions.SetUpKeeps | common/ba_action.c:479-551 | every set-up keeps them in agreement, refused ones and those of a full table included |
| BaSessions.TimedOutKeeps | common/ba_action.c:1062-1116 | the time-out of any entry keeps them in agreement |
| BaSessions.RequestedKeeps | common/ba_action.c:621-711 | a peer's request keeps them in agreement, new, repeated or refused |
| BaSessions.StepKeeps | common/ba_action.c:479-1116 | each event keeps both tables in agreement |
| BaSessions.RunAgrees | common/ba_action.c:479-1116 | after any run: the counters count, index arrays and entries invert each other, and a bit is set if and only if that session is answered |
| BaSessions.TornDownClears | common/ba_action.c:854-1032 | a tear-down clears index and bit of its own peer and TID and of no other |
| BaSessions.FullTableUnchanged | common/ba_action.c:750-782 | an allowed set-up of a new session leaves the table unchanged if and only if the table is full |
| BaSessions.AtMostSevenRequests | common/ba_action.c:1087-1103 | in every run a waiting session has sent at most 7 requests |
| BaSessions.UnansweredGivenBack | common/ba_action.c:1062-1116 | a session never answered sends at each of the first seven time-outs and is given back at the eighth |
| BaTable.BaTables.constructor | include/rtmp.h:1234-1314 | the zeroed tables are in agreement |
| BaTable.BaTables.AllocOriEntry | common/ba_action.c:750-782 | the first free entry from 1 on, counted; with every entry taken the last one, uncounted and without an index |
| BaTable.BaTables.OriSessionSetUp | common/ba_action.c:479-551 | the arrays after a set-up are the specified tables; a new session is in a free entry with the own window limit, token 1, the sequence and the time-out given, and its timer runs; no other entry changes |
| BaTable.BaTables.OriSessionAdd | common/ba_action.c:553-619 | the same for the peer's response; an answered session has the smallest of its window, the peer's size in 8 bits and the limit of the hardware, the sequence and time-out given, and no other entry changes |
| BaTable.BaTables.OriSetupTimeout | common/ba_action.c:1062-1116 | the same for the timer, which sends exactly while the token is below 8 |
| BaTable.BaTables.FreeOriEntry | common/ba_action.c:785-821 | the entry given back with index, bit and both counters |
| BaTable.BaTables.OriSessionTearDown | common/ba_action.c:854-942 | the same for a tear-down, and when a DELBA is sent |
| BaTable.BaTables.AllocRecEntry | common/ba_action.c:714-748 | the first free entry, counted, or nothing at the session limit |
| BaTable.BaTables.RecSessionAdd | common/ba_action.c:621-711 | the tables after a request, whether it is granted, the fields of the session granted, and an empty reordering list where the code asserts one |
| BaTable.BaTables.FreeRecEntry | common/ba_action.c:824-851 | the entry given back with index and counter |
| BaTable.BaTables.RecSessionTearDown | common/ba_action.c:944-1032 | the tables after a tear-down with its bitmap, an empty reordering list and a reset last number, and when a DELBA is sent |
| BaTable.BaTables.Reorder | common/ba_action.c:1640-1777 | a step of the reordering code on an answered session, whatever it does to the list and the last number, leaves the tables alone |
| BaTable.BaTables.SessionTearDownAll | common/ba_action.c:1034-1045 | afterwards the peer has no session and no bit in either direction, and every other peer and the entries of its sessions are as they were |
| Bitmaps.BitsSet | common/ba_action.c:582-586 | setting and clearing the mask of a TID changes the bit of that TID and of no other |
| Md5.Rounds | common/crypt_md5.c:127-220 | the sixty-four macro calls are the sixty-four operations of RFC 1321 section 3.4, in order |
| Md5.FourTurns | common/crypt_md5.c:38-57 | four macro calls bring the turning registers back to their places |
| Md5.Md5Ctx.Init | common/crypt_md5.c:83-91 | the context of the empty message |
| Md5.Md5Ctx.HashBlockBuffer | common/crypt_md5.c:109-225 | the chaining value after the block, and an empty block |
| Md5.Md5Ctx.Append | common/crypt_md5.c:246-272 | from the context of a message to that of the message with the bytes appended: whole blocks hashed, fewer than 64 bytes buffered, zeros after them |
| Md5.Md5Ctx.End | common/crypt_md5.c:292-318 | the digest, with one padding block or two |
| Md5.RtMd5 | common/crypt_md5.c:337-348 | the one-shot digest |
| Md5Known.EmptyDigest | common/crypt_md5.c:337-348 | the digest of the empty message is d41d8cd98f00b204e9800998ecf8427e |
| Md5.InPieces | common/crypt_md5.c:246-318 | for every way of cutting a message into calls the digest is that of the whole |
| Md5.SomeAppended | common/crypt_md5.c:255-270 | bytes that do not fill the block extend the buffered tail |
| Md5.FillingAppended | common/crypt_md5.c:255-270 | bytes that fill it add one hashed block and leave none buffered |
| Md5.Finished | common/crypt_md5.c:292-318 | the digest of a message from its chaining value and its unhashed tail |
| Michael.TkipKeyInfo.SetMicKey | common/cmm_tkip.c:236-248 | the state of the empty message under the key |
| Michael.TkipKeyInfo.AppendOne | common/cmm_tkip.c:269-292 | a byte into the accumulator, or a word into the state at the fourth |
| Michael.TkipKeyInfo.AppendAll | common/cmm_tkip.c:314-325 | all bytes of a buffer, one by one |
| Michael.TkipKeyInfo.GetMic | common/cmm_tkip.c:345-362 | the padding appended until the accumulator is empty, and the state as eight bytes |
| Michael.AppendConcat | common/cmm_tkip.c:314-325 | appending in two calls is appending in one |
| Michael.BufferedIs | common/cmm_tkip.c:269-325 | after any message the state is that of its whole words, with the other bytes in the accumulator |
| Michael.FinishIsMic | common/cmm_tkip.c:345-362 | the byte-wise computation gives the word-wise MIC of IEEE 802.11i-2004 section 8.3.2.3, for every message |
| MichaelKnown.EmptyMic | common/cmm_tkip.c:345-362 | the MIC of the empty message under the zero key is 82925c1ca1d130b8 |
| MichaelKnown.LetterMic | common/cmm_tkip.c:345-362 | that of the message M under the key 82925c1ca1d130b8 is 434721ca40639b3f |
| Michael.InitMicEngine | common/cmm_tkip.c:433-451 | destination, source and priority under the key |
| Michael.CalculateMicValue | common/cmm_tkip.c:610-668 | the MIC of an outgoing packet covers addresses, priority, the LLC header if there is one, and payload |
| Michael.CompareMicValue | common/cmm_tkip.c:477-517 | accepts if and only if the last eight bytes are the MIC of those before |
| Michael.SentIsAccepted | common/cmm_tkip.c:477-668 | what the sender computes over a packet that is not of a VLAN the receiver accepts |
| Michael.ChangedIsRejected | common/cmm_tkip.c:477-517 | a packet changed within one word of what the MIC covers is rejected |
| Michael.BlockInjective | common/cmm_tkip.c:269-292 | the block function is injective |
| Michael.OneWordDetected | common/cmm_tkip.c:269-362 | messages of one length that differ within one word have different MICs |
| TkipSbox.TkipIsAes | common/cmm_tkip.c:45-115 | the two tables are twice and three times the AES S-box on every byte |
| TkipMix.TkipSboxIs | common/cmm_tkip.c:677-690 | the S-box of an unreduced index is the 16-bit S-box of its low half |
| TkipMix.Rotr1Is | common/cmm_tkip.c:692-706 | the rotation of an unreduced value is the 16-bit rotation of its low half |
| TkipMix.Step2Is | common/cmm_tkip.c:762-768 | an unreduced sum of phase 2 has the reduced sum as its low half, and stays below twice 65536 |
| TkipMix.Step3Is | common/cmm_tkip.c:770-775 | the same for the rotation half, below three times 65536 |
| TkipMix.MixPhase1 | common/cmm_tkip.c:731-752 | the eight rounds are those of phase 1 in 16-bit arithmetic |
| TkipMix.MixPhase2A | common/cmm_tkip.c:754-768 | the S-box half of phase 2, unreduced: the low halves are the reduced words and no sum exceeds 2*65535 |
| TkipMix.MixPhase2B | common/cmm_tkip.c:770-775 | the rotation half: the same, and no sum exceeds 3*65535 |
| TkipMix.TkipMixKey | common/cmm_tkip.c:708-806 | the RC4 key is that of fully reduced 16-bit arithmetic, IEEE 802.11i-2004 section 8.3.2.5, for every key, address and counter |
| TkipKnown.GuardBits | common/cmm_tkip.c:785 | the second byte of the RC4 key has bit 5 set and bit 7 clear and its other bits from the counter |
| TkipKnown.PublishedKey | common/cmm_tkip.c:708-806 | the RC4 key of the first example of IEEE 802.11i-2004 is 00 20 00 33 ea 8d 2f 60 ca 6d 13 74 23 4a 66 0b |
| Beacon.RemainRightIff | common/cmm_mac_usb.c:1075-1083 | the remainder is that of the 64-bit timer if and only if the number of carries out of 32 bits is a multiple of the odd part of the period |
| Beacon.OddPartOfPeriod | common/cmm_mac_usb.c:1080 | the odd part of the period in microseconds is that of `BeaconPeriod` |
| Beacon.RightAlwaysIff | common/cmm_mac_usb.c:1075-1083 | every timer value is reduced correctly if and only if the period is a power of two |
| Beacon.FirstFailure | common/cmm_mac_usb.c:1075-1083 | any other period is right below the first upper half at which the sum can overflow, and there exactly while it does not |
| Beacon.HundredUnits | common/cmm_mac_usb.c:1075-1083 | for 100 time units that upper half is 2^20 - 24, and the lower half 98304 or more into the period |
| Beacon.RemainRight | common/cmm_mac_usb.c:1075-1083 | it is right whenever the whole sum fits in 32 bits |
| Beacon.RemainWrong | common/cmm_mac_usb.c:1075-1083 | at that timer value the code computes 0 for a remainder of 4096 |
| Beacon.DeltaLands | common/cmm_mac_usb.c:1083-1084 | the wait is 1 to the period, and lands on a multiple of the period if and only if the number of carries is a multiple of its odd part |
| Beacon.RemainStands | common/cmm_mac_usb.c:974-975 | the constant kept at start-up is 2^32 less a multiple of the period |
| Beacon.BeaconTimer.constructor | common/cmm_mac_usb.c:936-981 | the constant fits the period |
| Beacon.BeaconTimer.UpdateExec | common/cmm_mac_usb.c:1075-1098 | the wait computed by the 32-bit steps lands on a beacon under exactly that condition, and what the timer is set to |

## Left out

- ReorderOrder.RunDeliversInOrder: assumes of the transmitter that a number arrives within 2048 of the last indicated one, which 12 bits cannot check.
- ReorderConservation.RunConserves: is about one session; what other sessions do to the pool is accounted for by `ReorderSystem.RunConservesAll`.
- ReorderByNumber.ByNumberTimeout: the clock has 32 bits, as `unsigned long` has on the hosts of the driver; after more than half a turn of it without a frame a timeout is missed, as stated; the tick rate is below 2^32.
- ReorderHeap.Adapter.Announce: the conversion of a frame to 802.3 and the parts of an A-MSDU are one entry in the log.
- ReorderHeap.Adapter.IndicateAmpdu: the field `rcvSeq`, which nothing reads, and the second flush that the legacy path makes with a clock of its own are not modelled; a frame of a peer without a session goes straight up.
- ReorderHeap.Adapter.BlockAckReq: the length and range checks before the sequence test are not modelled.
- BaTable.BaTables.OriSessionSetUp: the policy, transmit-mode and capability tests are one flag; the timer is a flag that says it runs, and the frames sent are not built.
- BaTable.BaTables.RecSessionAdd: of the reordering list only its length is in this table; the list is in `ReorderHeap`, whose steps appear here as `Reorder`. The ADDBA response is not built. An entry never used has a last number of 0, since the start-up only zeroes it.
- BaTable.BaTables.RecSessionTearDown: the packets that the flush passes up are in `ReorderHeap`.
- BaTable.BaTables.OriSetupTimeout: a timer that runs out although it was cancelled, or whose session was answered in the meantime, is not modelled.
- AesContext.Context.SetKey: the key tables filled at the first call are functions, since their content does not depend on the call.
- KeyWrap.AesGtkKeyWrap: lengths from 512 on, which do not fit the local buffer.
- KeyWrap.AesGtkKeyUnwrap: the last eight bytes it writes are whatever its local buffer held, and the contract says nothing of them.
- Ccm.SoftDecryptAes: frames with a QoS field are excluded, since the header length of the code does not count it, and so are frames too short for their headers and MIC, for which the payload length wraps around; big-endian builds and the option for consistent packet numbers are left out.
- Ccm.ConstructCtrPreload: the branch for frames with a QoS field.
- Ccm.ConstructMicIv: the branch for frames with a QoS field.
- Ccm.ConstructMicHeader2: the branches for frames with a QoS field.
- Wep.Adapter.InitWepEngine: the random bytes of the IV are a parameter.
- GroupKey.CheckRsnIeLoop: elements that run over the end of the key data are excluded, since the code then reads past it.
- GroupKey.InsertRsnIe: no PMKID list, which its caller never passes.
- GroupKey.Station.TakeKeyData: the replay counter and MIC checks come before it and are not modelled; HMAC and SHA-1 are not part of this model. The buffer has room for the 32 bytes that are copied whatever the length of the key.
- GroupKey.Station.ParseEapolKeyData: the cipher algorithm of the shared key and the tables of the hardware are left out, and elements that run over the end of the key data are excluded.
- GroupKey.Station.OpenKeyData: key data longer than its field, and wrapped data shorter than the register A, for which the code reads past its buffers, are excluded.
- MacTable.MacTab.Insert: of an entry only what the table itself reads is modelled, and entries of direct links are left out, since a lookup stops at them.
- MacTable.MacTab.Delete: `MacTableReset`, which clears entries without unlinking them, is left out.
- Md5.RtMd5: as for `Md5Ctx.Append`.
- Md5.Md5Ctx.Append: the length of one call is below 2^32 - 64, beyond which the running index of the loop would wrap.
- Michael.SentIsAccepted: for a VLAN packet sender and receiver cover different bytes, and nothing is stated.
- TkipMix.TkipMixKey: the bounds are on the sums; the value a sum is combined with by exclusive or before it is cut to a byte may be larger.
- Beacon.BeaconTimer.UpdateExec: the registers are parameters; resynchronising the beacon time before they are read, and the other fields of the beacon, are left out.
- `ba_reordering_resource_release`, which frees the pool at shutdown.
- Spin locks, packet buffers, allocation failure, register access, wireless events and debug output: every entry point is one atomic step.
- The USB bulk-out ring, `common/crypt_dh.c`, the authenticator's half of the handshake, profile parsing and the user interface.
