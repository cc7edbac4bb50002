# jay: address claiming, the network index, the transport protocol and the wire format

jay is a header-only C++ implementation of SAE J1939. This project models its core in Dafny and
proves what that core keeps over whole runs.

| part | files |
|---|---|
| words, NAME, header and address frames on the wire | Words, NameCodec, NameObject, HeaderCodec, HeaderObject, Wire |
| the network index (NAME to address and back) | Types, Network, NetworkObject |
| one address claimer: machine, timer, posted events | AddressMachine, EventLaws, AddressClaimer, ClaimerRuns, CannotClaims, StuckClaims, CancelledStarts, Contention |
| any number of claimers on one bus, early and late | Bus, BusStations, BusReplies, BusUniqueness, QuietJoins |
| why the bus theorem needs its assumptions | BusLimits, LateStations, ForestalledClaims |
| the transport protocol (BAM and RTS/CTS) | Frames, Transport, TransportLaws, TransportObject, TransportRuns, Reassembly, Reception, Interleaving, Announcements, Segmentation, EndToEnd, Duplex, Sweeping |

Every object the original updates in place has two forms here. A value with functions on it is
the specification that the theorems are about. A class has the original's fields and statements,
and each of its methods is proved to compute that function. The classes are `Network`,
`AddressClaimer`, `TransportProtocol`, `FrameHeader` and `DeviceName`. The specification functions
are pinned in turn by laws that do not mention how they compute: `EventLaws` says what every event
does in every state, and `TransportLaws` what every frame, send and sweep does on a bus that may
refuse frames, in bytes and milliseconds.

## What is modelled how

- Asynchronous work is cut into atomic steps: a frame arrives, one posted event runs, the timer
  expires, the application calls. Steps interleave in any order. `post` is a first-in-first-out
  queue and the deadline timer is one cell that a new wait overwrites.
- The bus is one ordered log. Every station has read up to some point of it and may lag behind at
  will. Stations are there from the start or join at any time, having missed what was sent before.
- Time is an integer argument. The bus may refuse a frame: the transport carries the list of
  answers it will get, and once that list is used up every frame is accepted.
- Integers are unbounded, so every 8-bit counter wraps explicitly. NAMEs and identifiers are bit
  vectors in the codec modules and numbers elsewhere; `Words` and `NameCodec` prove that the two
  compare alike.
- A random retry runs the action that stores a preferred address although its event carries none;
  the search then starts from the value-initialised address 0.

## What the proofs show about the code

- Two stations never hold the same address, for any number of stations, early or late, any
  preferences and any self-configuration bits (`NoTwoHoldersShareAnAddress`). This needs NAMEs that
  differ in their lower 63 bits and three things about time and order, each of which a run shows to
  be needed:
  - A claim timer expires only after every station that may claim has dealt with the claim
    (`EarlyTimersShareAnAddress`).
  - The start delay of a late station expires only after the stations on an address have dealt with
    its request and it has read an answer of each. A late station that lags behind the answer comes
    to share the address of a stronger holder (`LaggingStationSharesAnAddress`).
  - While it waits, a late station reads no claim of an address that a stronger name had claimed
    before it joined, unless that was repeated since. Reading all answers is not enough: such a
    claim leaves a reverse entry behind, and the answer then clears an address that is in use
    (`ForestalledClaimSharesAnAddress`, `InsertFreesAnotherExactly`).
- For the third condition it is sufficient that stations join only while the bus is settled and all
  NAMEs agree in bit 63 (`QuietJoinsKeepHoldersApart`).
- A name that moves leaves its old address in the reverse map. The index then agrees in one
  direction only, and a third party who takes the old address costs the mover the address it
  really holds (`LeftBehindEntryLosesHeldAddress`).
- After `remove` a reverse entry may name nobody; displacing it erases address 0 from the network
  although its holder has no part in it (`RemovedNameFreesZero`, `DisplacingUnknownFreesZero`).
- A holder never answers a weaker claim on its address, because the network refuses that claim
  before the machine sees it (`HolderHearsOnlyStrongerClaims`).
- A claim timeout is ignored exactly when the address cannot be taken and the name is not in the
  network (`TimeoutGap`). The claimer is then stalled: it stays in the claiming state without a
  timer and deaf to new starts. Over every run it is stalled if and only if this happened and it has
  heard no stronger claim on its address since (`StalledExactly`). A name that has once held an
  address is immune (`RegisteredExactly`, `RegisteredNeverStalls`).
- On address 255 no such claim comes, so a claimer stalled there is stuck for good, without a
  cannot-claim (`StuckForever`). Over every schedule of ordinary frames, events, expiries and
  starts it gets there if and only if an address search, at its start or after a loss, found the
  address taken by a stronger fixed name while its own fixed name was not in the network, and a
  timer expired later (`StuckExactly`). One foreign claim before the start is enough
  (`StuckIsReached`), and so is plain contention of two fixed names (`ContentionGetsStuck`). If the
  stronger name is self-configurable, the claimer stalls on the preferred address instead.
- A global request that runs during the start delay cancels the start, because the cannot-claim
  delay takes over the one timer. Two stations that start together can do this to each other. A
  claimer that is not started again then never claims, self-configurable or not: it leaves the
  no-address state if and only if the start delay expires before any global request has run and the
  network is not full (`RequestCancelsStart`, `StartSucceedsExactly`).
- A broadcast of 1779 to 1785 bytes sends all 255 packets and still returns false, because the
  packet counter wraps (`BroadcastIsSent`).
- After an RTS/CTS transfer of up to 254 packets the sender also emits an end-of-message frame,
  addressed to itself; with 255 packets its counter has wrapped and it does not.
  The receiver's own end-of-message frame finds no session at the sender, which reports an error
  and sends an abort (`EomArrives`, `TransferDeliversOnce`).
- A start frame whose packet count runs past its length, or a request with window 0, is accepted;
  some later packet then leaves the buffer or divides by zero, and no other start frame can do this
  (`FairExactly`).
- A receive session is touched by nothing but its own packets, a new start frame for it, and a sweep
  more than 1250 ms after the last packet it took; everything else the peer, other nodes and the
  application do leaves it alone (`AsideSpares`, `ReceptionGoesOn`, `ReceptionFromStart`).
- Two opposite transfers disturb each other's bookkeeping and nothing else: the end-of-message frame
  of one marks the receive session of the other, or is answered with an abort that marks its sending
  session, and both messages arrive all the same in every schedule (`BothDeliver`).
- Aborts and end-of-message frames are always addressed to the source of the session, so those of a
  sending session, and the abort for a clear-to-send without a session, go to the node itself
  (`WindowLaw`, `RoundLaw`, `ClearToSendLaw`).
- A message for one destination is delivered with the destination in the low byte of its PGN, so
  a broadcast-format PGN survives only if that byte happens to be the same (`DeliveredPgn`).
- The ten-minute session clean-up is never reached (`CleanUpIsDead`).
- The header constructor does not cut a PGN to 18 bits: the next three bits end up in the
  priority (`MakeUnpacks`).
- NAMEs that differ only in bit 63 compare equal and hash apart (`EqualNamesDifferOnlyInBit63`).

Where comments and code disagree the model follows the code. The comment on `insert` says that
address 255 clears a known name, that idle is 255 and that repeating an address returns false; the
code clears on 254, returns false on 255 and true on a repetition. The comment on the header constructor says that the priority is masked; the code clamps it.

## Model

| member | source | states |
|---|---|---|
| NetworkIndex.RunKeepsIndex | include/jay/network.hpp:116-231 | over every run of insert, release and clear: reverse keys are unicast and map to registered names, forward values are at most 254, a forward unicast address maps back, and no two names share an address |
| NetworkIndex.InsertInserts | include/jay/network.hpp:116-189 | entry by entry, an insert either pairs name and address and idles the displaced name alone, or idles the name, or only registers it |
| NetworkIndex.InsertedKeepsIndex | include/jay/network.hpp:116-189 | anything that changes the maps in one of those three ways keeps the index invariant |
| NetworkIndex.InsertAgreesWithClaimable | include/jay/network.hpp:161-263 | an insert on a unicast address succeeds if and only if the address is claimable or already recorded for the name; success pairs both ways and leaves all other names alone, a refusal only registers |
| NetworkIndex.InsertKeepsTwoWayExactly | include/jay/network.hpp:155-189 | full agreement of the two maps survives an accepted insert if and only if the name was not holding another unicast address |
| NetworkIndex.RemoveKeepsIndexExactly | include/jay/network.hpp:211-221 | remove keeps the index if and only if the name has left no reverse entry behind |
| NetworkIndex.LeftBehindEntryLosesHeldAddress | include/jay/network.hpp:126-189 | a concrete run in which a left-behind entry frees an address its holder still uses |
| NetworkIndex.InsertFreesAnotherExactly | include/jay/network.hpp:130-189 | an accepted claim frees an address other than its own if and only if the name it displaces has moved on to that address |
| NetworkIndex.DisplacingUnknownFreesZero | include/jay/network.hpp:127-189 | an accepted claim that displaces a name no longer registered erases address 0, whoever is on it |
| NetworkIndex.RemovedNameFreesZero | include/jay/network.hpp:127-221 | a run of insert and remove that gets there and costs a third party address 0 |
| NetworkIndex.SearchIsFirst | include/jay/network.hpp:390-398 | the search returns the smallest usable address in its range and 255 exactly when there is none |
| NetworkIndex.FindAddressIsFirstInCyclicOrder | include/jay/network.hpp:356-372 | a self-configurable name gets the first usable address in the order preferred..253, 0..preferred-1, and 255 only if none of the 254 is usable |
| NetworkIndex.FindAddressOfFixedName | include/jay/network.hpp:356-366 | a fixed name gets its preferred address or 255, the latter exactly when a stronger fixed name is recorded there |
| NetworkIndex.FullIffNoAddressFree | include/jay/network.hpp:343-348 | the count test means that every one of the 254 unicast addresses is a reverse key |
| NetworkIndex.SearchSucceedsUnlessFull | include/jay/network.hpp:343-398 | on a network that is not full the search of a self-configurable name succeeds with a usable unicast address |
| NetworkObject.Network.Insert | include/jay/network.hpp:116-189 | the statements of insert compute the specified maps, return whether the claim was accepted, and notify exactly on a new pairing |
| NetworkObject.Network.Idle | include/jay/network.hpp:127-133 | the idling helper, including the address 0 that the lookup creates for an unknown name |
| NetworkObject.Network.Release | include/jay/network.hpp:195-205 | releasing idles the name and drops its reverse entry |
| NetworkObject.Network.Remove | include/jay/network.hpp:211-221 | removing drops the name and its reverse entry |
| NetworkObject.Network.Clear | include/jay/network.hpp:226-231 | clearing empties both maps |
| NetworkObject.Network.SearchFrom | include/jay/network.hpp:390-398 | the counting loop computes the specified search |
| NetworkObject.Network.Find | include/jay/network.hpp:356-372 | the address search of fixed and self-configurable names |
| AddressMachine.RowsAreExclusive | include/jay/address_state_machine.hpp:688-725 | a row is enabled if and only if it is the one the machine takes: the order of the table never matters |
| AddressMachine.ContestedClaimHasOneRow | include/jay/address_state_machine.hpp:198-410 | a contested claim enables exactly one of priority, loss and failure, by rank and by whether the network is full |
| AddressMachine.TimeoutGap | include/jay/address_state_machine.hpp:416-443 | a claim timeout enables no row if and only if the address is not claimable and the name is unregistered |
| StuckClaims.StalledExactly | include/jay/address_state_machine.hpp:416-443 | over every run a claimer is in the claiming state without a timer if and only if a claim timeout found its address not claimable and its name unregistered, and no lost claim was run since |
| StuckClaims.RegisteredExactly | include/jay/address_claimer.hpp:196-211 | over every run from power-up a claimer is in its own network if and only if it has held an address |
| StuckClaims.RegisteredNeverStalls | include/jay/address_state_machine.hpp:416-443 | once it is there, no run stalls it |
| StuckClaims.StuckForever | include/jay/address_state_machine.hpp:702-708 | over every run without a claim from address 255 a claimer stalled on 255 stays there: it sends nothing but claims of 255, no cannot-claim, and neither a start nor a timer moves it |
| StuckClaims.StuckExactly | include/jay/network.hpp:356-366 | over every schedule of such inputs a claimer ends stuck on 255 if and only if a search at its start or after a loss was blocked by a stronger fixed name on a network that is not full, its own fixed name being unregistered, and a timer expired later; equivalently, if and only if a claim timeout found it unregistered on 255 |
| StuckClaims.LostClaimSticksExactly | include/jay/address_state_machine.hpp:701-715 | on a network that is not full, a loss and then the timer leave the claimer on 255 if and only if the lost address belongs to a stronger fixed name, it is fixed itself and its name is not in the network |
| StuckClaims.UndisturbedStartSticksExactly | include/jay/address_claimer.hpp:146-161 | the same for a start on such a network when nothing happens between the two delays |
| StuckClaims.StuckIsReached | include/jay/address_state_machine.hpp:416-443 | from power-up, one claim of a stronger name on the preferred address, then a start and both delays, leave a fixed name stuck on 255 if that name is fixed and stalled on the preferred address if it is self-configurable |
| StuckClaims.ContentionGetsStuck | include/jay/address_state_machine.hpp:586-610 | from power-up with an empty network, a fixed name that claims first and then hears the claim of a stronger fixed name ends stuck on 255 |
| CancelledStarts.IdleNeverClaims | include/jay/address_state_machine.hpp:695-699 | over every run without a new start, a claimer with no address and no start delay stays so and sends only requests and cannot-claims |
| CancelledStarts.StartSucceedsExactly | include/jay/address_claimer.hpp:146-161 | over every run without a new start, a started claimer leaves the no-address state if and only if its start delay expires before any global request has run, on a network that is not full |
| CancelledStarts.RequestCancelsStart | include/jay/address_claimer.hpp:248-263 | a global request heard and run during the start delay: whatever follows, short of a new start, nothing is claimed |
| EventLaws.RequestLaw | include/jay/address_state_machine.hpp:454-493 | on an address a request is answered with the claim of it if and only if it names that address or 255; without one a request to 255 starts the cannot-claim delay; nothing else changes |
| EventLaws.ClaimLaw | include/jay/address_state_machine.hpp:198-410 | a claim is ignored unless it is for the own address; there the stronger name repeats its claim, the other gives up what it holds and claims what its search finds, or is lost if the network was full |
| EventLaws.TimeoutLaw | include/jay/address_state_machine.hpp:416-443 | the end of the claim delay gains the address and records it, gives up and asks the bus, or does nothing, by the network alone |
| EventLaws.StartLaw | include/jay/address_state_machine.hpp:695-699 | a start without an address claims what the search from the preferred address finds, or starts the cannot-claim delay if the network is full; elsewhere it is ignored |
| EventLaws.RestartLaw | include/jay/address_state_machine.hpp:695-699 | a restart asks the bus unless the network is full, without an address only |
| EventLaws.RetryLaw | include/jay/address_state_machine.hpp:719-722 | a retry after a loss claims from address 0 on if the name is self-configurable and there is room, and otherwise returns to the no-address state with the cannot-claim delay running |
| EventLaws.ClaimHeardLaw | include/jay/address_claimer.hpp:122-129 | a received claim is inserted at once and reaches the queue unless a stronger name is on record for its address; from 254 always, from 255 only for an unknown name |
| EventLaws.QueueLaw | include/jay/address_claimer.hpp:136-175 | requests and starts are queued, a start only without an address and with its delay armed, and events run in the order in which they were queued |
| EventLaws.WaitLaw | include/jay/address_claimer.hpp:146-226 | an expired start delay shows the start to the machine, an expired claim delay the timeout |
| CannotClaims.DelayExactly | include/jay/address_claimer.hpp:248-263 | over every run the cannot-claim delay is running if and only if a global request without an address, a loss on a full network, a retry that is not allowed or a start on a full network has started it and no expiry, new start or retry has ended it since |
| CannotClaims.CannotClaimExactly | include/jay/address_claimer.hpp:248-263 | after every run the next step sends a cannot-claim if and only if it is an expiry while that delay is running; it then sends nothing else and posts a retry if and only if the name is self-configurable |
| AddressMachine.EventOutcome | include/jay/address_state_machine.hpp:688-725 | every event leaves the machine where it is, gains the claimed address, begins a claim or withdraws, each with its network, timer and at most one frame |
| AddressMachine.StepOutcome | include/jay/address_claimer.hpp:122-263 | the same for every step that shows an event to the machine, through queue and timer |
| AddressClaimerObject.AddressClaimer.ProcessClaim | include/jay/address_claimer.hpp:122-129 | a claim is inserted at once and posted only if the network accepts it |
| AddressClaimerObject.AddressClaimer.ProcessRequest | include/jay/address_claimer.hpp:136-139 | a request is posted |
| AddressClaimerObject.AddressClaimer.StartAddressClaim | include/jay/address_claimer.hpp:146-161 | starting re-enters the no-address state by a posted event and arms the start delay |
| AddressClaimerObject.AddressClaimer.TimerFires | include/jay/address_claimer.hpp:146-263 | an expired wait starts a claim, ends one, or sends cannot-claim and posts the retry |
| AddressClaimerObject.AddressClaimer.RunPosted | include/jay/address_claimer.hpp:165-175 | the oldest posted event goes through the machine |
| AddressClaimerObject.AddressClaimer.ProcessEvent | include/jay/address_state_machine.hpp:688-725 | the actions and callbacks of the selected row compute the specified machine step on the shared network object |
| AddressClaimerObject.AddressClaimer.BeginClaiming | include/jay/address_state_machine.hpp:586-610 | arms the timer, searches an address and claims it |
| ClaimerRuns.MachineAgreesWithNetwork | include/jay/address_claimer.hpp:122-211 | in every run without foreign use of its NAME: a pairing in the network means the machine holds that address; the machine holds an unpaired one only while a stronger claim waits in its queue; with an empty queue both agree exactly |
| ClaimerRuns.RunKeepsInv | include/jay/address_state_machine.hpp:688-725 | the invariant behind it over every interleaving of inputs |
| ClaimerRuns.LosingKeepsOthers | include/jay/address_claimer.hpp:204-211 | running an event, a loss included, leaves the forward and reverse entries of every other name as they were |
| ClaimerRuns.HolderHearsOnlyStrongerClaims | include/jay/address_claimer.hpp:122-129 | a holder is challenged by a contested claim if and only if the claimant is stronger; after a weaker one it sends, until the next frame arrives, exactly what it would have sent without it |
| ClaimerRuns.SelfConfigurableClaimsAreUnicast | include/jay/address_state_machine.hpp:586-725 | over every run a self-configurable claimer claims and holds unicast addresses only, cannot-claim aside |
| Contention.LossesAreBounded | include/jay/address_state_machine.hpp:701-722 | where every other name sticks to one address, a self-configurable claimer loses at most 254 times in a run of any length |
| Contention.RunTakes | include/jay/network.hpp:161-188 | each loss is paid for by one more address that others hold, and none of those is ever freed |
| Bus.ReadingRecords | include/jay/network.hpp:116-189 | reading a log entry keeps, for every address a stronger name has claimed since the station's knowledge begins, a name at least that strong on it |
| Bus.StrongerNameHasNotMoved | include/jay/address_claimer.hpp:122-129 | a stronger name found on a held address in the network cannot have given it up |
| BusStations.ActKeepsStation | include/jay/address_state_machine.hpp:688-725 | whatever event a station runs, its network stays true to the log, a holder still has every stronger claim it has read in its queue, and every address it gave up was lost to a stronger name |
| BusReplies.SettledIsAnswered | include/jay/address_state_machine.hpp:695-713 | a station on an address that has dealt with a global request has claimed its address since |
| BusReplies.StrongestStays | include/jay/address_state_machine.hpp:701-715 | the strongest claimant of a unicast address never leaves it |
| BusReplies.WakingRecords | include/jay/address_claimer.hpp:146-161 | with its answers read, a late station's network guards every address a stronger name ever claimed, also before it joined |
| BusUniqueness.ReachableInv | include/jay/address_claimer.hpp:106-263 | the bus invariant holds in every state that allowed moves reach, joining stations included |
| BusUniqueness.NoTwoHoldersShareAnAddress | include/jay/address_state_machine.hpp:688-725 | in every reachable state of a bus of any size, with stations joining at any time, two stations that hold addresses hold different ones |
| QuietJoins.QuietRunsAreAllowed | include/jay/network.hpp:356-372 | if stations join a settled bus and all NAMEs agree in bit 63, no station ever claims against an older stronger claim, so no forestalled claim is read |
| QuietJoins.QuietJoinsKeepHoldersApart | include/jay/address_state_machine.hpp:688-725 | under these conditions the two waits alone keep holders apart |
| BusLimits.EarlyTimersShareAnAddress | include/jay/address_claimer.hpp:146-226 | a run from power-up, requests included, after which two claim timers that expire at once leave both claimers on one address, for any names and address |
| LateStations.LaggingStationSharesAnAddress | include/jay/address_claimer.hpp:146-161 | a station joins, asks and is answered; if its start delay expires before it has read the answer, it and the stronger holder come to hold one address although every other wait is kept |
| LateStations.AnswerCanBeRead | include/jay/address_claimer.hpp:146-161 | the wait for the answers can be met |
| ForestalledClaims.ForestalledClaimSharesAnAddress | include/jay/network.hpp:130-189 | a run of three stations from power-up in which all waits are kept, also towards the late station, its request is dealt with and its answers are read and run, and one forestalled claim read in between puts two stations on one address |
| BusLimits.HeardClaimSucceeds | include/jay/address_claimer.hpp:218-226 | the wait of the claim timer can be met: a run from power-up, request included, reaches a held address |
| TransportRuns.PerformKept | include/jay/transport_protocol.hpp:148-537 | every operation keeps the sessions sound and the local address fixed |
| TransportRuns.HandleDtSteps | include/jay/transport_protocol.hpp:452-512 | a data packet changes its own session only, and delivers only when it is the wanted one and the last |
| Reassembly.PassesIffNext | include/jay/transport_protocol.hpp:464-487 | the three sequence tests admit a packet if and only if it is the next one wanted, wrap at 255 included |
| Reassembly.PacketsAreReassembled | include/jay/transport_protocol.hpp:452-512 | after any defined sequence of data packets the buffer is the accepted payloads in place and the message has been delivered exactly when all are in, once |
| Reassembly.OneMessagePerStart | include/jay/transport_protocol.hpp:398-512 | the same from any start frame on: at most one delivery, cut to the announced length; on fair terms (count within the length, window not 0) every such sequence is defined |
| Announcements.FairExactly | include/jay/transport_protocol.hpp:398-512 | those terms are fair if and only if every sequence of packets after the start frame stays inside the buffer and divides by no zero |
| Announcements.DeliveriesAreAnnounced | include/jay/transport_protocol.hpp:361-537 | over every defined run, whatever the peer mixes and whatever else happens, the messages delivered from it are by header and length among the start frames it sent, each start frame counted once |
| Reception.AsideSpares | include/jay/transport_protocol.hpp:361-537 | no frame of any node, local send or sweep in time changes the buffer, counter, terms, activity or existence of a receive session, unless it is one of its packets or a new start frame for it |
| Reception.ReceptionGoesOn | include/jay/transport_protocol.hpp:159-537 | over every defined run of any operations without a new start frame and without a sweep more than 1250 ms after its last activity, a session holds exactly its own packets taken in order, was last active when the last of them came, and has delivered the message exactly if they are complete, once |
| Reception.ReceptionFromStart | include/jay/transport_protocol.hpp:159-512 | the same from the start frame on, read off the operations alone; a sweep then keeps the session if and only if it comes at most 1250 ms after the last packet taken, or after the start frame |
| Interleaving.PeersAreIndependent | include/jay/transport_protocol.hpp:361-537 | for any interleaving of frames, local sends and sweeps, the receive sessions and deliveries of one peer equal those of its frames and the sweeps alone; that run is defined unless a transfer to the peer was under way at the start |
| Interleaving.AloneIsDefined | include/jay/transport_protocol.hpp:361-537 | with nothing being sent to the peer at the start, its run alone is defined whenever the mixed one is |
| Segmentation.ChunksFill | include/jay/transport_protocol.hpp:306-335 | cutting a message into padded sevens and filling a buffer with them gives the message back |
| Transport.StaysExactly | include/jay/transport_protocol.hpp:306-326 | on a bus that accepts every frame the packet loop of a session whose packets fit its buffer stays inside it if and only if the 8-bit counter does not run over |
| Segmentation.WindowIsSent | include/jay/transport_protocol.hpp:306-335 | on an accepting bus the loop sends exactly the next packets of the window in order and moves the 8-bit counter past them |
| Segmentation.DataPacketsAreSent | include/jay/transport_protocol.hpp:306-335 | a window, then the end-of-message frame and completion exactly if the counter has passed the total |
| Segmentation.BroadcastIsSent | include/jay/transport_protocol.hpp:247-335 | a broadcast of 9 to 1785 bytes sends its announcement and all packets in order; it returns true and completes if and only if it has at most 1778 bytes |
| Segmentation.BroadcastRoundTrip | include/jay/transport_protocol.hpp:247-512 | what a broadcast sends, any transport reassembles to exactly the message, once |
| Segmentation.BroadcastHeaderNames | include/jay/transport_protocol.hpp:524-537 | source and PGN survive the 24 bits of the announcement and the 18 of the header |
| EndToEnd.TransferDeliversOnce | include/jay/transport_protocol.hpp:247-537 | over every schedule of deliveries between two transports: every delivery is defined, nothing but the message is delivered and at most once, the pair is quiet exactly after a known number of deliveries, and then the message is there, every packet was sent once in order, and the receiver has sent exactly the clear-to-send of each window, in order, and the end-of-message frame |
| EndToEnd.OpeningIsStartTx | include/jay/transport_protocol.hpp:247-304 | with the window the original advertises the opening of that theorem is what sending does |
| EndToEnd.CountersMeet | include/jay/transport_protocol.hpp:306-434 | in every state a schedule reaches in which everything sent has been delivered, both 8-bit counters are equal |
| EndToEnd.DefinedIffWindowsClose | include/jay/transport_protocol.hpp:306-335 | every delivery of every schedule is defined if and only if there are at most 254 packets or the window divides 255; otherwise a schedule reaches a clear-to-send that runs the sender's counter over |
| EndToEnd.EomArrives | include/jay/transport_protocol.hpp:514-537 | the receiver's end-of-message frame makes the sender report an error and send an abort |
| EndToEnd.DeliveredPgn | include/jay/transport_protocol.hpp:524-537 | the delivered PGN is the sent one if and only if its format is peer-to-peer or its low byte is the destination |
| Duplex.BothDeliver | include/jay/transport_protocol.hpp:247-537 | two nodes send to each other, each once and at any time: in every schedule every delivery is defined, each is delivered nothing but the other's message and that at most once, the schedule ends after at most 1540 moves, and when nothing is on the way each message sent has arrived |
| Sweeping.SweepRemovesExactlyExpired | include/jay/transport_protocol.hpp:159-174 | in whatever order sessions are visited, exactly those idle for more than 1250 ms are gone, one error reported and one abort with code 3 tried for each; all others are unchanged |
| Sweeping.CleanUpIsDead | include/jay/transport_protocol.hpp:51-57 | a session old enough for the clean-up has always timed out |
| TransportLaws.ControlBytes | include/jay/transport_protocol.hpp:195-227 | the bytes and addresses of every connection management frame |
| TransportLaws.PacketBytes | include/jay/transport_protocol.hpp:306-316 | a packet carries its number and the seven bytes of its place, zeros after the end |
| TransportLaws.OtherFramesLaw | include/jay/transport_protocol.hpp:148-156 | frames of other groups and with other control bytes change nothing |
| TransportLaws.RequestToSendLaw | include/jay/transport_protocol.hpp:385-418 | a request to this node opens a session with the announced terms and tries a clear-to-send for packet 1; one to another node changes nothing |
| TransportLaws.AnnouncementLaw | include/jay/transport_protocol.hpp:436-450 | an announcement opens a session with window 255 and is not answered |
| TransportLaws.EndOfMessageLaw | include/jay/transport_protocol.hpp:524-537 | an end-of-message frame only marks a known session; otherwise an abort with code 6 is tried and an error reported |
| TransportLaws.AbortLaw | include/jay/transport_protocol.hpp:514-522 | an abort only marks the session this node sends to its sender and is reported; otherwise it changes nothing |
| TransportLaws.ClearToSendLaw | include/jay/transport_protocol.hpp:420-434 | a clear-to-send sets window and counter and sends that round; without a session an abort with code 6 is tried and an error reported |
| TransportLaws.StrayPacketLaw | include/jay/transport_protocol.hpp:452-462 | a packet without a session is answered with an abort with code 6 and reported |
| TransportLaws.UnwantedPacketLaw | include/jay/transport_protocol.hpp:464-482 | every packet but the wanted one marks the session, tries an abort and reports: code 7 outside the range and ahead, code 8 behind |
| TransportLaws.NextPacketLaw | include/jay/transport_protocol.hpp:484-512 | the wanted packet is put in place byte by byte and refreshes the session; at the end of a window the next one is cleared |
| TransportLaws.LastPacketLaw | include/jay/transport_protocol.hpp:484-509 | the last packet delivers the message with its header; a transfer is acknowledged and a refused acknowledgement reported, a broadcast is marked |
| TransportLaws.WindowLaw | include/jay/transport_protocol.hpp:306-326 | on any bus a window sends the next packets up to the first refusal, which is reported and followed by an abort with code 2; counter and time move by the accepted ones alone |
| TransportLaws.RoundLaw | include/jay/transport_protocol.hpp:306-349 | after a whole window the session is completed exactly if the counter has passed the last packet, with an end-of-message frame unless it was a broadcast |
| TransportLaws.SubmitSizeLaw | include/jay/transport_protocol.hpp:247-255 | 8 bytes or less and more than 1785 reach neither bus nor sessions; the latter are reported |
| TransportLaws.SubmitToOneLaw | include/jay/transport_protocol.hpp:257-304 | a message for one destination stores its session and tries a request; a refusal is reported and followed by an abort |
| TransportLaws.RefusedBroadcastLaw | include/jay/transport_protocol.hpp:278-289 | a refused announcement is reported and followed by an abort, and no packet is tried |
| TransportLaws.SubmitToAllLaw | include/jay/transport_protocol.hpp:257-335 | an accepted announcement is followed by the round of all packets on whatever bus is left |
| TransportLaws.TimeoutInNumbers | include/jay/transport_protocol.hpp:51-57 | sessions of both directions time out after 1250 ms |
| TransportObject.TransportProtocol.Submit | include/jay/transport_protocol.hpp:247-304 | sending computes the specified transport, with every refusal and size limit |
| TransportObject.TransportProtocol.SendWindow | include/jay/transport_protocol.hpp:306-326 | the packet loop computes the specified window, early exit on a refused frame included |
| TransportObject.TransportProtocol.SendPackets | include/jay/transport_protocol.hpp:306-335 | the window and the completion test |
| TransportObject.TransportProtocol.OnFrame | include/jay/transport_protocol.hpp:148-156 | the dispatch of every received frame on which the original is defined |
| TransportObject.TransportProtocol.ReceiveCm | include/jay/transport_protocol.hpp:361-450 | requests and announcements of any content, end-of-message frames and aborts |
| TransportObject.TransportProtocol.ReceiveCts | include/jay/transport_protocol.hpp:420-434 | a clear-to-send sends the next window or is answered with an abort |
| TransportObject.TransportProtocol.ReceiveDt | include/jay/transport_protocol.hpp:452-512 | a data packet is refused, taken, or taken and delivered |
| TransportObject.TransportProtocol.Sweep | include/jay/transport_protocol.hpp:159-174 | the sweep loop computes the specified sweep for the order it visits; the clean-up branch is unreachable |
| Words.Order64 | include/jay/name.hpp:312-325 | comparing 64-bit words is comparing the numbers they spell |
| NameCodec.SettersAssignFields | include/jay/name.hpp:131-306 | after any sequence of setters every getter returns the last value set for its field cut to its width, and no other bit has moved, the reserved one included |
| NameCodec.JoinThenSplit | include/jay/name.hpp:69-88 | the constructor from fields stores every field cut to its width and clears the reserved bit |
| NameCodec.SplitThenJoin | include/jay/name.hpp:69-88 | rebuilding a NAME from its getters gives it back up to the reserved bit |
| NameCodec.BytesRoundTrip | include/jay/name.hpp:110-120 | the payload constructor inverts the conversion to bytes |
| NameCodec.FromBytesRoundTrip | include/jay/name.hpp:358-370 | the conversion to bytes inverts the payload constructor |
| NameCodec.OperatorsCompareRanks | include/jay/name.hpp:312-325 | the masked operators are the order of the ranks used everywhere else |
| NameCodec.RawComparison | include/jay/name.hpp:353-353 | the built-in comparison the code falls back to for less-or-equal orders bit 63 above the rank |
| NameCodec.ViewIsFaithful | include/jay/name.hpp:353-353 | the view as rank and bit keeps all 64 bits |
| NameCodec.EqualNamesDifferOnlyInBit63 | include/jay/name.hpp:322-342 | two NAMEs compare equal and are hashed apart if and only if they differ in bit 63 and nowhere else |
| NameObject.DeviceName.FromPayload | include/jay/name.hpp:110-120 | gathering the bytes one by one yields the NAME whose bytes they are |
| NameObject.DeviceName.AssignIdentity | include/jay/name.hpp:131-137 | the setter rewrites its 21 bits and assigns its field alone |
| NameObject.DeviceName.AssignManufacturer | include/jay/name.hpp:144-148 | the same for 11 bits |
| NameObject.DeviceName.AssignEcuInstance | include/jay/name.hpp:155-159 | the same for 3 bits |
| NameObject.DeviceName.AssignFunctionInstance | include/jay/name.hpp:166-170 | the same for 5 bits |
| NameObject.DeviceName.AssignFunction | include/jay/name.hpp:177-181 | the same for 8 bits |
| NameObject.DeviceName.AssignDeviceClass | include/jay/name.hpp:188-192 | the same for 7 bits |
| NameObject.DeviceName.AssignDeviceClassInstance | include/jay/name.hpp:199-204 | the same for 4 bits |
| NameObject.DeviceName.AssignIndustryGroup | include/jay/name.hpp:211-215 | the same for 3 bits |
| NameObject.DeviceName.AssignSelfConfig | include/jay/name.hpp:222-227 | the same for bit 63 |
| HeaderCodec.SettersAssignFields | include/jay/header.hpp:143-289 | after any sequence of setters every field of the identifier has the last value assigned to it, priority clamped and PGN cut to 18 bits |
| HeaderCodec.SettersPackFields | include/jay/header.hpp:143-214 | a 29-bit identifier stays one and is determined by its fields |
| HeaderCodec.SetThenGetBroadcast | include/jay/header.hpp:157-254 | a PGN of broadcast format that was set is read back whole |
| HeaderCodec.SetThenGetPeer | include/jay/header.hpp:157-254 | a PGN of peer-to-peer format is read back without its low byte |
| HeaderCodec.DataPageOfFields | include/jay/header.hpp:260-260 | the data page getter reads the low bit of the page field |
| HeaderCodec.SetThenGetDataPage | include/jay/header.hpp:171-260 | a data page bit that was set is read back and the reserved bit beside it stays |
| HeaderCodec.GetPgn | include/jay/header.hpp:249-254 | the masked getter reads the PGN of the header record the transport works on |
| HeaderCodec.SetPgnOnRecord | include/jay/header.hpp:157-164 | the masked setter sets the PGN of that record, for every 32-bit argument |
| HeaderCodec.ClaimByFields | include/jay/header.hpp:323-323 | the claim test holds if and only if page is 0 and format is 0xEE |
| HeaderCodec.RequestByFields | include/jay/header.hpp:316-316 | the request test holds if and only if page is 0 and format is 0xEA |
| HeaderCodec.MakeUnpacks | include/jay/header.hpp:105-112 | the fields of an identifier built from a PGN, including the three bits that run into the priority |
| HeaderCodec.MakeFieldsUnpacks | include/jay/header.hpp:83-95 | an identifier built from fields has those fields |
| HeaderObject.FrameHeader.constructor | include/jay/header.hpp:105-121 | the constructor from a PGN |
| HeaderObject.FrameHeader.AssignPriority | include/jay/header.hpp:143-147 | the setter clamps to 7 and assigns the priority alone |
| HeaderObject.FrameHeader.AssignPgn | include/jay/header.hpp:157-164 | the setter assigns page, format and specific byte |
| HeaderObject.FrameHeader.AssignDataPage | include/jay/header.hpp:171-176 | the setter assigns the data page bit alone |
| HeaderObject.FrameHeader.AssignPduFormat | include/jay/header.hpp:189-193 | the setter assigns the format alone |
| HeaderObject.FrameHeader.AssignPduSpecific | include/jay/header.hpp:200-204 | the setter assigns the specific byte alone |
| HeaderObject.FrameHeader.AssignSourceAddress | include/jay/header.hpp:210-214 | the setter assigns the source address alone |
| HeaderObject.FrameHeader.GetPgn | include/jay/header.hpp:249-254 | the getter returns the word that spells the PGN of the header record |
| Wire.RequestFields | include/jay/frame.hpp:80-84 | for every destination a request unpacks to priority 6, page 0, format 0xEA, that destination and source 254, and asks for group 0xEE00, whose identifiers the claim test accepts |
| Wire.ClaimFields | include/jay/frame.hpp:92-96 | a claim unpacks to priority 6, page 0, format 0xEE, destination 255 and the claimed address, and carries the NAME |
| Wire.CannotClaimFields | include/jay/frame.hpp:103-109 | a cannot-claim is the same from address 254 |
| Wire.NameBytes | include/jay/name.hpp:358-370 | the eight bytes of a NAME in the order they are sent, field by field |
| Wire.ClaimArrives | include/jay/frame.hpp:92-96 | the frame of a claim acts on a receiver as the claim of that NAME and address |
| Wire.RequestArrives | include/jay/frame.hpp:80-84 | the frame of a request acts as a request to its destination |
| Wire.FrameCarriesMessage | include/jay/address_claimer.hpp:106-113 | claim, cannot-claim and request frames act as the messages they were built from |
| Wire.RunOverFrames | include/jay/address_claimer.hpp:106-263 | every run of a claimer on messages is the same run on the frames that carry them |
| Wire.BusTravelsAsFrames | include/jay/frame.hpp:71-109 | whatever any station puts on the bus in any run, its frame acts on every receiver as the message itself |

## Left out

- Sockets, buffers, asynchronous reads and the connection class: input and output; only the destination match of `j1939_connection.hpp` is kept, as the filter between the two ends of an RTS/CTS transfer.
- Boost.SML and Boost.Asio internals, mutexes and real clocks: steps are atomic, posts are a queue, time is an argument.
- The canary frame header: not part of this model; identifiers are plain 32-bit words, flags and payload length are dropped.
- TransportObject.TransportProtocol.OnFrame: excludes exactly the frames on which the original reads or writes outside a buffer or divides by zero, which C++ leaves undefined: a clear-to-send whose packet loop, refused frames considered, comes to such a packet, and a data packet that passes and starts outside the buffer or meets window 0 before the last.
- TransportObject.TransportProtocol.ReceiveCm: the same for clear-to-send frames; every other connection management frame is admitted.
- TransportObject.TransportProtocol.ReceiveCts: the same.
- TransportObject.TransportProtocol.ReceiveDt: the same for data packets.
- NAMEs that differ only in bit 63 inside one network: the hash map of the original is keyed inconsistently for them, so runs assume that no other station uses them.
- `remove` inside runs of the index: it breaks the invariant, and `RemoveKeepsIndexExactly` says when.
- Lost, reordered or duplicated frames in the end-to-end theorem: reassembly is proved for arbitrary packets, quiescence only for a bus that delivers.
- EndToEnd.TransferDeliversOnce: the opposite direction is idle, which `BothDeliver` does without; for 255 packets the window must divide 255, which 255, the only window the original advertises, does; `DefinedIffWindowsClose` shows that the condition is exact.
- Interleaving.PeersAreIndependent: if a transfer to the peer is under way at the start, assumes that the run of the peer alone is defined; a local send in the mixed run may have replaced that transfer, and a clear-to-send that suits the new one need not suit the old.
- Announcements.DeliveriesAreAnnounced: for peers other than the node's own address; a clear-to-send rewinds a session the node itself has opened, so frames that carry the node's own address as source may deliver more than once.
- QuietJoins.QuietJoinsKeepHoldersApart: that all NAMEs agree in bit 63 is sufficient; whether it is needed is left open.
- BusUniqueness.NoTwoHoldersShareAnAddress: that a late station reads no forestalled claim is sufficient and not necessary; a forestalled claim whose sender stays put does no harm.
- `match`, `get_name_set`, the new-name and error callbacks, filters, logging, `to_string`, examples and build files: no hard property.
