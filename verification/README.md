# A model of opencord's event replication and voice arithmetic

Opencord has no server. Every node keeps a table of signed, encrypted events keyed
by group, author and author sequence. Two nodes that meet prove to each other which
group keys they share, exchange channel descriptors, then inventories of contiguous
heads, then range requests; each streams the events the other asked for in pages of
128 rows and batches of at most 12 MiB, and both go on to a live phase in which new
events are flooded over all sessions. This project models that protocol, the store
beneath it, and the exact arithmetic of the voice path, and proves what the design
relies on.

How the parts fit together:

- `Base`, `Text`, `Model`, `Crypto`: machine integers, labels, events, and
  cryptography by symbols. A ciphertext remembers key, nonce, associated data and
  plaintext, a signature its signer and message, a digest what it was made from;
  byte strings that no operation made are separate constructors, so forged and
  damaged input is in the model.
- `Ordering`, `Tables`, `Runs`: the tables as one value and every statement of the
  store as a function on it; the invariant that each stored row opens under the key
  of its own group, kept by every operation and hence by every run.
- `EventStore`: the store as an object that is updated in place, each method proved
  against the table functions, with the inventory fold and the timeline as loops.
- `Operations`, `Refusals`: what each operation of the store does, in numbers and
  column by column; laws over two of them; and, of all that may be wrong with an
  event, an invite, a hello, a descriptor or a request, what is reported and what has
  been done by then.
- `Delivery`, `Timeline`, `Inventory`, `Invites`: what a set of deliveries leaves,
  what a channel shows, what inventories and requests mean, what an invite carries.
- `Wire`, `Transfer`, `Serving`: records and their sizes, the loops that serve and
  take requested events (also while the store grows), and their tie to the machine.
- `Session`, `SessionProof`, `SessionSafety`, `Convergence`, `Cluster`: two sides and
  two unbounded links as a state machine; every schedule is safe and ends, and when
  it completes; what one session gains; where repeated sessions end, between two
  nodes and over the edges of a graph.
- `AnyPeer`: one side of that machine against any peer whatever: who is admitted, what
  an intruder can learn or change, and what happens to records that are out of place.
- `Mesh`, `Flooding`, `FloodDelivery`, `FloodSizes`, `FloodLimits`: any number of
  nodes and live sessions; no equivocation; flooding stops, and has then delivered;
  which events the frame limit keeps at home, and which sessions outlast them; what
  exactly flooding does not deliver.
- `Handover`: one side of a session whose store goes on growing, from its inventories
  to its subscription to broadcasts.
- `Instances`: where the assumptions of the theorems come from, and starts that meet
  all of them.
- `Presence`: who is online, and the status lines.
- `Audio`, `Voice`, `Muting`: resampling with an exact phase, framing, the wrapping
  sequence filter, and what a microphone sends that is muted and unmuted while it runs.

Clocks, random ids, nonces and secrets are arguments. Peer, group and channel ids
are numbers whose order is the byte order of the ids. Times and sequence numbers
have their machine ranges, with the 63-bit limit of the sequence column.

## Where the code and its documents disagree

The model follows the code.

- Inventories carry contiguous heads (src/store.rs:347-353), not the maxima that
  docs/PROTOCOL.md:31 and docs/ARCHITECTURE.md:58 speak of.
- The batch budget is 12 MiB (src/network.rs:27), not 8 MiB (docs/PROTOCOL.md:33).
- A group proof binds the sender, then the receiver (src/network.rs:735-749), not
  the two keys in lexicographic order (docs/PROTOCOL.md:14).

## What turned out not to hold

Each comes with a concrete input, or with the exact condition, in the project.

- Events taken in the synchronising part of a session are not passed on, so at rest
  a node two sessions away from the author may lack one (`FloodLimits.SyncLeavesAGap`).
  A synchronised event goes no further, whatever live traffic follows
  (`FloodLimits.SyncIsNeverFlooded`).
- An attachment can pass validation and yet never fit a frame, since neither its
  file name nor its media type is bounded (`Wire.ValidPayloadCanBeUnsendable`;
  exactly when in `Wire.SealedFitsExactly` and `Wire.SealedLiveExactly`). While
  synchronising, such an event stops the sender that is asked for it, after all that
  was asked for before it (`Transfer.SendRequestedEvents`), and a session completes,
  under every schedule, exactly when all that the two sides ask for fits
  (`SessionSafety.SessionCompletesExactly`). In the live part it is stored by its
  author and reaches no one, and it ends every session that was to send it: an
  attachment with a media type of 16 MiB does so
  (`Instances.ALargeAttachmentStaysHome`; for all runs `FloodSizes.TooLargeStaysHome`,
  `FloodSizes.TooLargeEndsSessions`).
- So flooding does not deliver every event. Between two states of rest, with no other
  event too large, a node connected to a holder has an event exactly when it had it at
  the first, or is its author, or the event was appended since and fits a frame
  (`FloodLimits.FloodingDeliversExactly`); and all sessions stand at the end exactly
  when none was to send an event that is too large (`FloodSizes.SessionsStandExactly`).
- An event that enters a store after a session read its inventories there, and is
  broadcast before the session subscribes, is neither served nor forwarded in that
  session (`Instances.HandoverLosesAText`). Exactly which events the peer is left
  without: `Handover.PeerLacksExactly`, and for a side's own events
  `Handover.PeerLacksOwnExactly`.
- A name that an identity cleans for itself can be one that every peer refuses
  (`Text.SanitizedNameCanBeRefused`). It is accepted exactly when the trimmed value
  has nothing but controls, or shows a character among its first 48 that are not
  controls (`Text.SanitizedNameAcceptedExactly`).
- The playback resampler starts every mixed frame at phase zero, so it falls behind
  the resampling of the whole stream exactly when k * (rate % 50) reaches 50 after k
  frames (`Voice.PlaybackKeepsPaceExactly`), at 11025 samples a second with the
  second frame (`Voice.PlaybackLagsAt11025`).
- An importer of an invite does not take every event of the group that the inviter
  has: exactly when it takes one is `Invites.InviteAdmitsExactly`.
- The comparison of voice sequence numbers differs from "greater than" of
  section 3.2 of RFC 1982 exactly at a distance of 2^31 - 1
  (`Voice.DiffersFromSerialOrder`).

## Model

| member | source | states |
|---|---|---|
| Text.SanitizedNameAcceptedExactly | src/crypto.rs:250-263 | The name an identity gives itself passes the name check of a received hello exactly when the trimmed value has only control characters (the fallback is then used), or some character that is neither control nor white space has fewer than 48 non-control characters before it |
| Text.SanitizedNameCanBeRefused | src/crypto.rs:250-263 | A concrete name that is cleaned to one every peer refuses |
| Text.TrimExactly | src/store.rs:705-717 | Trimming takes off all white space at both ends and nothing else; nothing is left exactly when all of it is white space |
| Text.CleanLabelExactly | src/store.rs:705-717 | A cleaned label is the first `max` characters of the trimmed value that are not controls, in order; the fallback exactly when there are none |
| Crypto.OpensExactlyWhatWasSealed | src/crypto.rs:115-170 | Opening and sealing are inverse: an event opens to a payload exactly when every field of it is what its author seals from that payload, so any change makes it fail |
| Crypto.OpensUnderOneSecret | src/crypto.rs:197-233 | An event opens under at most one group secret, to one payload |
| Crypto.IdIdentifiesEvent | src/crypto.rs:235-248 | Two events that open and carry one id are the same event |
| Ordering.SortCorrect | src/store.rs:309 | The order of a query result: each element once, strictly ascending |
| Ordering.LessExactly | src/store.rs:186 | Names are ordered by their first different character, and what goes on is greater than what ends |
| Tables.RowRoundTrip | src/store.rs:650-679 | Reading a stored row back gives the event exactly when the event has the version that reading re-creates |
| Tables.HeadOfExactly | src/store.rs:347-353 | An advertised head n: 1..n are all stored and n + 1 is not |
| Tables.IdsFollowKeys | src/store.rs:84-97 | The primary key on the id never refuses an event whose own group, author and sequence are free |
| Tables.InsertRemoteExactly | src/store.rs:240-292 | A remote event is taken exactly when it is acceptable and agrees with what is held at its key; new exactly when the key was free, and then the only change; a conflict is refused as an equivocation |
| Tables.AppendSucceedsExactly | src/store.rs:199-238 | Appending succeeds exactly for a valid payload, a known channel and a next sequence of 63 bits |
| Tables.AppendExactly | src/store.rs:199-238 | An append stores one more event, at the next sequence of its author in the group of the channel; it opens to the payload and nothing else that replicates changes |
| Tables.ChannelListExactly | src/store.rs:184-197 | The channel list of a group has exactly the stored channels of the group |
| Tables.ChannelListAscends | src/store.rs:184-197 | Channels are listed by position, those of one position by name, those of one name by id |
| Tables.GroupListAscends | src/store.rs:151-164 | Groups are listed by the time of their creation, those of one time by name, those of one name by id |
| Runs.ApplyKeeps | src/store.rs:109-638 | Every operation keeps every row bound to its group and channel and openable, and changes or removes nothing stored |
| Runs.RunKeeps | src/store.rs:109-638 | So does every run: groups keep their secrets, channels their groups, events every column |
| Runs.EveryStoredEventOpens | src/store.rs:294-331 | In every reachable store each event opens to a payload under the secret of its own group, in a channel of that group |
| Operations.MessageAppendsExactly | src/model.rs:131-160 | Appending a text or system message, case by case: it must show a character that is not white space and have at most 65,536 bytes, the channel must be known, and the last sequence not reached; each failing with its own error |
| Operations.AttachmentAppendsExactly | src/model.rs:131-160 | The same for an attachment: its file name must show a character, it has at most 8,388,608 bytes, and its caption at most 65,536 |
| Operations.RemoteMessageExactly | src/crypto.rs:197-233 | A remote event sealed from any text or system message, valid or not, is taken by a store that expects it exactly under these limits and with the kind of its payload |
| Operations.RemoteAttachmentExactly | src/crypto.rs:197-233 | The same for attachments |
| Operations.CreateGroupExactly | src/store.rs:109-149 | A new group comes with the channel "general" at position 0, and nothing else changes; with an id in use nothing changes at all |
| Operations.NewGroupTakesMessages | src/store.rs:109-149 | Whatever is valid can be appended to that channel at once, by anyone, as sequence 1, and opens under the key of the group |
| Operations.CreateChannelExactly | src/store.rs:582-619 | A new channel comes at the position after the last of its group; at the end of the positions, without the group or with an id in use nothing changes |
| Operations.NewChannelIsLast | src/store.rs:184-197 | So it is listed last |
| Operations.MergeChannelExactly | src/store.rs:621-638 | A channel from elsewhere is added, with its name cleaned, exactly when its group is known and its id free; merging it again changes nothing |
| Operations.BlockExactly | src/store.rs:240-244 | Blocking a peer refuses its events and no other's, and takes nothing away |
| Operations.UnblockExactly | src/store.rs:564-570 | Unblocking ends that; it undoes a block |
| Operations.NamesExactly | src/store.rs:505-530 | Which name a store has for a peer after each operation: that of the operation for the peer it is about, cleaned, else the one before |
| Operations.DeliveredName | src/network.rs:649-656 | A new event brings the name it comes with, or the name of the sending peer when that is blank |
| Operations.UnknownPeerIsNamedByKey | src/model.rs:34-36 | A peer without a stored name is called after the first 48 bits of its key, as eight digits that give them back |
| Refusals.EventRefusals | src/crypto.rs:197-233 | Of all that may be wrong with an event, what opening it reports |
| Refusals.RemoteRefusals | src/store.rs:240-292 | The same for taking it into a valid store, where any difference from the event held at its place is an equivocation |
| Refusals.BatchRefusals | src/network.rs:648-666 | A batch is taken up to the first event that is refused; those before it stay, and its refusal is reported |
| Refusals.CreationRefusals | src/store.rs:582-619 | What creating a group or channel reports |
| Refusals.InviteRefusals | src/store.rs:437-503 | What importing an invite reports: version, signature, no channels, another key, in this order |
| Refusals.RangeRefusals | src/store.rs:366-388 | What reading a range reports |
| Refusals.HelloRefusals | src/network.rs:321-331 | Where a hello leads: on, or to the failure of the first of version, name, signature, own key and block |
| Refusals.ListRefusals | src/network.rs:418-439 | The first descriptor that is not authentic ends the merging, with the error of its first fault |
| Refusals.ServingRefusals | src/network.rs:596-640 | A side that serves stops at a bad request with nothing said for it, and at a batch beyond 16,777,216 bytes with all it has still to say |
| Refusals.RecordRefusals | src/network.rs:407-439 | What a refused list of descriptors or batch of events leaves: what came before the refusal is stored, and the session has failed with it |
| Delivery.DeliverExactly | src/network.rs:643-670 | A list of events is taken whole exactly when each is acceptable and none contend for one key; the store is then the union; whatever happens nothing held changes and growth is the number reported as new |
| Delivery.UnionUnique | src/store.rs:240-292 | That union is one store only |
| Delivery.DeliveryOrderIrrelevant | src/store.rs:240-292 | Two deliveries of one set of events, in any order and with any repetition, are both taken or both refused, and leave the same events |
| Timeline.ShownAscends | src/store.rs:305-329 | What a channel shows ascends strictly by time, author and sequence, and each entry is an event of the channel with its payload and the name stored for its author, or "Unknown peer" |
| Timeline.ShownIsLatest | src/store.rs:305-329 | An event not shown is earlier than all that are, and then min(limit, 2000) are shown |
| Timeline.ReplicasShowTheSame | src/store.rs:294-331 | Stores with equal events of a channel show the same events and payloads in the same order, however they arrived |
| Inventory.InventoriesExactly | src/store.rs:333-364 | A group, author and number are advertised exactly when the author has an event there and the number is the greatest n with 1..n all stored, 0 included |
| Inventory.InventoriesOfCorrect | src/store.rs:333-364 | The inventories list every group once and every author of it once |
| Inventory.RequestsExactly | src/network.rs:672-699 | A request is made exactly for each shared group and author where the remote head is ahead, from the successor of the local head to the remote head |
| Inventory.RequestsSound | src/network.rs:672-699 | Requests are for pairwise different authors, satisfy 0 < first <= last, start at an event the local store lacks and ask only for events the remote holds |
| Inventory.RequestsCoverTheGap | src/network.rs:672-699 | With the local prefix they cover exactly 1..max of the two heads |
| EventStore.Store.CreateGroup | src/store.rs:109-149 | The new group and its first channel are stored together, as the table function has it, or nothing is |
| EventStore.Store.CreateChannel | src/store.rs:582-619 | The new channel is stored at the next position of its group, or the table is unchanged and the error is the one of the failing check |
| EventStore.Store.MergeChannel | src/store.rs:621-638 | A channel of a known group is added if its id is free; the result tells whether it was |
| EventStore.Store.ImportInvite | src/store.rs:437-503 | A verified invite adds its group, unless held with another key, and those of its channels that are free, in one step |
| EventStore.Store.Append | src/store.rs:199-238 | Appends as the table function does, with the same event or the same error |
| EventStore.Store.InsertRemoteEvent | src/store.rs:240-292 | True exactly on growth; refused exactly when not acceptable or in conflict, and then nothing changes |
| EventStore.Store.BlockPeer | src/store.rs:555-562 | One more blocked peer, nothing else |
| EventStore.Store.UnblockPeer | src/store.rs:564-570 | One blocked peer less, nothing else |
| EventStore.Store.RememberPeer | src/store.rs:505-530 | The cleaned name of the peer, nothing else |
| EventStore.FoldStep | src/store.rs:347-353 | One row of the fold keeps, for each author met, the contiguous head of the rows so far |
| EventStore.Store.GroupHeads | src/store.rs:333-357 | The fold over sorted rows finds the contiguous head of every author of the group |
| EventStore.Store.Inventories | src/store.rs:333-364 | The loop over groups gives inventories that list each group and author with the contiguous head |
| EventStore.OpenRows | src/store.rs:319-328 | Opening the rows of a channel of a valid store is never refused and gives one entry per row |
| EventStore.Store.Timeline | src/store.rs:294-331 | Reading descending with a limit and reversing shows what is stated above; it fails only for an unknown channel |
| Invites.InviteJoins | src/store.rs:402-503 | An invite built by one store is importable by another exactly when the group has a channel and its key does not conflict; importing changes no event, and the importer then has the key and the channels of the group as the inviter has them exactly when no channel id of the group is known to it under another group |
| Invites.InviteAdmitsExactly | src/store.rs:240-292 | After the import an event of the group from the inviter is taken exactly when its author is not blocked, nothing else is held at its key, and its channel was not known under another group |
| Invites.InviteRebuildsHistory | src/store.rs:402-503 | Any list of the inviter's events of the group, in any order and with repetition, is taken whole exactly when each is admitted, and adds these events and no other |
| Invites.EmptyStoreRebuildsAll | src/store.rs:732-768 | A store that holds nothing imports the invite, takes all events of the group, and then holds exactly these, row for row |
| Invites.ImportsExactly | src/store.rs:437-503 | An invite is imported exactly when version, signature, channels and key are right; a new group is as it says, a channel that is held stays, another is as its first mention says, names are cleaned, and the name of the inviter is kept |
| Invites.EmptyStoreCopiesTheGroup | src/store.rs:402-503 | Into an empty store it brings exactly the group with its key, its channels in their places, and the name of the inviter |
| Wire.SharedExactly | src/network.rs:333-366 | Proof checking finds exactly the groups that both hold with equal secrets |
| Wire.ProvenExactly | src/network.rs:350-366 | A group is shared exactly when the side has it and was sent a proof made with its key, from the other's hello to the own |
| Wire.NoKeyNoShare | src/network.rs:350-366 | Proofs made with other keys, proofs sent back to their maker and proofs made for another hello share nothing |
| Wire.MergesExactly | src/network.rs:418-439 | Descriptors are merged up to the first that is not of a shared group, sealed with its key and of that group inside and out; a held channel stays, another is as its first descriptor says, with its name cleaned |
| Wire.FramesExactly | src/network.rs:407-416 | The descriptors a side sends are exactly those of its channels of the shared groups, as stored, sealed with the keys of their groups |
| Wire.ChannelsCopied | src/network.rs:407-439 | A peer with equal keys then has every channel of these groups as the sender has it, with its name cleaned, and all its own as before |
| Wire.VarintLenExactly | src/network.rs:791-795 | The length of an encoded number: the fewest bytes that hold it at seven bits to the byte |
| Wire.SizesInNumbers | src/network.rs:621 | Two payloads, an event and the size counted for it, in numbers |
| Wire.EstimateDominates | src/network.rs:621 | The size counted for an event exceeds its encoded size by at least 78 bytes |
| Wire.MultiBatchFits | src/network.rs:616-634 | Every batch of several events is within the frame limit of both ends |
| Wire.SingleBatchByEstimate | src/network.rs:616-634 | So is a single event whose count is within it |
| Wire.ValidPayloadCanBeUnsendable | src/model.rs:131-160 | A valid attachment whose event exceeds a frame on its own |
| Wire.SendableExactly | src/network.rs:616-634 | The size bound on an event holds exactly when its batch of one is within the frame limit under every name of at most 192 bytes |
| Wire.SealedFitsExactly | src/model.rs:131-160 | The encoded length of a valid payload decides exactly whether its event, alone in a batch, is within the frame limit under every such name |
| Wire.SealedLiveExactly | src/network.rs:524 | The encoded length of a valid payload, with the name it is sent under, decides exactly whether its event fits the frame of a live record |
| Transfer.RangeListExactly | src/store.rs:366-388 | A range is exactly the stored events with sequence in it, ascending |
| Transfer.PageExactly | src/store.rs:366-388 | A page is the first 128 events of the range, and a range has positive bounds in order, of 63 bits |
| Transfer.SendPage | src/network.rs:616-634 | The batches of one page carry exactly the page, in order, within the budget, each event with a name its author had at the time, and no batch is cut before the next event would exceed 12,582,912 bytes; it is cut short only at an event of the page that exceeds a frame on its own with a name its author had, and then exactly the events before it are out |
| Transfer.ServeRequest | src/network.rs:605-638 | One request over pages and batches, while the store grows: ascending, no repeat, all that was there at the start, nothing that is not there at the end; refused only for a bound beyond the column, with nothing out, or at a stored event of the range that exceeds a frame, with what precedes it out |
| Transfer.SendRequestedEvents | src/network.rs:590-641 | The same for the first 10,000 requests, then the end mark; it stops only at the first bad request or at an asked-for event that exceeds a frame, with all before it out; on a store at rest it succeeds exactly when the requests are good and every event of their ranges fits a frame with its author's name, and sends exactly these, range after range; while the store grows it succeeds when all that may be asked for fits under all names |
| Transfer.ServesAtRest | src/network.rs:605-638 | On a store at rest that is one list: exactly the stored events of the range |
| Transfer.AllServedAtRest | src/network.rs:590-641 | And for all requests, their ranges one after the other |
| Transfer.ServedEventsExactly | src/network.rs:590-641 | An event is served exactly when it is stored and a request asks for it |
| Transfer.ReceiveRequestedEvents | src/network.rs:643-670 | Takes batches up to the end mark, event by event, stopping at the first refusal |
| Transfer.BatchesDoNotMatter | src/network.rs:643-670 | However a list of events is cut into batches, taking the stream delivers exactly that list |
| Transfer.TakesLeadingBatches | src/network.rs:643-670 | Whatever the records are: the store left is that of the batches before the first other record, delivered up to the first refusal; and which error is reported, for a refusal, a broken-off stream or another record |
| Transfer.CompleteExactly | src/network.rs:643-670 | A transfer is complete exactly when an end mark comes after nothing but batches, all of whose events are taken |
| Serving.LoopIsServing | src/network.rs:605-638 | The records the loop sends for a request on a store at rest are records the session machine can emit for it |
| SessionProof.EmitKeeps | src/network.rs:310-472 | Every sending step keeps the session invariant |
| SessionProof.ChannelsArrive | src/network.rs:407-439 | Merging the peer's channels is never refused; the channels are then exactly the own ones, as they were, and those of the peer in shared groups, with cleaned names |
| SessionProof.BatchDeliverable | src/network.rs:643-670 | A batch of the peer's stored events of shared groups is never refused |
| SessionSafety.StepKeeps | src/network.rs:310-472 | Every step of either side keeps the invariant, by which a side fails only over an event it was asked for that fits no frame |
| SessionSafety.SchedulesEnd | src/network.rs:310-472 | No schedule is longer than the work that is left |
| SessionSafety.NoDeadlock | src/network.rs:471-472 | While no side has failed, something can happen exactly as long as a side is not live |
| SessionSafety.Finish | src/network.rs:310-472 | When all that is asked for fits, every net on the way can be brought to its end |
| SessionSafety.SessionCompletesExactly | src/network.rs:310-472 | Two honest sides under any schedule: boundedly many steps, no failure but that of an asked-for event that fits no frame, and once nothing can happen both are live exactly when all that was asked for fits; each has then received exactly what it was to be served, and has exactly the channels of both |
| AnyPeer.HelloTakenExactly | src/network.rs:321-331 | A side goes on from the hello exactly when it has version 1, a name that shows something in at most 192 bytes, the signature of the peer it names, and that peer is neither the side itself nor blocked; else it fails and keeps all it has |
| AnyPeer.BarredNeverEnters | src/network.rs:321-331 | Two sides with any stores and hellos, under any schedule: a side that must not admit the other's hello never gets past the handshake, its store never changes, and only its hello is ever on the link |
| AnyPeer.AdmittedEnters | src/network.rs:321-331 | A side that may admit it goes on as soon as it takes it |
| AnyPeer.NobodyElseEnters | src/network.rs:310-332 | The same against a peer that sends any records in any order |
| AnyPeer.OnlyProvenIsTold | src/network.rs:333-472 | Against any peer: a side tells of a group, its channels, heads, ranges or events only after an admissible hello and a proof made with the key of the group from that hello to its own |
| AnyPeer.KeylessPeerLearnsNothing | src/network.rs:333-472 | So a peer that presents nothing made with the key learns nothing of the group |
| AnyPeer.NoPeerHarmsTheStore | src/network.rs:310-472 | Whatever a peer sends: the store stays valid, loses and changes no group, channel or event, and takes nothing by a blocked author |
| AnyPeer.OutOfPlaceFails | src/network.rs:318-321 | A record that the phase does not wait for ends the session and changes nothing else |
| AnyPeer.InPlaceExactly | src/network.rs:345-472 | When records in their place are taken, and what the side goes on with: the groups proven, the name of the peer, the inventories of shared groups, the first 10,000 requests |
| Convergence.OneSession | src/network.rs:447-472 | After one session nothing is lost, everything gained was in the other store, and with at most 10,000 requests every head of a shared group is at least the greater of the two |
| Convergence.BehindMeansGrowth | src/network.rs:598-641 | Even with requests cut to 10,000, a side that is behind somewhere gains an event |
| Convergence.UnionUnchanged | src/network.rs:447-472 | A session never changes what the two stores hold together |
| Convergence.MissingFalls | src/network.rs:447-472 | Each session between stores with unequal heads leaves fewer events missing |
| Convergence.ReadyAgain | src/network.rs:310-472 | The stores after a session are ready for the next |
| Convergence.NextSessionExists | src/network.rs:310-472 | From a ready start in which all that is asked for fits, a session can be run to its end |
| Convergence.ChainExists | src/network.rs:310-472 | From a ready start whose shared events fit a frame there are chains of sessions of any length, so the next statement is about runs that exist |
| Convergence.SessionsConverge | src/network.rs:447-472 | Repeated sessions end with equal heads for every author of a shared group, the contiguous heads of what the two stores held together at first |
| Cluster.VisitsKeep | src/network.rs:447-472 | Any sequence of sessions between any nodes keeps what the nodes hold together, loses nothing at any node, and leaves the nodes fit for more |
| Cluster.VisitsFall | src/network.rs:447-472 | It leaves no more events lacking, summed over the nodes, than before, and strictly fewer unless every session in it met equal heads and changed nothing |
| Cluster.RoundsLevel | src/network.rs:447-472 | After more rounds along the edges of a graph than events were lacking, the two ends of every edge have equal heads for every author of a group they share |
| Cluster.ClusterConverges | src/network.rs:447-472 | Any number of nodes: after that many rounds every node of a group whose nodes the edges connect has, for every author, the contiguous head of what all nodes held together at first |
| Cluster.RoundsExist | src/network.rs:310-472 | Where all events fit a frame, rounds of any number exist from every such start |
| Handover.SentExactly | src/network.rs:441-529 | One side whose store grows by appends, receipts and any other operation: once live and at rest it has sent the peer exactly what a served request asked for and what was broadcast, to be passed on, after the subscription |
| Handover.PeerLacksExactly | src/network.rs:441-474 | The peer is then left without an event of this side exactly when it lacked it at first, the event was beyond the head that was listed, and no broadcast of it came after the subscription |
| Handover.PeerLacksOwnExactly | src/node.rs:254-269 | For the side's own events: exactly those the peer lacked at first that were appended after the heads were listed and not broadcast after the subscription |
| Handover.EveryNewEventIsBroadcast | src/node.rs:254-269 | Every event that enters the store while the session stands, by an append or live from another session, waits to be broadcast or has been |
| Mesh.StepKeeps | src/network.rs:480-529 | Every append, forward, receipt, synchronised event, connection, closing and local operation keeps the mesh invariant and all stored events |
| Mesh.OwnLogHasNoGap | src/store.rs:216-231 | In every run in which each identity appends at one store, its own log in each group is exactly 1..n, and n its head |
| Mesh.StoresAgree | src/store.rs:240-292 | Every stored event is an entry of its author's own log, so any two stores agree on every key |
| Mesh.EquivocationNeverRaised | src/store.rs:277-281 | No event in flight is ever refused as an equivocation, at any node |
| Mesh.OneIdentityAtTwoStores | src/store.rs:277-281 | When one identity appends at two stores at one sequence, the second event is an equivocation exactly when payload, nonce or time differ |
| Mesh.SendExactly | src/node.rs:254-269 | An append at a node queues the event once on every session of the node, under the name its author gives itself, and nothing else |
| Mesh.ForwardExactly | src/network.rs:508-529 | A broadcast is dropped when its group is not shared or the peer is its author; else it is sent, or, beyond 16,777,216 bytes, ends the session |
| Mesh.ReceiveExactly | src/network.rs:480-490 | A live event ends its session when it is of another group or refused; a new one is stored and queued once on every session of the node; one that is held goes no further |
| Flooding.FloodingStops | src/network.rs:484-490 | From any state of any mesh, cycles and parallel sessions included, only boundedly many broadcasts and records can be handled |
| FloodDelivery.LiveStepServes | src/network.rs:480-529 | A step keeps that every live neighbour of a node that took an event holds it or has a copy on its way |
| FloodDelivery.FloodingDelivers | src/network.rs:480-529 | Once nothing is pending, an event is held by every node that sessions still standing connect to a holder through nodes that lacked it at the start, as its author's log has it |
| FloodDelivery.SessionsStay | src/network.rs:484-524 | Between nodes that share keys and channels and block no one, no session ends, as long as none is to send an event beyond the frame limit |
| FloodDelivery.FloodingReachesAll | src/network.rs:480-529 | So over the sessions that stood at the start, when none is to send an event beyond the frame limit: once at rest, a node has the event when a path of them leads to it from a holder through nodes that lacked it at the start |
| FloodDelivery.Drain | src/network.rs:480-529 | Traffic alone brings any mesh to rest |
| FloodSizes.OnlyWhatFitsTravels | src/network.rs:791-795 | In every run, with any connecting, synchronising and closing, an event that a node other than its author comes to hold is within the frame limit |
| FloodSizes.TooLargeStaysHome | src/network.rs:524 | An event that as appended exceeds the frame limit is held by its author alone, whatever appends, live traffic, connections and closings follow |
| FloodSizes.TooLargeEndsSessions | src/network.rs:524 | Once at rest, no session of the author that was to send it is left |
| FloodSizes.SessionsStandExactly | src/network.rs:480-529 | Between nodes that welcome each other's events, traffic that has come to rest has left every session exactly when none was to send an event beyond the frame limit |
| FloodSizes.ReceiptClosesExactly | src/network.rs:484-490 | In every run a receipt ends its session exactly when the receiver blocks the author, or lacks the group with the key it was sealed with, or its channel in that group; and it ends no other |
| FloodLimits.AtRestNothingMoves | src/network.rs:480-529 | An event that its author held in a mesh at rest is held by the same nodes for ever under appends, live traffic, local operations and closings |
| FloodLimits.FloodingDeliversExactly | src/network.rs:480-529 | Between two states of rest, over the sessions of the first, with no other event too large: a node connected to a holder of an event has it exactly when it had it then, is its author, or the event was appended since and fits a frame |
| FloodLimits.StandingSessionsDeliver | src/network.rs:480-529 | Over the sessions that still stand at the second, whatever the sizes and under all live actions: exactly when the event is new since the first, or the node had it then |
| FloodLimits.PublishedArrivesExactly | src/node.rs:254-269 | When one event is appended and the mesh comes to rest, in any way, a node that the standing sessions of the group connect to the author holds it exactly when it is the author or the event fits a frame |
| FloodLimits.PublishedComesToRest | src/node.rs:254-269 | After a successful append there is such a way to rest |
| FloodLimits.SyncIsNeverFlooded | src/network.rs:657-663 | An event taken while synchronising in a mesh at rest reaches no other node, whatever live traffic follows |
| FloodLimits.SyncLeavesAGap | src/network.rs:657-663 | A run of three nodes that ends at rest with a neighbour that lacks a synchronised event |
| Instances.NodesAgree | src/store.rs:277-281 | The stores of any two nodes of a mesh agree on every key both hold, as the session theorems ask |
| Instances.ASessionIsReady | src/network.rs:310-472 | A concrete start that meets every assumption of the session theorems, with heads that differ |
| Instances.ALineCanMeet | src/network.rs:310-472 | Three nodes in a line, one event at one end: a start that meets every assumption of the convergence over a graph, with any number of rounds |
| Instances.APairPublishes | src/network.rs:480-529 | Two linked nodes that meet every assumption of the flooding theorems, and a run in which what one appends the other comes to hold |
| Instances.ALargeAttachmentStaysHome | src/network.rs:524 | The same two nodes and an attachment that no frame carries: in every live run to rest the other node lacks it and the session that was to send it is gone |
| Instances.HandoverLosesAText | src/network.rs:441-474 | A concrete run of one side that is live and at rest, holds a text and has sent nothing |
| Presence.SharedNetworkState.Online | src/network.rs:103-110 | One session more and one line, as the state function has it |
| Presence.SharedNetworkState.Offline | src/network.rs:112-127 | One session less, and a line exactly when it was the last |
| Presence.SharedNetworkState.Note | src/network.rs:129-137 | The last twelve lines stay |
| Presence.SharedNetworkState.Snapshot | src/network.rs:75-92 | The listen address, the peers with a session in key order, the status lines and the generation |
| Presence.NeverSaturates | src/network.rs:112-127 | The decrement of an ending session never saturates |
| Presence.SnapshotExactly | src/network.rs:75-142 | Over any interleaving of sessions, lines and bumps by others: a peer is listed exactly when a session with it is online; the status is the last lines, twelve at most; the generation counts the changes |
| Presence.SnapshotAscends | src/network.rs:75-92 | No peer is listed twice |
| Presence.LinesExactly | src/network.rs:103-137 | The status is the last twelve lines that the events alone tell: each connection, each end of a peer's last session, each note |
| Presence.ListedAsOfLatest | src/network.rs:75-92 | A snapshot lists exactly the peers with a session online, each as of its latest session |
| Audio.ResampleAt | src/audio.rs:415-433 | Which input sample each output sample is, in closed form |
| Audio.ResampleCounts | src/audio.rs:415-433 | How many samples come out |
| Audio.FramesUnique | src/audio.rs:424-431 | There is one way only to cut a stream into frames of 960 and a shorter rest |
| Voice.Microphone.Callback | src/audio.rs:409-434 | The loop over one callback frames the old rest and the resampled input; a muted one sends nothing, forgets the rest and keeps the phase |
| Voice.SplitDoesNotMatter | src/audio.rs:404-433 | However the input is split into callbacks, frames, rest and phase are those of one callback with all of it |
| Voice.MicrophoneExactly | src/audio.rs:404-433 | Frames of exactly 960 and a shorter rest make up the resampled stream, floor(k * 48000 / rate) samples for k inputs |
| Muting.OnlyUnmutedIsSent | src/audio.rs:409-434 | Over any run of callbacks with their mute flags, the frames sent are those of the maximal unmuted stretches, each framed on its own from the phase kept; what is left over and the phase are those of the last |
| Muting.SentFromOneStretch | src/audio.rs:409-434 | So every frame comes from one unmuted stretch: it holds no sample heard while muted and joins none from both sides of a mute |
| Muting.MutedInputIsIgnored | src/audio.rs:409-413 | What is heard while muted makes no difference |
| Muting.MutedCallbackIsSilent | src/audio.rs:409-413 | A muted callback sends nothing, leaves no rest and keeps the phase |
| Voice.Playback.PushResampled | src/audio.rs:347-357 | A mixed frame is clamped, resampled from phase zero and queued; what does not fit is lost |
| Voice.ClampedIsNearest | src/audio.rs:347-357 | A clamped sample is the nearest from -1 to 1 |
| Voice.QueuedAt | src/audio.rs:347-357 | What the queue holds after a push, sample by sample: what was there, then for each sample due the clamped input it falls on, as far as there is room |
| Voice.PlaybackFrameLength | src/audio.rs:347-357 | A mixed frame becomes floor(rate / 50) samples |
| Voice.PlaybackKeepsPaceExactly | src/audio.rs:347-357 | k frames give as many samples as their whole stream exactly when k * (rate % 50) < 50, and never more |
| Voice.PlaybackLagsAt11025 | src/audio.rs:347-357 | Two frames played at 11025 samples a second come out one sample short of their stream |
| Voice.NewerExactly | src/audio.rs:359-362 | Between counters within the window the wrapped comparison is the comparison of the counters |
| Voice.NewerWindowIsTight | src/audio.rs:359-362 | It fails just beyond both ends |
| Voice.DiffersFromSerialOrder | src/audio.rs:359-362 | It differs from the order of RFC 1982 exactly at a distance of 2^31 - 1 |
| Voice.PeerDecoder.Take | src/audio.rs:300-316 | A packet is decoded when newer than the last one accepted; at most 9600 samples stay queued |
| Voice.DecoderTakesRunningMaxima | src/audio.rs:300-316 | Under loss, reordering and duplication, across wraps, a decoder accepts exactly the packets whose true counter exceeds all it accepted |
| Voice.RunningMaximaAscend | src/audio.rs:300-316 | So the accepted counters ascend strictly |
| Voice.DecoderQueuesRunningMaxima | src/audio.rs:300-316 | It has then queued the last 9,600 samples of these packets, in the order of their counters |

## Left out

- The user interface, settings, screen capture, mDNS, UPnP, QUIC, TLS and the asynchronous runtime: links are unbounded and every interleaving of steps is allowed.
- The SQLite engine: a transaction is one step, tables are maps with the declared keys, checks and references. The primary key on event ids is modelled.
- The mathematics of the ciphers, signatures and hashes, the nonces drawn for channel descriptors, and the encodings themselves, which are taken as injective, except the lengths that bound a batch.
- Connection data: the table of peer endpoints, the times peers were last seen, the reason and time of a block, latency, and the addresses of the snapshot.
- The text form of an invite, and its endpoints; the identity file, and renaming: the name is an argument of each append.
- EventStore.Store.CreateChannel: takes the name already cleaned, because lower-casing is a table of the standard library and no property of a run rests on it.
- EventStore.Store.ImportInvite: takes the decoded invite and stores no endpoints, because the endpoint table is in no replication property.
- EventStore.Store.BlockPeer: without the reason and time of the block, which no query reads.
- EventStore.Store.RememberPeer: without the endpoint and the time the peer was last seen, which choose whom to dial.
- Presence.SharedNetworkState.Snapshot: without the advertised addresses, a sorted list that only grows.
- The order of groups or channels that are equal in time or position and in name, which the queries leave open: the model takes them by id.
- Names in the replication of events: a name may differ between replicas. What becomes of names is in `Operations`, `Invites` and `Wire.ChannelsCopied`.
- Sizes of records other than event batches and live events: a list of very many groups, channels or requests is assumed to fit a frame.
- Channels created, events appended or peers blocked while a session synchronises: `Transfer.SendRequestedEvents` and `Handover` allow growth, on one side; the two-sided session theorems assume stores at rest.
- Cluster.ClusterConverges: the sessions of a node run one after the other, and no node blocks another or an author; synchronisations of one node at the same time are not modelled.
- Broadcasts lost to a lagging session; in `Handover`, what the peer takes meanwhile from its other sessions.
- Live records other than events: channel updates, pings, voice and screen packets.
- The exit of the page loop on a zero cursor: the cursor is at least 2 after the first row, so it is never taken.
- Averaging of channels and the level meter of the microphone, the square-root gain of the mixer, floating-point rounding, the codec, the queues to the encoder and from the speaker, and the eviction of a silent decoder: the filter is stated between evictions.
- Broken connections: no record is lost or reordered on a link; a side that fails stays failed, and what its peer then sees is not modelled.
