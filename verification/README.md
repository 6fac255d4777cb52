# Kryfo, modelled in Dafny

A model of the parts of Kryfo that are hardest to get right by reading, and proofs about
it: fetching every wrap from relays that answer in pages and drop connections, handing
each delivery to the app until it is kept, the relay's push registrations and knocks, the
take-over between reconnects, automatic's search for a way into tor, the handle registry,
the pin table and the padding of sealed rows.

Values and pure decisions are datatypes and functions. What the program changes in place
is a class whose methods are tied to those functions by `View()`. What several goroutines
do at once is a state machine: a datatype for the state, one for the steps, and theorems
over every run.

| files | what they hold |
|---|---|
| `Stamps`, `Descent`, `Walk` | the limit-th newest of an answer, the walk down a relay's window, resumed over any number of connections, and how many pages it takes |
| `Book` | holds and marks of our relay's entries |
| `CatchupRun`, `CatchupProof`, `CatchupGap` | runs of any connections on those entries, the bound on the next window, and for each booking exactly when it keeps the bound |
| `CatchupTimely`, `CatchupLoss` | runs in which connections book in turn, where the bound always holds on one entry, and two runs that lose a wrap |
| `Anchor` | the anchor file, and what a restart after a crash reaches back to |
| `SeenSet`, `SeenLog`, `SeenMirror` | which ids are remembered or held, the file that says so, and the two side by side |
| `Delivery`, `DeliveryProof`, `DeliveryPlaces`, `Desk` | inbox, poll and ack: no delivery lost, none twice, and where each line is after every call |
| `KnockTable`, `KnockTableProof`, `KnockRun`, `KnockForget`, `KnockDesk` | the knock registrations, their counters and caps, and newer wins |
| `KnockFloor` | the floor between knocks to one endpoint |
| `KnockQueue`, `KnockQueueProof`, `KnockQueueRun`, `KnockLanes`, `KnockServe`, `KnockSender` | the knocks waiting and in flight, and the turns between a server's lanes |
| `Reconnect` | the reconnect slot |
| `Auto`, `AutoPass`, `AutoMode` | automatic's plan, a pass of it, and modes changing under it |
| `Registry`, `RegistryFile` | signed changes to handles, and the file they go to |
| `Pin`, `Vault` | the pin table with ideal cryptography, row padding |
| `Wrappers` | an optional value |

## Results that are not what the source says

- The bound on the next window holds in every run on one entry of our relay in which a
  connection books before the next one connects (`CatchupTimely.OneEntryKeepsBound`), and
  on several as long as, besides, no stepped pass lets the last hold go
  (`CatchupTimely.EntriesKeepBound`). It fails in two ways. `Book.Done` lets the other
  entries go while its own hold is already gone: two entries lose a wrap
  (`CatchupLoss.TwoEntriesCanLose`). A dead connection's walk books its cut after the
  entry connected again, and the new connection then steps over ground it does not know:
  one entry loses a wrap (`CatchupLoss.LateCutCanLose`). For any booking at all, late or
  on a dead socket included, `CatchupGap.LosesExactlyWhen` gives the condition on holds,
  anchor, file, clock and connection, both ways; its quantifier is over the states of the
  invariant with these, which may be more than the reachable ones.
- A forget keeps older registrations out while it, or anything newer, is kept. Once a newer
  registration took its place and its endpoint was let go, a registration from before the
  forget is taken again (`KnockForget.LetGoLosesTheGuard`), exactly while the forget is
  inside the clock window (`KnockForget.LetGoGoesBackExactlyWhen`). Without an endpoint let
  go the times never go back (`KnockForget.TakingsAscend`).
- The knock caps hold for exactly the settings in which a quarter of one server's endpoints
  is at least one (`KnockRun.CapsHoldExactlyWhen`): a server's first endpoint is taken
  without a look at that quarter.
- Signed times of a handle never go back if and only if no change may wait longer than the
  clock window between its signature check and the store's lock
  (`Registry.NeverBackExactlyWhen`).
- A compacted seen log reads back as its rings as long as no line names an id the ring has;
  the first line that does, once the list is as long as the ring, breaks it
  (`SeenLog.OneMoreReadsBackExactlyWhen`). Two runners on one file can write such a line.
- A hold is on file exactly when the replay finds room for its line, and the replay counts
  held ids past their time which the set in memory has let go of
  (`SeenMirror.OpMirrorsExactlyWhen`): after two hundred texts held a fortnight ago a new
  hold is lost at the next start (`SeenMirror.OldHoldsLoseOne`).
- Two reconnects can be past their wait at once when a wait times out
  (`Reconnect.TimeoutAllowsTwo`), and then exactly when the waiting one is still the newest
  and another works (`Reconnect.TimeoutBreaksExactlyWhen`).
- A held line reads back as written exactly when its times are in order
  (`SeenLog.HeldLineRoundTrip`), and a padded row exactly when its length fits 32 bits
  (`Vault.UnpadPad`).

## Model

| member | source | states |
|---|---|---|
| `Stamps.Below` | engine/catchup/catchup.go:27-37 | the limit-th newest stamp: at least that many are at or above it and fewer are above; 0 for an empty answer, the oldest for a short one |
| `Stamps.LimitThUnique` | engine/catchup/catchup.go:22-37 | at most one stamp is the limit-th newest, so that description fixes `Below` |
| `Stamps.MoreNeverLowersBelow` | engine/catchup/catchup.go:22-37 | more events in an answer never lower where the next page starts |
| `Stamps.Answer.Add` | engine/catchup/catchup.go:64-77 | keeps fewer than twice the limit of stamps, yet counts as if all were kept |
| `Stamps.Answer.BelowSoFar` | engine/catchup/catchup.go:80 | the trimmed stamps give the same `Below` as all that were added |
| `Stamps.Newest` | engine/catchup/catchup.go:42-59 | in place and in order, exactly the events not under the limit-th newest stay, and the rest is cleared |
| `Stamps.NewestKeepsBelow` | engine/catchup/catchup.go:39-59 | a full page trimmed early still steps down to the same stamp, whatever comes after |
| `Stamps.ReadPage` | engine/nostr.go:697-739 | reads to the end of stored events or a few times the limit, and steps down as if nothing had been dropped |
| `Walk.NothingAboveIsMissed` | engine/catchup/catchup.go:141-221 | an honest full page holds every stored event above its limit-th newest |
| `Walk.TopSecondIsWhole` | engine/catchup/catchup.go:141-221 | a page that was not cut short holds all of the second it started at |
| `Walk.ReadMissesNothing` | engine/nostr.go:697-739 | a page as it is read, trimmed to its limit-th newest, still misses nothing stored above where the walk goes on |
| `Walk.ReadTopIsWhole` | engine/nostr.go:697-739 | nor anything of the second it started at, when it was not cut short |
| `Walk.PageCovers` | engine/catchup/catchup.go:141-221 | what lies between a page's start and its step down was fetched, also past the ground of an earlier walk |
| `Walk.PageGoesOn` | engine/catchup/catchup.go:141-221 | each page leaves fewer pages to come: at most two for every stamp further down |
| `Descent.StepIsFewer` | engine/catchup/catchup.go:141-221 | stepping down past a stamp, or by one second where nothing is stored, leaves fewer |
| `Walk.EmptyPageCovers` | engine/catchup/catchup.go:141-221 | an empty answer without error ends the window, or the stretch above the earlier walk |
| `Walk.Walk` | engine/catchup/catchup.go:141-221 | everything stored in the window above where it stopped was handed over, and all of it when complete; cursors strictly descend and never stand on ground walked before; news counts what was new; it stops early only at its page limit, on a dead connection or a page cut short, and a relay that lasts two pages for each stamp in the window and two more is walked to the end |
| `Walk.Continue` | engine/catchup/catchup.go:111-119 | a walk resumed from a mark leaves a mark whose ground is all fetched, or none and everything is, and is complete under the same conditions |
| `Walk.FirstAnswerTakes` | engine/catchup/catchup.go:22-37 | a first answer that is not full is the whole window, and a full one misses nothing above its limit-th newest |
| `Walk.CheckIns` | engine/catchup/catchup.go:98-221 | over any number of cut connections carrying marks on, everything stored at the first one is fetched once one completes, a mark's ground always is, and one does complete as soon as one lasts long enough |
| `Book.Keeper.Connect` | engine/catchup/book.go:63-81 | the window's base is the lowest hold of the entries and what the connection found is noted |
| `Book.Keeper.KeepFirst` | engine/catchup/book.go:114-131 | what the first answer took joins the walked ground unless it leaves a gap above it |
| `Book.Keeper.Done` | engine/catchup/book.go:137-150 | a pass ends its mark, keeps its own hold only if it stepped over ground walked before, and lets go of the other entries that owed nothing below its base |
| `Book.Keeper.Start` | engine/catchup/book.go:164-168 | a start holds every entry of ours from the anchor |
| `Book.Keeper.Floor` | engine/catchup/book.go:171-180 | the lowest floor held among the entries, if any |
| `Book.FreeAllHolds` | engine/catchup/book.go:137-150 | a pass takes hold and mark of exactly the other entries that owed nothing below its base |
| `Book.StartHolds` | engine/catchup/book.go:164-168 | after a start each entry of ours holds at the anchor or lower, and every other hold and every mark is as it was |
| `Book.PassElsewhereCovers` | engine/catchup/book.go:87-150 | once a pass of another entry went as low as a connection's debt, nothing that connection books changes the book; one that did not go as low leaves the debt to be booked |
| `Book.RefusedOwesNothing` | engine/catchup/book.go:152-159 | a refused subscription's entry owes nothing afterwards, whatever an older connection books on it, and no other entry changes |
| `Book.UncoveredIsBooked` | engine/catchup/book.go:91-131 | with no pass elsewhere since the connect, debt and mark are in the book as booked, a first answer's joined to the kept one unless a gap lies between, and no other entry changes |
| `CatchupProof.BaseIsLow` | engine/catchup/book.go:63-81 | no connection's base is above the lowest hold or the anchor, and one from the anchor as it stands is exactly the lowest of them |
| `CatchupProof.InvGivesBound` | engine/catchup/book.go:61-81 | the invariant keeps every missing wrap at or above the start of any next window, and of the one after a restart |
| `CatchupRun.WalkFeedsStep` | engine/catchup/catchup.go:141-221 | a walk's coverage is what the run's cut and completed walks take from the missing |
| `CatchupProof.BookKeeps` | engine/catchup/book.go:91-159 | whatever a connection books, and given the new window, the rest of the invariant survives: a wrap missing on a mark's ground came no earlier than the mark's age, and one a connection was not due came after it was last heard |
| `CatchupProof.SafeKeepsWindow` | engine/catchup/book.go:91-159 | after a safe booking no wrap left is under the new window |
| `CatchupProof.StepKeeps` | engine/nostr.go:1619-1913 | every step keeps the invariant: connects at any time, first answers, walks, cuts, passes and live moves late or on a dead socket, refusals, saves, starts and restarts, the bookings among them if safe |
| `CatchupProof.SafeRunsKeepBound` | engine/nostr.go:1619-1913 | over any run of any number of connections on the entries, nothing missing is ever under a next window if every booking is safe |
| `CatchupGap.LosesExactlyWhen` | engine/catchup/book.go:91-159 | a booking can lose a wrap, in some state with the same holds, anchor, file, clock and connection, if and only if it is not safe |
| `CatchupTimely.WalkDoneHolds` | engine/catchup/book.go:137-150 | what a complete walk leaves of the due stays under a hold, unless the pass lets the last one go |
| `CatchupTimely.StepKeeps2` | engine/catchup/book.go:61-180 | every timely step keeps each entry's hold and mark, and each last connection, together |
| `CatchupTimely.EntriesKeepBound` | engine/catchup/book.go:61-150 | under any interleaving on several entries, each connection booking before its entry's next one, nothing missing is under a next window as long as no stepped pass lets the last hold go |
| `CatchupTimely.OneEntryKeepsBound` | engine/catchup/hold.go:17-67 | on one entry every such run keeps the bound, passes booked after their socket died included |
| `CatchupLoss.TwoEntriesCanLose` | engine/catchup/book.go:137-150 | a run of two entries, from stored wraps, kept first answers and full answers of five, in which a live pass loses a stored wrap |
| `CatchupLoss.LateCutCanLose` | engine/nostr.go:1994-1996 | a run of one entry, timely but for one cut booked after the entry connected again, that loses a stored wrap |
| `Anchor.LowestLine` | engine/nostr.go:2505-2522 | the oldest stamp of a set's lines that the app has not kept |
| `Anchor.Runner.SaveLast` | engine/nostr.go:1380-1406 | the anchor only moves up, and the file is lowered to the floors our relay owes and the oldest unconfirmed delivery |
| `Anchor.OursStillHolds` | engine/catchup/book.go:161-180 | other relays answering after a restart leave our relay's holds alone |
| `Anchor.CrashReachesBack` | engine/nostr.go:1351-1406 | after a crash the first window on our relay starts no later than every floor it owed and every line not kept at the save, whoever answers first |
| `SeenSet.IdRing.Add` | engine/seen.go:172-184 | the circular buffer holds the newest distinct ids, the oldest overwritten |
| `SeenSet.IdRing.Has` | engine/seen.go:167-170 | membership of exactly those |
| `SeenSet.HeldRoomKeepsCaps` | engine/seen.go:75-91 | holding one more within the room keeps the caps on all, per group and on groups |
| `SeenLog.HeldLineRoundTrip` | engine/seen.go:261-292 | a held line reads back as written exactly when its times are in order |
| `SeenLog.ReplayIsScan` | engine/seen.go:228-259 | replaying the log gives the ring contents of the full lists a compaction scans |
| `SeenLog.DropHeld` | engine/seen.go:228-259 | a drop mark moves each held id over once, in the order first held |
| `SeenLog.WriteHeld` | engine/seen.go:585-602 | the ids let go of and the ones still held, each once and without those the relays no longer keep |
| `SeenLog.Compact` | engine/seen.go:527-608 | one pass over the file writes exactly the compacted lines |
| `SeenLog.CompactionKeepsMeaning` | engine/seen.go:527-617 | replaying the compacted file gives the same remembered ids and the same held ones, but for those pruned |
| `SeenLog.SpacedExactlyWhen` | engine/seen.go:172-184 | no id comes again within a ring's length exactly when no line names an id the ring has as it is read |
| `SeenLog.OneMoreReadsBackExactlyWhen` | engine/seen.go:578-583 | from a list in order and as long as the ring, one more line is compacted faithfully if and only if the ring does not have its id |
| `SeenMirror.OpMirrorsExactlyWhen` | engine/seen.go:361-521 | whatever the call, the file goes on saying what the set in memory does; a hold exactly when the replay has room for its line |
| `SeenMirror.RunMirrors` | engine/seen.go:201-521 | over any run of calls whose holds find room on file, a later start has the rings and the holds the runner had, but for those past their time |
| `SeenMirror.RestartHas` | engine/seen.go:201-225 | a start reads back both rings and every held id the relays still keep, as it was |
| `SeenMirror.DropOpensHeld` | engine/seen.go:234-238 | after a drop mark nothing is held and every id that was is remembered as kept |
| `SeenMirror.OldHoldsLoseOne` | engine/seen.go:240-247 | a file of two hundred old holds, after which a hold taken in memory is not read back |
| `Desk.Inbox.WalkBegins` | engine/nostr.go:2672-2676 | the counts are those of the walks under way, with this one |
| `Desk.Inbox.WalkEnds` | engine/nostr.go:2678-2686 | and without it, an end without a beginning changing nothing |
| `Desk.Inbox.LiveCame` | engine/nostr.go:2689-2695 | the address, and no other, is no longer one whose lines are kept back |
| `Desk.Inbox.Take` | engine/nostr.go:1415-1451 | an event is new exactly when it is not our own and its id is not claimed; it then goes to the inbox, or is remembered as one that did not open; it moves the anchor exactly when it opened now or the app took it before |
| `Desk.Inbox.Requeue` | engine/nostr.go:2483-2501 | lines back to the front in order, one try further on, the worn-out ones released |
| `Desk.Inbox.Poll` | engine/nostr.go:2704-2797 | an unconfirmed batch comes back first, the lines of walked addresses are kept back exactly until they have been for too long or too much, and the rest goes out under a new token |
| `Desk.Inbox.SortOut` | engine/nostr.go:2524-2596 | the three parts of the batch: which place is in which, `DeliveryPlaces.SortOutPlace` says |
| `Desk.Inbox.MarkHeld` | engine/nostr.go:2625-2649 | what is left on the relay is held where there is room, taken as kept where not, and comes again where its file was let go of |
| `Desk.Inbox.Ack` | engine/nostr.go:2524-2596 | the whole effect of the app's answer, whose outcome at every place `DeliveryPlaces.AckPlaces` states |
| `Desk.Inbox.OwedFloor` | engine/nostr.go:2505-2522 | the lowest stamp of the lines the app has not kept, waiting or out |
| `DeliveryProof.AckAccounts` | engine/nostr.go:2524-2596 | after an ack every line of the batch is back, kept, held or released, in one way only, and released only after five offers |
| `DeliveryProof.PollAccounts` | engine/nostr.go:2704-2797 | a poll lets go only of lines offered five times or that can never go over |
| `DeliveryProof.RunKeeps` | engine/nostr.go:2483-2797 | over every run each id under way has exactly one line, waiting or out, and none was offered more than five times |
| `DeliveryProof.LateAckChangesNothing` | engine/nostr.go:2524-2596 | an ack of any but the newest token, or a second one, changes nothing |
| `DeliveryPlaces.SortOutPlace` | engine/nostr.go:2557-2574 | a place is back exactly when the app refused it or its file was let go of since, left on the relay when the app says so, and else kept |
| `DeliveryPlaces.AckPlaces` | engine/nostr.go:2524-2596 | where an ack leaves each place, in every reachable world: refused, or left with its file let go of, it waits again one offer further on, or is let go of after the fifth and not remembered; neither, it is remembered and nothing waits for it; left, it is held with its stamp, group and bounds, or remembered where it is too old or too many are held; what waited before stays behind, in order |
| `DeliveryPlaces.PollPlaces` | engine/nostr.go:2704-2797 | where a poll leaves each line, waiting or out: kept back by its address alone, else in the batch with its file's generation, or remembered as one that can never go over; an unconfirmed one is one offer further on |
| `DeliveryPlaces.OldAckChangesNothing` | engine/nostr.go:2524-2539 | once another poll went out an answer to any earlier batch changes nothing, however late |
| `DeliveryPlaces.TakeExactlyWhen` | engine/nostr.go:1415-1451 | a wrap joins the inbox, last, exactly when it is a peer's, opens, and its id is nowhere under way, remembered or held; one that does not open is remembered; any other changes nothing |
| `DeliveryPlaces.RunUnseen` | engine/seen.go:328-343 | over every run no line that waits or is out has an id that was handed over, did not open, or is held |
| `DeliveryPlaces.RunGenuine` | engine/nostr.go:1415-1451 | over every run each line that waits or is out was taken as it is, opened and not ours |
| `DeliveryPlaces.LetGoWantsAgain` | engine/seen.go:651-694 | after a file's holds are let go every id held there is taken when it comes again, and the generation has moved on |
| `Delivery.SortOutCounts` | engine/nostr.go:2524-2596 | sorting a batch loses and doubles no line |
| `KnockTableProof.SetKeeps` | relay-live/knock.go:801-835 | taking, renewing or moving a registration keeps every counter equal to what it counts |
| `KnockTableProof.DropKeeps` | relay-live/knock.go:837-872 | dropping one does, with its endpoint and server when they are left empty |
| `KnockTableProof.SettleKeeps` | relay-live/knock.go:876-889 | an endpoint no longer new leaves the pending and unchecked counts right |
| `KnockTableProof.NoteUncheckedKeeps` | relay-live/knock.go:748-752 | a name never looked up is counted once, and only for a pending endpoint |
| `KnockRun.NoMoreKeepsCaps` | relay-live/knock.go:837-889 | what only shrinks passes no cap |
| `KnockRun.DropNoMore` | relay-live/knock.go:837-872 | dropping a registration makes no counter grow |
| `KnockRun.RoomFromCheck` | relay-live/knock.go:652-676 | a registration the checks let through has room under every cap, newcomer or not |
| `KnockRun.RoomAfterDrop` | relay-live/knock.go:801-811 | a move's room survives its old place going first |
| `KnockRun.MoveValid` | relay-live/knock.go:801-835 | a checked registration on another endpoint keeps every counter and passes no cap of share, server or endpoint |
| `KnockRun.TakeValid` | relay-live/knock.go:683-755 | a whole registration, with the cap on unchecked names, keeps counters and caps |
| `KnockRun.NextValid` | relay-live/knock.go:614-889 | so does every stretch under the lock, in any order |
| `KnockRun.RunValid` | relay-live/knock.go:614-1094 | in every reachable state the counters are the sizes of the sets they count and no cap is passed, for every fitting setting of the caps |
| `KnockRun.CapsHoldExactlyWhen` | relay-live/knock.go:134-139 | the caps hold from an empty table on exactly for the settings in which a quarter of a server's endpoints is at least one |
| `KnockForget.TakenIsNotOlder` | relay-live/knock.go:614-646 | a registration taken is never older than what is kept, nor than what left the window |
| `KnockForget.TakingsAscend` | relay-live/knock.go:590-646 | over every run without the endpoint let go the times taken for an address never go back |
| `KnockForget.ForgetGuards` | relay-live/knock.go:760-792 | a forget taken guards its time |
| `KnockForget.LetGoLosesTheGuard` | relay-live/knock.go:1032-1049 | a run from an empty table that takes 100, 300 and then 150, from before a forget at 200, once the endpoint was let go |
| `KnockForget.GoesBackExactlyWhen` | relay-live/knock.go:614-646 | given room, a registration from before a time can be taken if and only if that time is inside the clock window and nothing kept leaves less than two seconds under it |
| `KnockForget.LetGoGoesBackExactlyWhen` | relay-live/knock.go:1032-1049 | so after an endpoint let go exactly while the time guarded is inside the window |
| `KnockForget.HasRoomIs` | relay-live/knock.go:652-676 | the check of the counters is one of the sets they count: an address not yet registered leaves the last twentieth free, a registered one is turned away only at the cap |
| `KnockForget.TakeExactlyWhen` | relay-live/knock.go:614-755 | a registration is taken exactly when it is timely, newer than all that is known of its address and there is room; it then stands for a month, and no other address changes |
| `KnockForget.UncheckedCounts` | relay-live/knock.go:748-752 | a new endpoint whose name was not looked up counts among its server's unchecked ones |
| `KnockForget.OtherSteps` | relay-live/knock.go:760-1093 | a forget, a drop, a sweep and an endpoint that proved itself do to registrations and forgets exactly what they say |
| `KnockDesk.Knocker.Settled` | relay-live/knock.go:876-889 | an endpoint leaves the pending ones, registrations stay, and counters and caps hold on |
| `KnockDesk.Knocker.DropKey` | relay-live/knock.go:837-852 | the table without one address |
| `KnockDesk.Knocker.SetKey` | relay-live/knock.go:801-835 | the table with an address set, renewed or moved, keeping when it was first taken |
| `KnockDesk.Knocker.TakeBegin` | relay-live/knock.go:683-722 | taken exactly when admitted, within budget and in need of no lookup, a lookup asked for exactly for a new endpoint outside the list, and else nothing changes |
| `KnockDesk.Knocker.TakeEnd` | relay-live/knock.go:722-755 | after it everything is checked again, and taken exactly if it still may be |
| `KnockDesk.Knocker.ForgetEnd` | relay-live/knock.go:760-792 | a forget on disk is taken unless a newer change came meanwhile |
| `KnockDesk.Knocker.Gone` | relay-live/knock.go:1032-1049 | the endpoint and exactly its addresses go |
| `KnockDesk.Knocker.Sweep` | relay-live/knock.go:1063-1093 | one chunk drops only what expired, and all of it when it was less than a chunk |
| `KnockFloor.NextKeeps` | relay-live/knock.go:998-1028 | each ring, timer or endpoint let go keeps floor and answer |
| `KnockFloor.EveryWrapIsRung` | relay-live/knock.go:985-1028 | over every run knocks enter the queue a floor apart, and each wrap is followed by one or by the one timer due soon after |
| `KnockFloor.Endpoint.RingLocked` | relay-live/knock.go:998-1017 | a knock now, a trailing one with how long it waits, or none |
| `KnockFloor.Endpoint.WrapFor` | relay-live/knock.go:985-993 | a wrap always finds a knock queued, a timer set or one pending |
| `KnockFloor.Endpoint.TrailDue` | relay-live/knock.go:1019-1028 | the timer's knock goes in unless the endpoint is gone |
| `KnockQueue.Best` | relay-live/knock_send.go:91-107 | the nonempty lane with the most credit, and the earliest of those |
| `KnockQueue.NextLane` | relay-live/knock_send.go:91-107 | a nonempty lane whenever there is one |
| `KnockQueue.Choose` | relay-live/knock_send.go:293-336 | a server goes out only with room, pace and a knock, a decoy only when no real one waits |
| `KnockSender.PickLane` | relay-live/knock_send.go:91-107 | the single pass over the lanes finds that lane and credits |
| `KnockSender.TakeOut` | relay-live/knock_send.go:229-236 | the first place of an endpoint taken out |
| `KnockSender.Sender.RingAppend` | relay-live/knock_send.go:169-175 | a server goes to the end of its ring unless it is there |
| `KnockSender.Sender.AddLocked` | relay-live/knock_send.go:179-227 | the queue with the knock added, as `KnockLanes.AddExactlyWhen` says, and its invariant |
| `KnockSender.Sender.DropEndpoint` | relay-live/knock_send.go:246-257 | an endpoint let go leaves every lane and the totals |
| `KnockSender.Sender.DoneLocked` | relay-live/knock_send.go:339-351 | a post over gives its place back, and an idle server goes |
| `KnockSender.Sender.GoRound` | relay-live/knock_send.go:293-336 | each server in the ring has one turn until a knock goes out |
| `KnockSender.Sender.NextLocked` | relay-live/knock_send.go:276-291 | the two rings by turns, nothing without budget |
| `KnockQueueProof.SumWithout` | relay-live/knock_send.go:137-152 | the sum over servers does not hang on their order |
| `KnockQueueProof.AddKeeps` | relay-live/knock_send.go:179-227 | adding keeps places, rings, totals and caps |
| `KnockLanes.AddExactlyWhen` | relay-live/knock_send.go:179-227 | a knock is queued exactly when its endpoint is live, has no such place and its lane is short enough, half as long for decoys; it is then last in that lane, counted, and its server in its ring; else nothing changes |
| `KnockLanes.RunCaps` | relay-live/knock_send.go:179-351 | over every run no lane is longer than a server of its kind may have it, the newest one with the decoys, and decoys fill at most half |
| `KnockLanes.SharesByWeight` | relay-live/knock_send.go:89-107 | of any number of picks with knocks in the same lanes each lane gets its share by weight, but for what its credit changed |
| `KnockLanes.NeverNone` | relay-live/knock_send.go:89-107 | a lane with knocks has its turn within a number of picks given by the spread of the credits, whatever they are |
| `KnockLanes.EndGivesBack` | relay-live/knock_send.go:339-351 | a post over gives back one place in flight, takes nothing from any lane, and an idle server's record goes, exactly then |
| `KnockLanes.LetGoLeaves` | relay-live/knock_send.go:246-257 | an endpoint let go is in no lane any more, and no other one's flags change |
| `KnockQueueProof.OutKeeps` | relay-live/knock_send.go:317-333 | so does a knock going out |
| `KnockQueueRun.TurnKeeps` | relay-live/knock_send.go:293-336 | so does every kind of turn, a server's old record in the ring included |
| `KnockQueueRun.LetGoKeeps` | relay-live/knock.go:854-872 | so does an endpoint let go |
| `KnockQueueRun.OverKeeps` | relay-live/knock_send.go:339-351 | so does a post over |
| `KnockQueueRun.RunKeeps` | relay-live/knock_send.go:169-351 | so does every run |
| `KnockServe.ReachableHolds` | relay-live/knock_send.go:169-464 | in every reachable state a server with knocks waiting is in its ring once and in no other, places are flags, totals are sums, no lane is longer than it may be and no in-flight cap is passed |
| `KnockServe.AbleIsServed` | relay-live/knock_send.go:293-336 | a ring with a server that could be served is never gone round in vain |
| `KnockServe.SomeoneIsServed` | relay-live/knock_send.go:276-291 | with budget a knock goes out whenever any server in either ring could be served |
| `KnockServe.TurnJob` | relay-live/knock_send.go:293-336 | what goes out had its place and gives it up, its server had room and pace, and a decoy had no real knock beside it |
| `KnockServe.CreditsBalance` | relay-live/knock_send.go:91-107 | the turns given to the lanes are the turns taken from them |
| `Reconnect.NextKeeps` | engine/bridge.go:837-908 | every claim, wait, step, release and close keeps owner, slot, flags and channels together |
| `Reconnect.OneAtATime` | engine/bridge.go:780-908 | however many take over, as long as no wait times out at most one works on tor |
| `Reconnect.ClosedOnce` | engine/bridge.go:864-874 | each done channel is closed once by its own run, flags are up exactly while the newest has not released, and every step was the owner's |
| `Reconnect.FlagsClearAtTheEnd` | engine/bridge.go:864-874 | the flags go down only when the newest owner releases |
| `Reconnect.ClaimExactlyWhen` | engine/bridge.go:837-855 | a claim gets the slot exactly when it is free, forced, or the run in it began two minutes ago; it is then the newest, and the run it replaces is the one it waits for |
| `Reconnect.SinceIsBegan` | engine/bridge.go:944-950 | the time kept is when the newest run said it began, none before that or after it gave the slot back |
| `Reconnect.StepExactlyWhen` | engine/bridge.go:857-861 | a run goes on at its next step exactly when no newer one came |
| `Reconnect.TimeoutAllowsTwo` | engine/bridge.go:899-907 | a timed-out wait can put two past their wait |
| `Reconnect.TimeoutBreaksExactlyWhen` | engine/bridge.go:899-907 | and when exactly it does |
| `Reconnect.Guard.TryClaim` | engine/bridge.go:837-855 | refused exactly while one runs that is neither forced nor stuck, and else the run to wait for |
| `Reconnect.Guard.Mine` | engine/bridge.go:857-861 | yes exactly when no run came after; past its wait, and with no wait timed out, such a run has tor to itself |
| `Reconnect.Guard.Release` | engine/bridge.go:864-874 | the slot is free and its flags down if this run is the newest, and else as it was |
| `Auto.PlanIsDistinct` | engine/auto.go:270-307 | a plan holds no way twice, and no direct one where direct is skipped or blocked |
| `Auto.PlanHasMoat` | engine/auto.go:270-307 | moat is asked at one place, and nothing of its own comes after it |
| `Auto.LinesForAre` | engine/auto.go:249-266 | the lines of a remembered way: its transport's own, moat's first of that kind from its distributor, or the cached webtunnels |
| `Auto.PlanIs` | engine/auto.go:270-307 | a plan in full and in order: the way remembered if it is recent and has lines, direct unless skipped or blocked, the ask of moat, then obfs4, snowflake and cached webtunnels where there are lines and they do not stand first |
| `Auto.PlanHas` | engine/auto.go:270-307 | exactly which steps a plan has, and that the remembered way is first |
| `Auto.MoatStepsHas` | engine/auto.go:310-323 | moat's steps are its settings with lines for a transport there is, all of them |
| `Auto.PutStepIs` | engine/auto.go:1371-1412 | what a check-in puts in place: its way, else direct where that is open, else obfs4 as shipped, and a hold only when there is none of these |
| `Auto.CheckInIs` | engine/auto.go:1324-1352 | exactly which way a check-in takes: the one that worked last, direct only where allowed, and in snowflake's place a webtunnel or obfs4 that worked lately |
| `Auto.SpliceIsDistinct` | engine/auto.go:922-944 | moat's answer makes no way come twice and leaves what was behind |
| `Auto.SpliceNoDirect` | engine/auto.go:310-323 | nor does it bring direct in |
| `Auto.CheckInSkipsDirect` | engine/auto.go:1324-1412 | with skip_direct no check-in and no portal step is direct |
| `AutoPass.RunSteps` | engine/auto.go:789-878 | whatever verdicts, consent and answer come, the pass ends, tries no way twice and those before the ask as planned, asks moat at most once, is through with the first way that worked, and gives up only when every planned transport, and every one of moat's where it was asked, was tried in vain; with consent throughout it was |
| `AutoPass.RunPass` | engine/auto.go:764-787 | the same of a pass planned from memory: the remembered way first, and given up only when direct where allowed, obfs4, snowflake and webtunnel where there are lines, and the remembered transport were all tried in vain |
| `AutoPass.AskMoat` | engine/auto.go:804-826 | moat is asked exactly when it was not before and consent is there, and its steps come in |
| `AutoPass.AfterTry` | engine/auto.go:866-870 | consent that came late puts the ask in after the attempt, and what is left still shrinks |
| `AutoPass.Advance` | engine/auto.go:802-871 | one step keeps all of this, or ends the pass |
| `AutoMode.NextKeeps` | engine/auto.go:494-506 | mode changes, passes, check-ins, portal steps and answers in any order keep the mark within the mode at hand |
| `AutoMode.SkipDirectHolds` | engine/boot_mode.go:74-91 | in automatic with skip_direct direct is never marked welcome, and tor goes out only with bridges it holds |
| `AutoMode.WithoutBridgesExactlyWhen` | engine/boot_mode.go:71-91 | over every run tor goes out without bridges if and only if the mode is direct, or automatic has no lines, its direct step is marked and direct is not skipped |
| `AutoMode.MarkRaisedBy` | engine/auto.go:494-506 | whatever raises the mark was planned for the current mode and with its options, so no older step ever does |
| `AutoMode.UseTakesEffect` | engine/auto.go:494-506 | a step of the current generation is in place afterwards, and tor goes out by its lines, direct for the direct step, not at all for a hold; one of an older generation changes nothing |
| `AutoMode.DirectOverHolds` | engine/auto.go:829-832 | once its direct step is over automatic keeps tor off the network until another step is in place |
| `AutoMode.ModeTakesEffect` | engine/auto.go:1216-1312 | a mode taken is the mode with its options, and unless it differs in the consent alone nothing planned before takes effect any more |
| `AutoMode.NewModeLines` | engine/auto.go:1216-1282 | a mode with bridges always has lines, direct never |
| `AutoMode.Modes.Apply` | engine/auto.go:1216-1312 | what cannot be taken changes nothing, a change of consent alone keeps the generation, anything else ends the direct step |
| `AutoMode.Modes.Use` | engine/auto.go:494-506 | lines and mark change together, for a step of the current generation only |
| `Registry.TimesNeverGoBack` | server/handle/main.go:560-640 | signed times of the v2 changes applied to a handle never go back, and after a release are strictly newer, if no change waits past the window |
| `Registry.LateClaimIsTaken` | server/handle/main.go:146-156 | one run of five changes, the last waiting a second past the window, that applies a claim no newer than the release before it |
| `Registry.NeverBackExactlyWhen` | server/handle/main.go:146-156 | for every bound on the wait: no run within it takes times back if and only if the bound is at most the clock window |
| `Registry.OwnerStays` | server/handle/main.go:560-640 | no event changes whose a handle is: an entry keeps its key and its listing, goes only by a release of that key, and a new one is the claimant's; a refusal changes nothing |
| `Registry.ClaimFineExactlyWhen` | server/handle/main.go:560-598 | a claim is taken exactly when the handle is its key's and nothing newer was signed, or free with room; then the entry shows what was claimed; another key's handle is taken |
| `Registry.ReleaseExactlyWhen` | server/handle/main.go:624-640 | a release takes a handle away exactly when it is its key's, well signed and not older |
| `Registry.OnlyOwnerGivesUp` | server/handle/main.go:560-640 | over every run a handle stays its key's unless that key releases it |
| `Registry.OwnerClaimed` | server/handle/main.go:560-640 | whoever has a handle after a run had it before or claimed it in the run |
| `Registry.Handles.TakeClaim` | server/handle/main.go:560-598 | a claim's answer and effect: taken, repointed with its listing kept, unchanged or refused |
| `Registry.Handles.TakeRelease` | server/handle/main.go:624-640 | a release's answer and effect, and the memory of releases pruned |
| `RegistryFile.NextKeeps` | server/handle/main.go:160-197 | every change, lock, snapshot and write, failed ones too, keeps the file a past state and lets it not go back |
| `RegistryFile.AnsweredExactlyWhen` | server/handle/main.go:160-197 | an update is answered once its change is on file or its write ended, and ok exactly when it was not refused and its change is saved |
| `RegistryFile.FileIsAPastState` | server/handle/main.go:160-197 | the file is exactly one past state of the map, and an update that answered ok is in it |
| `RegistryFile.FileNeverGoesBack` | server/handle/main.go:182-197 | and stays in it |
| `Pin.OpensOne` | engine/pin.go:245-285 | a pin opens at most one entry |
| `Pin.UpgradeSame` | engine/pin.go:176-191 | a v1 table opens the same before and after |
| `Pin.ClashMeans` | engine/pin.go:289-306 | a pin clashes exactly when the map has it for some other entry, or a legacy check takes it |
| `Pin.SetsRefines` | engine/pin.go:329-349 | setup changes only the entry it names, or nothing |
| `Pin.SetupEnds` | engine/pin.go:329-349 | what a setup answers: refused for what it cannot store, or for a pin that opens another entry or is one of the two codes from before, and else done with the pin opening what was set |
| `Pin.RewrapsRefines` | engine/pin.go:355-397 | rewrap moves the same contents to the new pin, or nothing changes |
| `Pin.RunRefines` | engine/pin.go:176-411 | over any run the table is the map of pins to what they open |
| `Pin.NewTableMeans` | engine/pin.go:110-116 | a fresh table opens nothing |
| `Pin.PinCheck` | engine/pin.go:245-285 | the check over all entries finds what the pin opens, and nothing else, and says of each legacy check whether it matches |
| `Pin.PinClashes` | engine/pin.go:289-306 | the loop finds every clash |
| `Vault.BucketIsLeast` | engine/vault.go:74-83 | the bucket is the least allowed size that fits |
| `Vault.BucketIsMonotone` | engine/vault.go:74-83 | and grows with the row |
| `Vault.VaultBucket` | engine/vault.go:74-83 | the loop finds it |
| `Vault.UnpadPad` | engine/vault.go:85-110 | unpad gives back what was padded exactly when its length fits 32 bits |
| `Vault.PadUnpad` | engine/vault.go:96-110 | a row that reads as padded is the padding of what comes back |
| `Vault.UnpadChangesOnlyPads` | engine/vault.go:96-110 | unpad changes exactly the rows that are the padding of something |
| `Vault.PadInjective` | engine/vault.go:85-91 | no two rows pad alike |
| `Vault.VaultPad` | engine/vault.go:85-91 | the buffer filled is that padding |
| `Vault.VaultUnpad` | engine/vault.go:96-110 | header, size and zeros are checked, and anything else opens as it was |

## Left out

- Cryptography, JSON, hex and number formats, SQL and the network are not modelled: the pin table takes labels as injective, sealed boxes as opening with their own key alone and random bytes as matching nothing; lines and messages are values.
- Clocks and timers are step parameters that do not go back, and a timer fires at its time or later. Integer widths are not modelled, but for the 32-bit length of a padded row.
- Walk.Walk: assumes relays that answer a filter as NIP-01 says, stamps above zero and no second with more wraps than a page; with no pages allowed it stops at 0 without covering anything.
- Walk.Continue: cursors strictly descend only from a mark whose cursor is not above its top, which a first answer stamped ahead of the clock can leave; the coverage holds all the same.
- CatchupTimely.EntriesKeepBound: passes and live moves come from sockets that are up, and no subscription is refused; `CatchupGap.LosesExactlyWhen` has the condition for those. Only our relay's connections move the anchor here, where public relays do as well.
- CatchupTimely.OneEntryKeepsBound: nothing read off a dead socket moves the anchor past when it was last heard, which an event stamped ahead could; no subscription is refused.
- CatchupGap.LosesExactlyWhen: the failing states satisfy the invariant and need not all be reachable.
- SeenMirror.RunMirrors: the file is written at every call and not compacted in between; a runner held by the app, or whose address is gone, writes nothing.
- SeenLog.CompactionKeepsMeaning: for files where an id keeps its group and no line names an id the ring has, as one runner writes them (`SeenLog.OneMoreReadsBackExactlyWhen` for the first line that does); the drop mark moves ids in the order first held, where the replay walks a map.
- DeliveryPlaces.AckPlaces: that a kept id is remembered holds for batches no longer than the ring of 3000; a longer one would push its own first ids out of it. That there is room to hold is stated for fewer than 200 held ids, not for each cap on its own.
- DeliveryProof.RunKeeps: each call is one step, tags hold no separator, and a line whose message cannot be encoded is not modelled.
- KnockRun.RunValid: starts from an empty table. A start from disk puts registrations back without the checks, so caps can be passed until they expire. Rate buckets are parameters.
- KnockLanes.NeverNone: while the same lanes have knocks; how long a lane waits when others fill and empty meanwhile is not stated.
- KnockQueueRun.RunKeeps: a server's pace and the shared budget are parameters; the cap per address is not modelled, its requeue is a post over followed by an add.
- KnockTable and KnockQueue keep their own endpoint records: whether a server is idle is a parameter of the first and computed in the second.
- KnockFloor.EveryWrapIsRung: per endpoint object; one let go and registered again is a new one. What the queue does with a knock is in the queue's model.
- Decoy timing, name lookups and what push servers answer are parameters.
- AutoPass.RunSteps: status lines, memory of what worked and time limits are not modelled; verdicts, consent and moat's answer are arbitrary.
- AutoMode.SkipDirectHolds: `NetworkHold` reads one state, where the source reads its parts one after another; whether tor holds the lines is a parameter.
- Reconnect.OneAtATime: what a reconnect does between two steps is one phase; work it leaves to the background after its end is not modelled.
- RegistryFile.FileIsAPastState: a write replaces the file as a whole or not at all, and may report an error either way; reading it back at a start is not modelled.
- Listing and search in the registry, retention sweeps, backups, calls, the decoy profile and the app itself are not modelled.
