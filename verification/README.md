# Family Connect: verified models

Family Connect is a family messenger: a Rust server and Apple, Windows, Android and web clients. This project models the parts of its clients
where a wrong step loses or invents data, and proves what their source and documentation promise. Where a promise does not hold of the code,
the code is kept as it is, a run that breaks it is given, and the exact condition under which it holds is proved.

`dafny verify dfyconfig.toml` checks everything. One file is one module.

| modules | what is modelled |
|---|---|
| `Pack`, `PackWorld`, `PackSteps`, `PackLaws`, `PackOrder`, `PackRuns` | the Windows sticker-pack store, and every interleaving of server commits, frames sent out in any order, sockets, passes, late pages, own adds and deletes |
| `NoteBoard` | the Apple cache of the family board |
| `WallStore`, `WallWorld`, `WallLaws`, `WallCalm`, `WallRuns` | the Windows cache of the board, and the same interleavings as the pack's, without its connection guard |
| `CatchUp`, `CatchUpLaws`, `CatchUpOrder`, `CatchUpRuns` | the message catch-up loop against live messages, with ids and frames in any order, and the passes that run it |
| `TreeHash` | the web build script: directory walk, sort, framed stream, FNV-1a (section 2 of draft-eastlake-fnv) |
| `Calls`, `CallSteps`, `CallEnds`, `CallLaws`, `CallRuns`, `CallManager` | the Apple call state machine, each suspension and resumption a step of its own |
| `MediaOutbox`, `OutboxLaws`, `MediaRow` | a queued media message between the app's uploader, the system's, its delivery, and crashes |
| `RecencyOrder`, `ByteBudgetCache` | the byte-budget LRU cache: a linked list with a table, against a plain sequence |
| `AnimationTiming`, `GifScan` | the 30-per-second animation plan, and the GIF delay scanner (GIF89a, sections 15, 18 to 23 and 25) |
| `StreamPlayer` | the one load slot of the attachment player |
| `UnicodeText` | UTF-8, and where characters end (section 3.1.1 of Unicode Standard Annex #29) |
| `AssistantMention`, `DrawGrammar` | the assistant mention scan, the server's beside it, and the picture-command grammar |
| `ShareHandoff` | the share hand-off URL, the staging inbox and its sweep |
| `PageUpsert` | a page of messages applied through prefetched lookups, against one at a time |

An object that the source updates in place is a class here, each method tied by its `ensures` to a function on values; what the source promises
is proved about those functions. A protocol is a datatype of steps over one world, an invariant kept by every step, and theorems over every run.
The worlds also hold what only the proof looks at: the server's log, each call's history, the posts a message made.

## What the proofs found

1. **A frame can step the cursor over a change** (Windows pack and board). The guard on the pack's connection is documented to prevent this
   (`win/README.md:190-194`). It does so only if the server sends frames out in the order of their changes and registers a socket before the
   device hears that it is open (`PackOrder.NoAddIsEverLost`). The server promises neither: a frame is sent after the commit, with waits in between
   (`server/src/handlers_pack.rs:505-509`), and a socket is registered after the upgrade is answered (`server/src/ws.rs:457-482`). If one of the
   two fails, an add can be lost for good (`PackRuns.FramesOutOfTurn`, `PackRuns.OpenedTooSoon`), as without the guard (`PackRuns.UnguardedLosesAnAdd`).
   `PackLaws.CoversExactly` says exactly which runs keep the cursor's promise, and `PackRuns.QuietPassLevels` that the promise is what decides:
   once all is quiet, a pass makes the store the server's pack if and only if the promise held as it began. The board is without the guard, as
   `win/README.md:193-194` admits (`WallRuns.FrameOvertakes`), and with it would lose changes in the same two ways (`WallRuns.FramesOutOfTurn`,
   `WallRuns.OpenedTooSoon`).
2. **A removed sticker, or note, can come back for good** (Windows). The documentation says that a removal is remembered also when a full read left
   the item out (`win/README.md:184-188`). `Replace` remembers only the left-out items it held. An item added and removed before the read is not
   held, so its late frame puts it back, and no later pass removes it, with everything else in order (`PackRuns.RemovedItemComesBack`,
   `WallRuns.RemovedNoteComesBack`). Refusing an unknown item below the cursor would stop it (`PackOrder.NothingComesBack`). That check turns away
   an item still in the pack exactly when the cursor has already passed it unapplied (`PackLaws.FreshRefusesExactly`), which the first finding
   makes possible: there the late frame is what would heal the loss, and the check would refuse it (`PackRuns.FramesOutOfTurn`).
3. **A full board read can put an older note over a newer one** (Windows). A note above the read's mark survives, but if the read lists an older
   copy of it, that copy is written over it (`WallStore.FullReadTakesBack`). The documented exception (`win/README.md:119-121`) holds exactly when
   the read lists no older copy (`WallStore.FullReadKeepsExactly`). The next frame can then move the cursor over the change, and it is lost
   although no connection dropped and every frame waited for a pass (`WallRuns.WholeReadTakesBack`). Five rules together are enough for the board
   (`WallCalm.CarefulRunsCover`): frames wait for a pass of their connection, none lands while a whole read is out, no version below the cursor is
   let in for an unknown note, frames are sent out in turn, sockets are registered first. By any four of them there is
   a losing run (`WallRuns`).
4. **A message can be lost for good** (Windows), in two ways. A message's id is drawn before its commit and no lock orders the commits
   (`server/src/handlers_chat.rs:888-910`), so a page may bring a larger id before a smaller one is there; if the smaller one's frame finds no
   socket, nothing asks for it again (`CatchUpRuns.SmallerIdCommitsLate`; `docs/protocol.md:7014-7016` accepts this gap). And the cursors taken as
   a connection opens are held in memory only: a live message, then a restart before the pass, and those missed below it are gone
   (`CatchUpRuns.RelaunchLosesAMessage`, `CatchUpRuns.RelaunchExactly`). `CatchUpRuns.LostForGoodExactly` says exactly when a message is lost
   whatever happens next, and `CatchUpLaws.EveryMessageArrivesExactly` which settled runs hold them all.
5. **The renderer check accepts the file at any depth** (web build). The message names `rich/fc-rich.js`; the test is on the last part of any path
   (`TreeHash.Version`).
6. **A call can speak after its end** (Apple). A resumed step checks only that the manager still holds its call, which it does while the reason
   lingers on screen. So an offer can follow its own cancel, an answer a hang-up, and a second end the other side's
   (`CallRuns`). `CallLaws.NothingAfterTheEndExactly` has the exact condition; `CallLaws.CheckedRunsAreQuiet` shows that a check of the phase
   beside the id at each resumption is enough. The return of the offer's send also arms the give-up timer of a call already active (`CallLaws.ClockExactly`).
7. **A media message can be posted without its pictures** (Apple). The sweep and a retry choose the way by the count alone. A set that the
   system's uploader finished, or whose last step was lost to a crash, has a count of zero and placeholder ids still on the row, and is posted so;
   a refused post is repeated the same (`OutboxLaws.WrongClaimRepeats`). Both uploaders landing one item take the count down twice
   (`OutboxLaws.BothUploadersCount`). `OutboxLaws.EveryPostIsWholeExactly` has the exact condition, `OutboxLaws.InAppAloneIsWhole` the case
   that always works. An attachment that lands while the app goes to the background is uploaded a second time
   (`OutboxLaws.HandsOverTheLandedExactly`). Files that cannot be staged are left out of the claim without a word (`MediaRow.Row.SendMedia`).
8. **An image can be given a text's delay** (Apple GIF scan). A control extension stated for a plain text block is kept for the next image
   (`GifScan.OwnDelaysExactly`, `GifScan.TextLendsItsDelay`).
9. **The prefetched page misses a delivered row outside the page's range** that holds one of its client ids (Apple), exactly then
   (`PageUpsert.PageExactly`). With server answers in which a client id names one message there is no such row
   (`PageUpsert.GoodHasNoStranger`).
10. **A mention can be plain on the sender's screen and reach the assistant** (Apple). The scan drops a token at one of whose ends no character
   ends: `@ai` with a combining acute on its last letter, or after a prepended scalar (`AssistantMention.LeaningScalarsHideIt`). The source says
   that every index it handles is a character boundary, and that client and server must not disagree (`AssistantMention.swift:6-19`, `:56-59`);
   they agree exactly when nothing leans on a mention so (`AssistantMention.ScanAgreesExactly`).
11. **A safe file name can be hidden, and longer than a file system allows** (Apple hand-off). A leading dot that a combining mark leans on is not a
   dot to the source and stays (`ShareHandoff.SafeNameIsSafe`); 255 characters may be more than 255 bytes (`ShareHandoff.LongNameOverflows`).

## Model

| member | source | states |
|---|---|---|
| `Pack.PackStore.ApplyRow` | win/src/FamilyConnect.Core/Store/PackStore.cs:252-300 | One version of an item meets the store: a copy not above the held seq is dropped, a tombstone removes and is remembered, a live row without its picture or its adder is dropped, a remembered removal is the last word; answers whether the panel changed |
| `Pack.PackStore.Apply` | win/src/FamilyConnect.Core/Store/PackStore.cs:204-228 | A frame, page row or own-add answer changes the store by that rule, and moves the cursor to its seq exactly when its route may: never for an own add, for a frame only once this connection has caught up |
| `Pack.PackStore.ApplyPage` | win/src/FamilyConnect.Core/Store/PackStore.cs:230-250 | A page is its rows applied in order, the cursor ends at the highest seq seen, and the count returned is the rows that changed the panel, each against what the earlier rows left |
| `Pack.PackStore.Replace` | win/src/FamilyConnect.Core/Store/PackStore.cs:140-200 | A full read below what is already applied is ignored; otherwise rows at or below its mark go, the unlisted of them are remembered, its live rows go through the per-item rule, and cursor and mark become its mark |
| `Pack.PackStore.Removed` | win/src/FamilyConnect.Core/Store/PackStore.cs:306-313 | The answer to this device's own delete removes and remembers the item and moves no cursor |
| `Pack.PackStore.Remove` | win/src/FamilyConnect.Core/Store/PackStore.cs:315-332 | Removing remembers the id whether or not it was held and says whether a row went |
| `Pack.PackStore.Reconnected` | win/src/FamilyConnect.Core/Store/PackStore.cs:342-352 | A new connection is numbered one higher and has not caught up |
| `Pack.PackStore.CaughtUp` | win/src/FamilyConnect.Core/Store/PackStore.cs:379-389 | "Caught up" counts exactly when the pass began on the connection now open |
| `Pack.AppliedAllAdvances` | win/src/FamilyConnect.Core/Store/PackStore.cs:252-300 | Any rows in any order: no held seq goes down, no remembered removal is forgotten, and held and remembered stay apart |
| `Pack.AppliedAllPutsInForce` | win/src/FamilyConnect.Core/Store/PackStore.cs:230-300 | After a page every one of its rows is in force: held at its seq or above, remembered gone, or undrawable |
| `Pack.AppliedAllOrigin` | win/src/FamilyConnect.Core/Store/PackStore.cs:252-300 | Every held row was held before or came from the page, and every remembered removal was remembered before or is a tombstone of the page |
| `Pack.FullReadAdvances` | win/src/FamilyConnect.Core/Store/PackStore.cs:140-200 | A full read: an older one changes nothing; otherwise what it left out at or below its mark is remembered gone, what is above its mark stays at its seq or higher, every listed item ends held or gone, and nothing else at or below the mark survives |
| `PackSteps.StepKeeps` | win/src/FamilyConnect.Core/Protocol/Resync.cs:664-724 | Every step of server, sockets, frames, passes, late pages, own adds and deletes, relaunches, with the connection guard or without, keeps the joint invariant of log, store, socket and pass; frames are sent out in any order, and a socket may be open before it is registered |
| `PackSteps.PageMembers` | server/src/handlers_pack.rs:277-320 | A page of the feed holds only rows above the cursor asked for, and leaves out a latest row above it only when full and then only rows above all it holds |
| `PackSteps.AppliedSettles` | win/src/FamilyConnect.Core/Store/PackStore.cs:252-300 | One version the server wrote, landing at any time: it leaves its own item as it says if it is the latest, and of every other latest change only undoes the removal of an item it brings back |
| `PackSteps.PageHasAll` | win/src/FamilyConnect.Core/Store/PackStore.cs:230-250 | A page that lands late, after frames have moved the cursor, still holds every item's latest change between the cursor and where it leaves it |
| `PackSteps.WholeSettles` | win/src/FamilyConnect.Core/Store/PackStore.cs:140-200 | A full read that is not refused leaves every latest change of its snapshot applied, though changes after it are already held |
| `PackLaws.StepCovers` | win/README.md:184-194 | Of adds and of removals apart, guarded or not: from a state in which the cursor has passed no unapplied change, a step breaks this exactly if it is a frame that moves the cursor over one, or (removals) lets in a version of an item unknown here and removed at or below the cursor |
| `PackLaws.CoversExactly` | win/README.md:184-194 | A run keeps the cursor from passing an unapplied add (or removal) throughout if and only if no step of it is one of those |
| `PackLaws.NothingIsInvented` | win/README.md:184-194 | In every run every held row is a version the server wrote, every remembered id is one the server removed, and the cursor is between the last full read and the server's mark |
| `PackLaws.FreshRefusesExactly` | win/src/FamilyConnect.Core/Store/PackStore.cs:252-300 | A check the store could make at the write (the version is not below the cursor, or its id is held or remembered) turns away an item still in the pack exactly when the cursor has passed it and it is not held; so not while the cursor keeps its promise |
| `PackOrder.OrderlyKeeps` | win/README.md:190-194 | With the guard, frames in turn and sockets registered first, each step keeps: what came by the open connection is applied for good, a caught-up cursor is past all that came before it, and a page in flight has been overtaken only by changes applied for good |
| `PackOrder.NoAddIsEverLost` | win/README.md:184-194 | From a first start, in every such run, at every point: no live item at or below the cursor is missing |
| `PackOrder.NothingComesBack` | win/README.md:184-188 | And if the check is made at each frame and each own add, no item removed at or below the cursor is held |
| `PackOrder.Converges` | win/README.md:119-127 | At the end of every such run, when the connection has caught up and every frame is sent out and read, every live item is held in its latest version, and with the check nothing else is |
| `PackRuns.QuietPassLevels` | win/src/FamilyConnect.Core/Protocol/Resync.cs:664-724 | Whatever went before, in whatever order: once the server is quiet and every frame read, one pass, through however many pages, brings the device to rest, and the store is then the server's pack if and only if the cursor had passed no unapplied change as the pass began |
| `PackRuns.UnguardedLosesAnAdd` | win/README.md:190-194 | A run without the connection check, all else in order: a pass overtaken by a reconnect says "caught up", the next frame steps the cursor over an add made while the socket was down, and the device comes to rest without it |
| `PackRuns.FramesOutOfTurn` | server/src/handlers_pack.rs:505-509 | A run of the guarded code: caught up, two items are added and the second's frame is sent out first; the first is then live, below the cursor and not held, so that the check would turn away its frame; the socket drops, and the device comes to rest without it |
| `PackRuns.OpenedTooSoon` | server/src/ws.rs:457-482 | A run of the guarded code: the device opens and passes before the server has registered the socket, an item is added and its frame sent out to nobody, the next frame steps the cursor over it; nothing drops, and the device is at rest without it |
| `PackRuns.RemovedItemComesBack` | win/src/FamilyConnect.Core/Store/PackStore.cs:146-190 | A run of the guarded code with everything in order: an item added and removed between the read's snapshot and its landing was never held, so nothing remembers it; its late frame puts it back and the device comes to rest with it |
| `NoteBoard.BoardCache.ApplyNote` | ios/FamilyConnect/Core/ChatSyncCoordinator.swift:1325-1427 | A note version meets the board: a gone id and a strictly older copy are refused, an equal seq is applied as a repair, a tombstone not older than the held copy removes and is remembered |
| `NoteBoard.BoardCache.ReplaceBoard` | ios/FamilyConnect/Core/ChatSyncCoordinator.swift:1498-1510 | A full read removes and remembers every unlisted row at or below its mark, then applies its notes one by one |
| `NoteBoard.BoardCache.DeleteNote` | ios/FamilyConnect/Core/ChatSyncCoordinator.swift:2366-2381 | An own delete that was answered drops the row and remembers the id |
| `NoteBoard.NothingComesBack` | ios/FamilyConnectTests/BoardSyncTests.swift:129-262 | With no assumption about the server: through any run of frames, pages, full reads and own deletes a gone id stays gone and unheld, and no held seq goes down |
| `NoteBoard.AppliedAllMeans` | ios/FamilyConnectTests/BoardSyncTests.swift:129-212 | For a consistent history, applying its versions one by one holds exactly the newest complete version of each id with no tombstone and remembers exactly the removed ids |
| `NoteBoard.AnyOrderSameWall` | ios/FamilyConnectTests/BoardSyncTests.swift:178-262 | For a consistent history, any order with any duplicates gives the same board |
| `NoteBoard.FullReadReplaces` | ios/FamilyConnectTests/BoardPhotoTests.swift:217-259 | After a full read a row is listed by it or was held above its mark; unlisted rows at or below the mark are gone for good; every listed note not gone is held at its seq or higher |
| `NoteBoard.CopyAndReadCommute` | ios/FamilyConnectTests/BoardPhotoTests.swift:240-259 | An unlisted copy and a full read give the same board in both orders exactly when the copy is above the read's mark |
| `NoteBoard.SameSeqRepairs` | ios/FamilyConnectTests/BoardPhotoTests.swift:217-238 | A version at the held seq is written over the held one and touches nothing else |
| `WallStore.BoardStore.ApplyRow` | win/src/FamilyConnect.Core/Store/BoardStore.cs:200-241 | A tombstone always removes and is remembered; a gone id and a copy not above the held seq are refused |
| `WallStore.BoardStore.Apply` | win/src/FamilyConnect.Core/Store/BoardStore.cs:153-176 | One version is applied by that rule; a frame moves the cursor once any full read has happened, whatever the connection |
| `WallStore.BoardStore.ApplyPage` | win/src/FamilyConnect.Core/Store/BoardStore.cs:178-198 | A page is its rows in order, the cursor ends at the highest seq, and the count is the rows that changed the wall |
| `WallStore.BoardStore.Replace` | win/src/FamilyConnect.Core/Store/BoardStore.cs:99-137 | A full read older than the last is ignored; otherwise rows at or below its mark go, its live rows are written with no check of their seq, and cursor and mark become its mark |
| `WallStore.TombstoneIsFinal` | win/README.md:119-127 | Through any events a remembered note stays remembered and off the wall |
| `WallStore.FullReadKeepsExactly` | win/README.md:119-124 | A note held above the mark keeps its seq through a full read if and only if the read does not list an older copy of it |
| `WallStore.FullReadTakesBack` | win/src/FamilyConnect.Core/Store/BoardStore.cs:99-137 | When the read does list an older copy, that copy replaces the newer one, the cursor falls below the seq lost, and the next page that carries it puts it back |
| `WallLaws.StepKeeps` | win/src/FamilyConnect.Core/Protocol/Resync.cs:595-645 | Every step of server, sockets, frames, passes, late pages and whole reads, own writes and deletes, relaunches keeps the joint invariant of log, store, socket and pass; frames are sent out in any order, and a socket may be open before it is registered |
| `WallLaws.NothingIsInvented` | win/src/FamilyConnect.Core/Protocol/Resync.cs:595-645 | In every run what the wall shows was written by the server and is not remembered as gone, and what is remembered as gone was removed |
| `WallLaws.PageHasAll` | win/src/FamilyConnect.Core/Store/BoardStore.cs:178-198 | A page that lands late, after frames have moved the cursor, still holds every note's latest change between the cursor and where it leaves it |
| `WallLaws.WholeCovers` | win/src/FamilyConnect.Core/Store/BoardStore.cs:99-137 | Whatever has happened before, a whole read leaves no unapplied change behind the cursor, though its notes were read after its mark |
| `WallLaws.StepCovers` | win/README.md:193-194 | From a state in which the cursor has passed no unapplied change, a step breaks this exactly if it is a frame that moves the cursor over one, or lets in a version of a note unknown here and removed at or below the cursor |
| `WallLaws.CoversExactly` | win/README.md:119-127 | A run keeps the cursor from passing an unapplied change throughout if and only if no step of it is one of those two |
| `WallLaws.RestExactly` | win/README.md:119-127 | A device at rest, with nothing above its cursor to ask for, shows the server's board if and only if its cursor has passed no unapplied change |
| `WallCalm.CalmKeeps` | win/README.md:190-194 | While frames land only after a pass begun on their connection has ended, and none while a whole read is out, frames are sent out in turn and sockets registered first, each step keeps: the cursor is past all that came before the connection, and what came by it is applied |
| `WallCalm.CarefulRunsCover` | win/README.md:190-194 | From a first start, in every run by those four rules in which no version below the cursor is let in for an unknown note, the cursor never passes an unapplied change, and a device at rest shows the server's board |
| `WallCalm.FreshRefusesExactly` | win/src/FamilyConnect.Core/Store/BoardStore.cs:200-241 | That last check turns away what a note now is exactly when the cursor has passed it and nothing of the note is shown; so not while the cursor keeps its promise |
| `WallRuns.FrameOvertakes` | win/README.md:193-194 | A run from a first start by all rules but the wait for a pass: read whole, drop, a note is pinned, reconnect, another is pinned and its frame lands before the pass; the pass finds the device level, and the first note is behind the cursor and never asked for |
| `WallRuns.FramesOutOfTurn` | server/src/handlers_board.rs:1683-1715 | A run by all rules but frames in turn: caught up, two notes are pinned and the second's frame is sent out first; the first is then behind the cursor and unknown, so that the check would turn away its frame; the socket drops, and the device comes to rest without it |
| `WallRuns.OpenedTooSoon` | server/src/ws.rs:457-482 | A run by all rules but sockets registered first: a note pinned between the pass and the registration has no frame, the next frame steps the cursor over it; nothing drops, and the device is at rest without it |
| `WallRuns.WholeReadTakesBack` | win/src/FamilyConnect.Core/Store/BoardStore.cs:99-137 | A run by all rules but the last about whole reads, in which every frame lands after a pass of its own connection has ended, and still: a whole read writes an older copy over a changed note, the next frame moves the cursor over the change, and the device is at rest without it |
| `WallRuns.RemovedNoteComesBack` | win/src/FamilyConnect.Core/Store/BoardStore.cs:99-137 | A run from an empty board by all rules but the check at the write: this device pins a note and its answer is slow, the note is taken down, a whole read leaves it out and remembers nothing, the answer puts it up, and the device is at rest with it |
| `CatchUpLaws.PageIs` | win/src/FamilyConnect.Core/Protocol/Resync.cs:426-480 | A page holds, in order, committed messages above the cursor asked for, and leaves one out only when full and then only above its last |
| `CatchUpLaws.LoopReadsEverything` | win/README.md:97-99 | A loop that has come to rest holds everything there was as its pass began above the cursor it started from, whatever landed live and whatever was committed meanwhile |
| `CatchUpLaws.StepSafe` | win/src/FamilyConnect.Core/Protocol/Resync.cs:42-63 | Whatever order ids commit and frames are sent in: a step loses a message that was still coming exactly if it sends its frame to no socket, drops or restarts on it, or lands a page taken before its commit and passes or ends there; one is within reach again exactly by a connection or a pass from below it, or the failure of a pass that began below it |
| `CatchUpLaws.EveryMessageArrivesExactly` | win/README.md:101-105 | A run that has settled, restarts included, holds every message above the floor if and only if each that a step of it lost was brought within reach again and not lost after |
| `CatchUpOrder.StepKeeps` | win/src/FamilyConnect.Core/Protocol/Resync.cs:145-172 | While ids commit and frames are sent in order, sockets are registered first and the process lives, each step keeps: an unread message above the floor is behind the running loop, behind the waiting cursor, or above all that is held in sequence and still coming by frame |
| `CatchUpOrder.EveryMessageArrives` | win/README.md:95-105 | From a launch whose cache is whole up to its floor, every such run that has settled holds in sequence every message above that floor |
| `CatchUpRuns.QuietPassSettles` | win/src/FamilyConnect.Core/Protocol/Resync.cs:426-480 | Once the server is quiet and every frame read, one pass, through however many pages, settles the chat, and it then holds exactly the messages that were not stranded: sent out and missed, with a newer one held and no cursor or pass below them |
| `CatchUpRuns.LostForGoodExactly` | win/src/FamilyConnect.Core/Protocol/Resync.cs:27-33 | No run whatever from here brings a message that is not held, whatever the server, connections and passes do, if and only if it is stranded |
| `CatchUpRuns.SmallerIdCommitsLate` | server/src/handlers_chat.rs:888-910 | A run from a launch with no failure and no restart: of two ids drawn the larger commits first and a page brings it, the socket drops, the smaller commits and its frame goes to nobody; no run brings it, and the next connection's pass settles without it |
| `CatchUpRuns.RereadCursorSkips` | win/README.md:97-99 | After a full page, with a live message above one still unread: the loop that reads its cursor again from the cache ends, settled, without the unread one and for good, and the code's loop ends with it |
| `CatchUpRuns.RereadLosesAMessage` | win/README.md:97-99 | Such a run of that loop from a launch: a page and one more missed, a live message before the page lands, and the last missed one never arrives |
| `CatchUpLaws.EveryConnectionGetsItsPass` | win/src/FamilyConnect.App.Logic/LiveConnection.cs:241-260 | After every connection and every refresh a pass is still due, or one began later, or the process ended |
| `CatchUpLaws.PassesNeverStack` | win/src/FamilyConnect.App.Logic/LiveConnection.cs:276-335 | Passes begun plus the one owed never exceed the passes asked for plus the one owed at the start, and asks before any pass begins leave exactly one due |
| `CatchUpRuns.RelaunchExactly` | win/src/FamilyConnect.Core/Protocol/Resync.cs:42-63 | Of the messages sent out and not held, a restart loses for good exactly those below the newest held in sequence |
| `CatchUpRuns.RelaunchLosesAMessage` | win/src/FamilyConnect.Core/Protocol/Resync.cs:42-63 | A run from a launch, ids and frames in order: a message is missed, a live one lands before the pass, the app restarts; no run of the next launch brings the missed one, and its first pass settles without it |
| `TreeHash.Fnv.Write` | web/build.rs:84-89 | Writing bytes moves the state by the fold of those bytes |
| `TreeHash.FoldJoins` | web/build.rs:84-89 | Writing two chunks is writing their concatenation |
| `TreeHash.StepIsABijection` | web/build.rs:84-89 | Each byte step is undone by multiplying with the inverse of the prime modulo 2^64 and xoring the byte, and undoes it |
| `TreeHash.StepTellsBytesApart` | web/build.rs:84-89 | From one state two bytes give one next state only when they are equal |
| `TreeHash.FoldKeepsApart` | web/build.rs:84-89 | Different states stay different through any equal bytes |
| `TreeHash.OneByteChangesTheHash` | web/build.rs:77-93 | Streams of equal length that differ in exactly one byte have different hashes |
| `TreeHash.FrontFrame` | web/build.rs:41-46 | The first file of a framed stream, name, length and contents, and what follows it are determined by the bytes |
| `TreeHash.StreamTellsListsApart` | web/build.rs:41-46 | Two lists of files with names free of NUL and slash that give the same stream are the same list |
| `TreeHash.Walk.Collect` | web/build.rs:56-74 | The walk adds to its list the files of the tree, recursively, without dotted names or anything below them |
| `TreeHash.WalkFinds` | web/build.rs:56-74 | A path and contents are in the walk's list exactly when the tree shows that file under undotted directories |
| `TreeHash.SortedInOrder` | web/build.rs:29-30 | Sorting a list of distinct paths puts them in component order |
| `TreeHash.OrderFixesTheList` | web/build.rs:29-30 | Two ordered lists with the same files are the same list, so the directory's own order cannot show |
| `TreeHash.SameStreamIffSameFiles` | web/build.rs:28-47 | Two trees give the same stream if and only if they show the same files |
| `TreeHash.Version` | web/build.rs:22-53 | The build stops exactly when no shown path ends in the renderer's file name; otherwise the version is the hash of the stream |
| `TreeHash.OneByteChangesTheVersion` | web/build.rs:9-16 | Two trees that show the same files but for one byte of one of them, however their directories are listed, both stop the build or have different versions |
| `CallSteps.StepKeeps` | ios/FamilyConnect/Core/Calls/CallManager.swift:299-1125 | Every step, user, push, frame, candidate, timer and every resumption of a suspended step, keeps the joint invariant of the manager's fields and each call's history |
| `CallLaws.EveryCallIsOrderly` | ios/FamilyConnect/Core/Calls/CallManager.swift:962-998 | In every run, for every call: candidates sent are a prefix of those gathered, each after its offer or answer; candidates fed are a prefix of those arrived and only after the one remote description; one offer or one answer at most; no end before it is over and at most one by then |
| `CallLaws.LiveCallLosesNothing` | ios/FamilyConnect/Core/Calls/CallManager.swift:699-817 | While a call lives nothing is lost: each gathered candidate is sent or waiting, each arrived one fed or waiting, and an accepted offer is being answered or has had its one answer and one description, in whatever order push, offer and accept came |
| `CallLaws.RingbackFollowsThePhase` | ios/FamilyConnect/Core/Calls/CallManager.swift:886-899 | Ringback sounds exactly in the outgoing ringing phase |
| `CallLaws.HangUpAlwaysLeaves` | ios/FamilyConnect/Core/Calls/CallManager.swift:837-884 | Hanging up any live call ends it, closes its media, clears its timer, and hands over exactly one end frame, the call's only one |
| `CallLaws.ForeignFramesChangeNothing` | ios/FamilyConnect/Core/Calls/CallManager.swift:586-647 | A frame for another call changes nothing, except that an offer or push starts a call exactly when the device is idle and the id is not one of the recently ended |
| `CallLaws.EndedCallStillHears` | ios/FamilyConnect/Core/Calls/CallManager.swift:586-627 | A frame for the call just ended changes nothing, except a candidate, and an offer the ended incoming call had not had |
| `CallLaws.NothingAfterTheEndExactly` | ios/FamilyConnect/Core/Calls/CallManager.swift:651-817 | Every call has said nothing after it was over, in a run, if and only if no suspended step of an ended call resumed to speak in it |
| `CallLaws.CheckedRunsAreQuiet` | ios/FamilyConnect/Core/Calls/CallManager.swift:651-817 | With a check of the phase beside the id at each resumption, a step of an ended call that resumes stops there; in every run of that machine no call says anything after it was over, and no media outlives its call |
| `CallLaws.ClockExactly` | ios/FamilyConnect/Core/Calls/CallManager.swift:688-690 | A step leaves an active call without its give-up timer unless it is the return of the send of that call's own offer, which arms it again |
| `CallRuns.LateOffer` | ios/FamilyConnect/Core/Calls/CallManager.swift:651-695 | A run: a call cancelled during setup goes on to open media and hand over its offer after its end frame |
| `CallRuns.EndAfterTheirEnd` | ios/FamilyConnect/Core/Calls/CallManager.swift:600-619 | From any outgoing call with media: their answer, then their end, then our description failing hands over an end frame after theirs |
| `CallRuns.LateAnswer` | ios/FamilyConnect/Core/Calls/CallManager.swift:699-817 | From any accepted call whose offer has not come: hanging up and then hearing the offer answers it after the end frame |
| `CallManager.Manager.TransitionTo` | ios/FamilyConnect/Core/Calls/CallManager.swift:886-899 | Moves the phase and turns ringback on or off to match |
| `CallManager.Manager.ResetToIdle` | ios/FamilyConnect/Core/Calls/CallManager.swift:901-936 | Clears the ended call's fields and leaves what a resumed step may still hold |
| `CallManager.Manager.Finish` | ios/FamilyConnect/Core/Calls/CallManager.swift:852-884 | Ends the call: media closed, timer cleared, id remembered, phase ended |
| `CallManager.Manager.StartCall` | ios/FamilyConnect/Core/Calls/CallManager.swift:314-335 | Places a call exactly when idle |
| `CallManager.Manager.HandleIncomingPush` | ios/FamilyConnect/Core/Calls/CallManager.swift:569-582 | A push starts an incoming call unless busy or recently ended, and says whether the call is its own |
| `CallManager.Manager.PerformAccept` | ios/FamilyConnect/Core/Calls/CallManager.swift:746-755 | Accepting a ringing call answers the offer if it is there and waits for it otherwise |
| `CallManager.Manager.DeclineIncoming` | ios/FamilyConnect/Core/Calls/CallManager.swift:375-379 | Declining hands over the decline and ends |
| `CallManager.Manager.PerformHangUp` | ios/FamilyConnect/Core/Calls/CallManager.swift:837-848 | Hanging up hands over the end for the phase it was in and ends |
| `CallManager.Manager.HandleOffer` | ios/FamilyConnect/Core/Calls/CallManager.swift:699-729 | An offer completes a pushed call, starts one when idle, and is otherwise dropped |
| `CallManager.Manager.HandleRinging` | ios/FamilyConnect/Core/Calls/CallManager.swift:591-598 | Ringing counts only for the current outgoing call |
| `CallManager.Manager.HandleAnswer` | ios/FamilyConnect/Core/Calls/CallManager.swift:600-619 | An answer to the current outgoing call goes to its media, once |
| `CallManager.Manager.HandleIce` | ios/FamilyConnect/Core/Calls/CallManager.swift:621-627 | A candidate for the current call is fed or kept waiting |
| `CallManager.Manager.HandleEnd` | ios/FamilyConnect/Core/Calls/CallManager.swift:629-642 | Their end ends the current call and hands over nothing |
| `CallManager.Manager.FlushLocalCandidates` | ios/FamilyConnect/Core/Calls/CallManager.swift:981-988 | Waiting local candidates are handed over in order and none is kept |
| `CallManager.Manager.FlushRemoteCandidates` | ios/FamilyConnect/Core/Calls/CallManager.swift:962-966 | Waiting remote candidates are fed in order and none is kept |
| `CallManager.Manager.ResumePlacing` | ios/FamilyConnect/Core/Calls/CallManager.swift:651-695 | Each resumption of the placing step, succeeding or failing, from each of its waits |
| `CallManager.Manager.ResumeAnswering` | ios/FamilyConnect/Core/Calls/CallManager.swift:762-817 | Each resumption of the answering step, succeeding or failing, from each of its waits |
| `OutboxLaws.CountExactly` | ios/FamilyConnect/Core/ChatSyncCoordinator.swift:3343-3432 | In every run an unsent message's count is its attachments without an id less the times it was taken down twice, and a sent one has released every row and file |
| `OutboxLaws.PostExactly` | ios/FamilyConnect/Core/ChatSyncCoordinator.swift:3983-4013 | A step posts at most once, exactly the row's list; what it posts is the whole set of ids in composed order unless the sweep or a retry routed it to delivery before the set was written |
| `OutboxLaws.EveryPostIsWholeExactly` | ios/FamilyConnect/Core/ChatSyncCoordinator.swift:4761-4796 | Every post of a run claims the ids its items hold as it is made, each item's own in its own place and all of them, if and only if no sweep or retry of the run posted a row whose set was not written |
| `OutboxLaws.InAppAloneIsWhole` | ios/FamilyConnect/Core/ChatSyncCoordinator.swift:3343-3432 | With the app's own uploader alone and no crash, every post claims the ids its items hold, each in its place and all of them, and the count is exactly what is missing |
| `OutboxLaws.LegUploadsOnlyWhatIsOwed` | ios/FamilyConnect/Core/ChatSyncCoordinator.swift:3451-3530 | The leg turns only to an item with no id, with its bytes on disk, and not carried by the system when the leg began |
| `OutboxLaws.HandsOverTheLandedExactly` | ios/FamilyConnect/Core/ChatSyncCoordinator.swift:3578-3629 | What was owed when the app went to the background is handed to the system however it has fared since: an item goes up a second time exactly if it landed, and its set did not expire, on the way |
| `OutboxLaws.SecondLandingIsLetGo` | ios/FamilyConnect/Core/ChatSyncCoordinator.swift:3638-3645 | What the second upload brings back changes neither the item's id nor the count |
| `OutboxLaws.LandedIsHandedOver` | ios/FamilyConnect/Core/ChatSyncCoordinator.swift:3578-3629 | A run: the first of two lands by the app's own uploader while the requests are built, and is handed over beside the second |
| `OutboxLaws.WrongClaimRepeats` | ios/FamilyConnect/Core/ChatSyncCoordinator.swift:4142-4203 | A post of an unwritten set that is refused leaves the row so that the next sweep or retry posts the same list again |
| `OutboxLaws.BelowZeroIsStuck` | ios/FamilyConnect/Core/ChatSyncCoordinator.swift:4761-4796 | A row whose count was taken below zero is passed over by every sweep |
| `OutboxLaws.CrashInThePreview` | ios/FamilyConnect/Core/ChatSyncCoordinator.swift:3451-3570 | A run: the last upload landed, the app stopped during its preview, and the sweep posts placeholders although the id is on the row |
| `OutboxLaws.SystemFinishesTheSend` | ios/FamilyConnect/Core/ChatSyncCoordinator.swift:3638-3662 | A run: the system uploader lands the last attachment in the background and the sweep posts placeholders |
| `OutboxLaws.ExpiredSendGoesEmpty` | ios/FamilyConnect/Core/ChatSyncCoordinator.swift:4142-4203 | From any one-attachment send refused as expired and landed again by the system, the sweep posts an empty list |
| `OutboxLaws.BothUploadersCount` | ios/FamilyConnect/Core/ChatSyncCoordinator.swift:3451-3530 | A run: both uploaders land one item of two, the count reaches zero with the other still owed |
| `OutboxLaws.ArmedCrashGoesEmpty` | ios/FamilyConnect/Core/ChatSyncCoordinator.swift:3211-3297 | A send whose count was saved and whose items were not posts an empty claim |
| `MediaRow.Row.SendMedia` | ios/FamilyConnect/Core/ChatSyncCoordinator.swift:3211-3297 | A media send keeps the row exactly when something could be staged, and then counts and lists what was staged, which may be fewer than were composed |
| `MediaRow.Row.RecordBackgroundUpload` | ios/FamilyConnect/Core/ChatSyncCoordinator.swift:3638-3662 | A system landing writes the id and takes the count down only for an item still without one |
| `MediaRow.Row.FinishUpload` | ios/FamilyConnect/Core/ChatSyncCoordinator.swift:3451-3530 | The leg's landing writes the id and takes the count down whatever happened meanwhile |
| `MediaRow.Row.RecordSendFailure` | ios/FamilyConnect/Core/ChatSyncCoordinator.swift:4142-4203 | An expired set with every file at hand is owed again whole; otherwise the row waits or fails by the error |
| `MediaRow.Row.DeliverIt` | ios/FamilyConnect/Core/ChatSyncCoordinator.swift:3983-4013 | Posts only at a count of zero, when nothing else is at the row |
| `MediaRow.Row.UploadAndDeliver` | ios/FamilyConnect/Core/ChatSyncCoordinator.swift:3343-3370 | The leg starts only when nothing else is at the row and a slot is free |
| `MediaRow.Row.SweepOutbox` | ios/FamilyConnect/Core/ChatSyncCoordinator.swift:4761-4796 | The sweep routes a pending row by its count |
| `MediaRow.Row.RetryIt` | ios/FamilyConnect/Core/ChatSyncCoordinator.swift:4341-4361 | A retry makes the row pending and routes it by its count |
| `MediaRow.Row.GoOn` | ios/FamilyConnect/Core/ChatSyncCoordinator.swift:3384-3395 | The loop goes on to the next owed item, past the last, or fails the row at the first whose bytes are gone |
| `MediaRow.Row.WindUp` | ios/FamilyConnect/Core/ChatSyncCoordinator.swift:3409-3432 | With every id in place the set is written, the count zeroed and the row handed to delivery in one step |
| `MediaRow.Row.Landing` | ios/FamilyConnect/Core/ChatSyncCoordinator.swift:3664-3684 | A delivered message is sent and releases every item and its bytes |
| `RecencyOrder.EvictsTheShortestPrefix` | ios/FamilyConnect/Core/ByteBudgetCache.swift:101-103 | Eviction leaves a non-empty suffix that keeps the newest, fits the budget or is one entry, and is the longest that does |
| `RecencyOrder.EveryRunIsByUse` | ios/FamilyConnect/Core/ByteBudgetCache.swift:79-134 | After any run of inserts, reads and removals, the entries are distinct, in order of last use, each the last value inserted for its key, and within budget or alone |
| `RecencyOrder.NewestSurvives` | ios/FamilyConnect/Core/ByteBudgetCache.swift:85-104 | An insert leaves its own entry held and newest, whatever its cost |
| `ByteBudgetCache.Cache.Contains` | ios/FamilyConnect/Core/ByteBudgetCache.swift:74-76 | Answers whether the key is held and changes nothing |
| `ByteBudgetCache.Cache.Value` | ios/FamilyConnect/Core/ByteBudgetCache.swift:79-83 | Answers the held value and makes the key the newest; a miss changes nothing |
| `ByteBudgetCache.Cache.Insert` | ios/FamilyConnect/Core/ByteBudgetCache.swift:88-104 | Linked list, table and total end as inserting into the plain recency sequence and evicting from its oldest end |
| `ByteBudgetCache.Cache.Evict` | ios/FamilyConnect/Core/ByteBudgetCache.swift:101-103 | Oldest entries go until the budget holds or one is left |
| `ByteBudgetCache.Cache.Remove` | ios/FamilyConnect/Core/ByteBudgetCache.swift:107-110 | The key's entry goes and the rest stay in order |
| `ByteBudgetCache.Cache.RemoveAll` | ios/FamilyConnect/Core/ByteBudgetCache.swift:120-134 | Everything goes and every node is unlinked |
| `ByteBudgetCache.Cache.KeysOldestFirst` | ios/FamilyConnect/Core/ByteBudgetCache.swift:137-145 | Walking the list gives the keys in recency order |
| `ByteBudgetCache.Cache.Append` | ios/FamilyConnect/Core/ByteBudgetCache.swift:149-155 | The links stay those of a doubly linked list, with the node at the newest end |
| `ByteBudgetCache.Cache.Unlink` | ios/FamilyConnect/Core/ByteBudgetCache.swift:157-162 | The links stay those of a doubly linked list, without the node |
| `ByteBudgetCache.Cache.MoveToNewest` | ios/FamilyConnect/Core/ByteBudgetCache.swift:164-168 | The node moves to the newest end and the rest keep their order |
| `ByteBudgetCache.Cache.RemoveNode` | ios/FamilyConnect/Core/ByteBudgetCache.swift:170-174 | List, table and total lose the node together |
| `AnimationTiming.Starts` | ios/FamilyConnect/Core/AnimationTiming.swift:96-102 | Start times are the prefix sums of the durations, in milliseconds |
| `AnimationTiming.SampleTicks` | ios/FamilyConnect/Core/AnimationTiming.swift:108-126 | The run-length plan: runs of at least one tick, frames strictly rising, ticks adding up to the total, and each tick shows the frame the per-tick rule gives it |
| `AnimationTiming.MakePlan` | ios/FamilyConnect/Core/AnimationTiming.swift:89-135 | There is a plan exactly for a non-empty list whose ticks fit 32 bits; it follows the per-tick rule on every tick, and its milliseconds are its ticks at thirty a second, rounded to nearest |
| `AnimationTiming.FrameTicksExactly` | ios/FamilyConnect/Core/AnimationTiming.swift:108-126 | A frame's ticks in any plan that follows the rule are those from its own first tick to the next frame's |
| `AnimationTiming.SharesAreFair` | ios/FamilyConnect/Core/AnimationTiming.swift:13-17 | Each frame's ticks are within one of its exact share, a frame of 34 ms or more is never skipped, and the clip runs over its source by less than one tick |
| `AnimationTiming.ApngDelayRounds` | ios/FamilyConnect/Core/AnimationTiming.swift:52-57 | The APNG delay is the stated fraction of a second in milliseconds, rounded to nearest with the half going up, a zero denominator meaning hundredths |
| `GifScan.SkipSubBlocks` | ios/FamilyConnect/Core/AnimatedPicture.swift:97-106 | Skipping a chain of sub-blocks ends just past its terminator inside the bytes, or says it does not end |
| `GifScan.DelaysMS` | ios/FamilyConnect/Core/AnimatedPicture.swift:85-138 | The index walk ends in bounds on every byte string and gives what the scan of the grammar gives |
| `GifScan.WrittenGifIsRead` | ios/FamilyConnect/Core/AnimatedPicture.swift:85-138 | Every file written by GIF89a, whatever follows its trailer, is read whole: one delay per image, in order |
| `GifScan.OwnDelaysExactly` | ios/FamilyConnect/Core/AnimatedPicture.swift:85-138 | The delays are each image's own control extension's (ten times its hundredths, 0 with none) if and only if no control extension that states a delay is followed, before the next control extension or image, by a plain text block and then by an image |
| `GifScan.TextLendsItsDelay` | ios/FamilyConnect/Core/AnimatedPicture.swift:85-138 | A control extension, a plain text block and an image: the image is given the text's delay |
| `StreamPlayer.OneLoadOnePlayer` | ios/FamilyConnect/Core/AttachmentStreamPlayer.swift:107-155 | In every interleaving of starts, stops and resumptions: at most one live load, in the slot, and then no player; players built are those handed back and the one held, each once; only the held one sounds |
| `StreamPlayer.ResumeExactly` | ios/FamilyConnect/Core/AttachmentStreamPlayer.swift:118-137 | A resumed load that is no longer live builds nothing and frees nobody's slot; a live one frees its slot and builds a player exactly when there is a stream |
| `StreamPlayer.Loader.StartLoad` | ios/FamilyConnect/Core/AttachmentStreamPlayer.swift:107-118 | A start with a player plays it again, with a load on its way does nothing, and otherwise begins the one load |
| `StreamPlayer.Loader.StopLoad` | ios/FamilyConnect/Core/AttachmentStreamPlayer.swift:147-155 | A stop cancels the load, hands the player back and forgets both |
| `StreamPlayer.Loader.ResumeLoad` | ios/FamilyConnect/Core/AttachmentStreamPlayer.swift:118-138 | The load's continuation after its one wait |
| `AssistantMention.Ranges` | ios/FamilyConnect/Models/AssistantMention.swift:60-83 | The byte scan with its two checks gives all and only the tokens by the rule at both of whose ends a character, as the reader counts them, ends; in order and disjoint |
| `AssistantMention.TestIsTheRule` | ios/FamilyConnect/Models/AssistantMention.swift:56-71 | Where a scalar begins, the test on UTF-8 bytes says what the rule says of scalars |
| `AssistantMention.FirstMention` | server/src/mentions.rs:45-88 | The server's scan answers the first place of a token, and nothing only if there is none |
| `AssistantMention.ScanAgreesExactly` | ios/FamilyConnect/Models/AssistantMention.swift:8-19 | Every mention the server's rule sees is highlighted if and only if none has a prepended scalar before it, or an extending, joining or spacing mark after it |
| `AssistantMention.AskedExactly` | ios/FamilyConnect/Models/AssistantMention.swift:45-47 | The client says a body asks the assistant exactly if some mention stands so free; the server exactly if there is a mention |
| `AssistantMention.LeaningScalarsHideIt` | ios/FamilyConnect/Models/AssistantMention.swift:72-80 | The token with a combining acute on its last letter, and the token after an Arabic number sign, are mentions by the rule and found by no scan of the client |
| `UnicodeText.BreakBefore` | ios/FamilyConnect/Models/AssistantMention.swift:72-80 | Before printable ASCII a character ends unless a prepended scalar stands there |
| `UnicodeText.BreakAfter` | ios/FamilyConnect/Models/AssistantMention.swift:72-80 | After printable ASCII a character ends unless an extending, joining or spacing mark follows |
| `AssistantMention.MentionsDoNotOverlap` | ios/FamilyConnect/Models/AssistantMention.swift:60-83 | Two found tokens never share a byte |
| `DrawGrammar.DrawPromptExactly` | ios/FamilyConnect/Models/AssistantMention.swift:107-139 | A body gives a prompt exactly when it is blanks, optionally one mention and blanks, the command in any case, blanks, and that prompt, trimmed and not empty, with blanks after |
| `DrawGrammar.DrawToken` | ios/FamilyConnect/Models/AssistantMention.swift:204-231 | The loop finds the command where the grammar puts it |
| `DrawGrammar.DrawScan` | ios/FamilyConnect/Models/AssistantMention.swift:193-198 | The command and its prompt are found together or not at all |
| `DrawGrammar.LeadingMention` | ios/FamilyConnect/Models/AssistantMention.swift:292-314 | The leading mention ends where the token and its boundary say |
| `DrawGrammar.Skip` | ios/FamilyConnect/Models/AssistantMention.swift:234-242 | The loop stops at the first character that is not blank |
| `DrawGrammar.Trim` | ios/FamilyConnect/Models/AssistantMention.swift:247-260 | The two loops cut exactly the blanks at both ends |
| `DrawGrammar.TrimmedIs` | ios/FamilyConnect/Models/AssistantMention.swift:247-260 | What is cut is blank and what is left neither begins nor ends with a blank |
| `ShareHandoff.HandoffRoundTrip` | ios/FamilyConnectShared/ShareHandoff.swift:185-217 | A URL is made exactly for a non-empty list of UUIDs, and reading it gives back the first ten in order |
| `ShareHandoff.AcceptedExactly` | ios/FamilyConnectShared/ShareHandoff.swift:205-217 | A URL is accepted exactly when scheme and host match in any case and the first "ids" item splits into one or more UUIDs, none bad; what is given back is at most ten of them, in order |
| `ShareHandoff.SplitPieces` | ios/FamilyConnectShared/ShareHandoff.swift:205-217 | Splitting gives no empty piece and no comma |
| `ShareHandoff.AcceptedStaysInTheInbox` | ios/FamilyConnectShared/ShareHandoff.swift:83-86 | Every accepted id names a directory directly inside the inbox |
| `ShareHandoff.Inbox.Sweep` | ios/FamilyConnectShared/ShareHandoff.swift:148-174 | The sweep leaves what it should, in order, and returns how many it removed |
| `ShareHandoff.SweepExactly` | ios/FamilyConnectShared/ShareHandoff.swift:148-174 | An entry stays exactly when it has no readable time or is not older than the grace period |
| `ShareHandoff.InFlightIsLeft` | ios/FamilyConnectShared/ShareHandoff.swift:123-139 | A directory whose time is unreadable, in the future, or within the grace period is never removed |
| `ShareHandoff.SafeNameIsSafe` | ios/FamilyConnectShared/ShareHandoff.swift:228-235 | The safe name is one plain path part of 1 to 255 characters as the reader counts them, without colon, and hidden exactly if what is left begins with a dot that the next scalar leans on |
| `ShareHandoff.AsciiNameFits` | ios/FamilyConnectShared/ShareHandoff.swift:228-235 | Of a printable ASCII name the safe name also fits 255 bytes |
| `ShareHandoff.LongNameOverflows` | ios/FamilyConnectShared/ShareHandoff.swift:228-235 | A name of 128 two-byte letters passes unchanged and is 256 bytes |
| `PageUpsert.Store.Write` | ios/FamilyConnect/Core/ChatSyncCoordinator.swift:2532-2640 | One message takes over the row with its client id, else the row under its own id, else becomes a new row; the body only when its edit seq is not older |
| `PageUpsert.Store.MakeLookup` | ios/FamilyConnect/Core/ChatSyncCoordinator.swift:5849-5892 | The prefetched tables hold the first fetched row of each of the page's ids and client ids, out of one fetch of the rows with no server id and those in the page's range of ids |
| `PageUpsert.Store.ApplyPage` | ios/FamilyConnect/Core/ChatSyncCoordinator.swift:5843-5847 | The loop over a page through its tables is the fold of the prefetched upsert |
| `PageUpsert.PageIsRowByRow` | ios/FamilyConnect/Core/ChatSyncCoordinator.swift:5797-5834 | Applying a page through the tables is applying its messages one at a time whenever no row outside the fetch holds one of its client ids |
| `PageUpsert.PageExactly` | ios/FamilyConnect/Core/ChatSyncCoordinator.swift:5797-5892 | For rows that hold each client id once, the two agree if and only if there is no such row |
| `PageUpsert.StrangerDiffers` | ios/FamilyConnect/Core/ChatSyncCoordinator.swift:5849-5892 | A delivered row outside the page's range that holds a client id of the page is found one at a time and missed by the tables |
| `PageUpsert.UpsertKeepsGood` | ios/FamilyConnect/Core/ChatSyncCoordinator.swift:2532-2640 | With the server's answers consistent, an upsert keeps one row per server id and one per client id |
| `PageUpsert.GoodHasNoStranger` | ios/FamilyConnect/Core/ChatSyncCoordinator.swift:5849-5892 | Under that invariant no page has such a row, so the tables are safe |
| `PageUpsert.PageLeavesOneRowEach` | ios/FamilyConnect/Core/ChatSyncCoordinator.swift:4822-4842 | After a page: every message of it is held and sent, no two rows share a server id, a pending send of it has become its delivered row in place, and no other row has gone or moved |

## Left out

- Views, pixels, text layout, badges, call buttons and time labels: drawing.
- Networking, the databases, keychains, the system's call screen, WebRTC, audio and video frameworks: foreign code, each a nondeterministic step.
- Decoding of server documents and the tables of error sentences.
- Reactions, edits, polls, threads, read markers and unread counts of the message store.

What the models assume of what they leave out:

- Pack: one family, unscoped; commits take their seqs in order under the family's lock (`server/src/handlers_pack.rs:111`), and a pack read and
  its mark are one snapshot. Each change has one frame, sent out at any time after its commit, to the socket registered then; a socket reads its
  frames in the order they were sent. The runs that need more of the server say so. Recent stickers, limits and the sign-out wipe are not modelled.
- Catch-up: ids commit, and frames are sent out, in any order. One chat that holds something in sequence. `HeldTo`, which lowers a waiting cursor
  to what the cache still holds, is a minimum here; a chat emptied since is not part of this model.
- Pack, message catch-up and pass loops (`Resync`, `LiveConnection`) are state machines on values, one step between two awaits, not methods: a
  method cannot be suspended half-way. The stores they drive are classes.
- Windows board: as the pack; commits take their seqs in order under the family's lock (`server/src/handlers_board.rs:1397`), a whole read takes
  its mark first and its notes after (`server/src/handlers_board.rs:790-812`), and lists each note once. Whether a pass of the open connection has ended is kept beside the store,
  which does not ask it. Unread marks are left out.
- Apple board: `NoteBoard.AnyOrderSameWall` takes a history whose content is fixed by id and seq and whose tombstone has its id's highest seq;
  `NoteBoard.NothingComesBack` takes nothing.
- Tree hash: names are the bytes after lossy conversion, so two names that are not valid UTF-8 may become one; links and read errors are not
  part of this model. File lengths are below 2^64.
- Calls: frames are "handed over"; independent sends may overtake each other on the wire. Answers of the system's call screen are taken at the
  moment they have effect, whether it agreed or refused. Camera, renderers, mute and speaker are left out. A new call's id is new, and the server
  does not ring again a call that is no longer among the sixteen remembered.
- Outbox: one message; whether its chat's upload slot is free is a choice of the step; the waiting time between attempts, deletion and location
  items are left out. The poster of an item the system uploaded is waited for before the set is written, at no particular length.
- Cache: `removeAll(where:)` is a run of removes.
- Animation: target size and bit rate are left out, and sums stay below 64 bits. The WebP and APNG container walks are left out: chunks
  of stated length, without nesting.
- Stream player: callbacks do not call back into the player, and the player outlives its load.
- Mention and hand-off: the Unicode property tables are a parameter, of which only this is assumed: printable ASCII has none of the properties
  (and, in an example, what is said of the scalar in it). A string is its Unicode scalars, and its characters are the clusters of Annex #29.
- Hand-off: a URL is its scheme, host and query items, already parsed. Foundation's replacing of a slash and a colon is scalar by scalar here;
  whether it passes over one that a combining mark leans on is Foundation's to say and not part of this model.
- Page: one chat, in the order the store fetches it.

Contracts weaker than what might be expected:

- PackOrder.NoAddIsEverLost: asks that the server sends frames out in turn and registers a socket first, because without either it is false of
  the code; `PackLaws.CoversExactly` has the condition for every run. It says nothing of removals, which may come back; the same lemma has theirs.
- PackOrder.Converges: asks the same of the server; `PackRuns.QuietPassLevels` says for every run what a quiet pass leaves.
- WallCalm.CarefulRunsCover: asks the same of the server beside three rules this device could keep; `WallLaws.CoversExactly` has the condition.
- CatchUpOrder.EveryMessageArrives: asks that ids commit and frames are sent in order, that a socket is registered first, and no restart, because
  it is false otherwise; `CatchUpLaws.EveryMessageArrivesExactly` has the condition for every run.
- CallLaws.EveryCallIsOrderly: allows frames after a call's end, because the code sends them; `CallLaws.NothingAfterTheEndExactly` has the condition.
- OutboxLaws.CountExactly: the count is less than what is missing by the times it was taken down twice, because the code does that.
- ShareHandoff.SafeNameIsSafe: says 255 characters and not 255 bytes, because that is what the code cuts to; making a safe name safe again may
  change it.
- TreeHash.OneByteChangesTheVersion: the two trees differ in one byte of one file; two trees that differ in more may share a version, as with any
  64-bit hash.
