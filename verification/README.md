# Studio Control: what must hold across crashes, threads and time

A model of the parts of Studio Control that keep state across failures, threads
and time, with proofs of what they promise. Two programs are modelled in part:

- the engine (`native/rust-engine`): the database restore at a start, the deck's
  bridge queue, the deck's keys that ask and that dwell, and the day's takes;
- the pictures helper (`native/pictures-link`): the receivers of vMix's outputs,
  the hand-over of their frames to the draw loop, when it draws, the cache of
  converted pictures, the shell's lines, and SHA-256.

Code that changes things in place is modelled by classes and methods with loops,
each proved against a function on values. What several threads do, or several
starts, is a state machine over atomic steps that uses the same functions: a
section under a lock, a flag read or stored, a rename, a transaction. The main
results are about every run of these machines, with an error or a crash between
any two operations, and about every input.

| files | what they hold |
|---|---|
| `Backups`, `Restore`, `RestoreRuns`, `RestoreFinished`, `RestoreAtStart` | the copies and what a prune removes; the app-data folder and the operations of a start; every run of starts; what a start that finishes has written and leaves owed; the start as code |
| `Frames`, `FrameRuns`, `Handover`, `HandoverRuns`, `Bell`, `FrameChecks`, `Renderer`, `Pictures` | the hand-over and its counts; when a camera counts as drawn without a break; its steps, every interleaving of them, and the bell; the two frame checks; the cache; from a receiver to the picture drawn |
| `Receivers`, `ReceiverRuns` | the thread that keeps the receivers; every interleaving with theirs |
| `DeckPool`, `DeckPoolRuns` | the queue; every interleaving of workers, offers and wake-ups |
| `Presses`, `PressRuns` | the presses' memory and its driver; every run of presses |
| `Pacing`, `PacingRuns`, `Lines`, `Takes` | when to draw; whole runs of that; the shell's bytes as lines; the day's takes |
| `Common` | missing values, outcomes, moments |
| `Sha256Standard`, `Sha256`, `Sha256Bits` | FIPS 180-4 over bits; the implementation over bytes; what the operations on words do to their bits |

Time is counted in whole nanoseconds, with saturating subtraction as in the
source. What the outside decides (which operation fails, what NDI lists, when a
thread runs, what a conversion makes) is a parameter or a step anyone may take.

## Where a promise does not hold as it is worded

Each is a lemma with the input that shows it, a run from the start wherever the
promise is about runs, and the exact condition is proved for all inputs.

- `storage_backups.rs:8-10` keeps the database that a restore moved aside, "so
  nothing a restore replaced is lost", and names sort in the order they were
  written (`storage_backups.rs:110-112`). With the clock set back they do not, and
  the prune after a restored database's own copy removes the one just moved aside:
  one start loses it though its checkpoint succeeded (`AStartMayPruneItsOwnCopy`).
- When a replaced database cannot be checkpointed, it is "kept as it is"
  (`bootstrap.rs:531-532`), and a change that was only in its log is lost
  (`AFailedCheckpointMayLoseAChange`).
- Of both: what a start replaces and no other backup holds is kept, for every start
  that restores and finishes, if and only if the checkpoint succeeds or the log is
  empty, and the start upgrades nothing or fewer than five replaced copies have
  later names (`AStartKeepsWhatItReplacesIff`).
- The hand-over of a receiver told to stop: `receive.rs:555-559` says it hands on
  nothing more. It hands on the one frame it has already begun on, and that one
  can come after a frame of the newer receiver
  (`AStoppedReceiversFrameMayComeLast`, `HandsAtMostOneMore`).
- A draw that takes frames and is not presented counts none of them, yet the next
  one reads as unbroken (`layer.rs:250-258`, `layer.rs:723-795`): the minute's
  counts then miss frames (`ADrawNotPresentedIsNotCounted`, `DrawCountsExactly`,
  `EveryFrameIsAccountedFor`).
- The cache keyed by a frame's count (`renderer.rs:360-363`): the test cards and
  vMix's frames both count from the start, so a change of pictures under one
  renderer may draw the old one (`AChangeOfPicturesMayShowTheOldOne`,
  `DrawnIsShownIff`, `DrawsAfterOtherPicturesIff`).
- `layer.rs:45-49` promises that after the first new frame the draw waits at most
  half a frame for the others'. A camera whose next frame comes within that time
  puts the draw off again: with another one live and silent, for nearly half a
  second, though no wake is late (`AFirstFrameMayWaitLonger`). A frame waits no
  longer than half a frame and the lateness of the wakes unless a newer one of its
  camera takes its place (`NoNewestFrameWaitsLonger`, `TakenInTimeOrReplaced`).
- `layer.rs:839-840`: a second decision to draw is said to be a frame that landed
  meanwhile; it is also the own clock, when its next draw is due at that very
  moment (`TheClockMayWakeAtOnce`, `WakesAtOnceIff`).
- `control_surface.rs:815-816` says that any other key of the page ends an arm: not
  the other asking key while it dwells (`AnArmMayOutliveAnotherKey`,
  `AnotherKeyEndsTheArm`).
- `control_surface_presses.rs:215-217`: what stood before a failed press stands
  again, also when that press has failed itself meanwhile
  (`AFailedPressMayDropAnother`, `GiveBackLeavesNothingIff`).
- A key that shows its name does not act at its next press, unless that press had
  arrived before the name was shown (`ALatePressActs`, `AnEarlierPressMayAct`).

And one guard never decides: `receive.rs:496-501` turns a receiver away that is
overtaken by a newer one, and by then only a receiver told to stop can be
(`RegistersIffNotTold`).

## Model

| member | source | states |
|---|---|---|
| Restore.FirstFree | native/rust-engine/src/storage_backups.rs:114-134 | the name a copy gets is the first of the fifty tried that is not taken; none if and only if all are taken |
| Backups.Excess | native/rust-engine/src/storage_backups.rs:264-270 | what is removed is of those there are, oldest first |
| Backups.ExcessIff | native/rust-engine/src/storage_backups.rs:264-270 | a name is beyond those kept if and only if as many as are kept are later |
| Backups.PrunedIff | native/rust-engine/src/storage_backups.rs:237-274 | a prune removes a copy if and only if as many later ones of its reason are there as are kept |
| Backups.PrunedInOrder | native/rust-engine/src/storage_backups.rs:259-271 | each once, a reason's oldest first, so that those it counts as later are still there when it goes |
| Backups.PrunesNothingIff | native/rust-engine/src/storage_backups.rs:237-274 | it removes nothing if and only if no copy is surplus |
| Restore.RunThen | native/rust-engine/src/bootstrap.rs:285-339 | a start's parts run one after another are one run, and keep the protocol if each does |
| Restore.ApplyFollows | native/rust-engine/src/bootstrap.rs:489-565 | every operation of applying or refusing a staged restore comes only when the protocol allows it: marker first, the live file aside only after a checkpoint that succeeded emptied its log or was given up, the staged file in only when no old log is beside it |
| Restore.InitializeFollows | native/rust-engine/src/storage.rs:267-317 | opening, backing up and upgrading the live database keeps the protocol, leaves the marker, and leaves the outputs armed or held as a live database says |
| Restore.PruneFollows | native/rust-engine/src/storage_backups.rs:237-274 | a prune's removals, one after another, are each allowed when they come, and leave exactly the copies with fewer later ones of their reason than are kept, untouched |
| Restore.CopyFollows | native/rust-engine/src/storage_backups.rs:88-108 | a copy and its prune keep the protocol and leave all but the backups as it was |
| Restore.LaunchHolds | native/rust-engine/src/bootstrap.rs:591-665 | after the start's transaction the outputs are held whenever a restore was applied, refused or left unfinished, or the start is safe; otherwise the flag is what it was |
| Restore.HoldFollows | native/rust-engine/src/bootstrap.rs:591-678 | the marker goes only once the hold that it stands for is committed, and is left if and only if one stood and it cannot be removed |
| Restore.StartFollows | native/rust-engine/src/bootstrap.rs:285-339 | a whole start, in its order, keeps the protocol at every operation |
| Restore.StoppedKeeps | native/rust-engine/src/bootstrap.rs:285-339 | what each allowed operation keeps, a start keeps wherever an error or a crash stops it |
| RestoreRuns.HeldUntilArmed | native/rust-engine/src/bootstrap.rs:566-590 | in every run of starts that stop anywhere, changes, stagings and damage: once a start has found a staged restore, the app never runs with the outputs armed until the operator arms them |
| RestoreRuns.EveryRunBegins | native/rust-engine/src/bootstrap.rs:285-339 | any disk at all is a beginning of such a run |
| RestoreRuns.FinishedStartHolds | native/rust-engine/src/bootstrap.rs:577-590 | a start that finishes with a restore staged, owed by an unfinished start, or held already, or a safe start, leaves the database held |
| RestoreRuns.NoStartArms | native/rust-engine/src/bootstrap.rs:591-678 | no start, stopped anywhere, turns a held database to armed that it neither replaced nor created |
| RestoreRuns.PlainStartLeavesTheFlag | native/rust-engine/src/bootstrap.rs:591-678 | a start with nothing staged or owed and no safe start leaves the operator's flag, wherever it stops |
| RestoreRuns.NothingCommittedIsLost | native/rust-engine/src/bootstrap.rs:523-553 | in every run whose checkpoints succeed, copies and prunes included: what was committed at any moment stays in the live database or in a backup at every crash point, or was in a backup that a prune removed while as many of its reason as are kept had later names; with nothing pruned it stays |
| RestoreRuns.ACopyStaysIff | native/rust-engine/src/storage_backups.rs:88-108 | after a copy and its prune a backup is there if and only if it was, or is the copy, and fewer of its reason than are kept have later names; the copy is sound and holds all that was committed |
| RestoreRuns.AStartKeepsItsCopyIff | native/rust-engine/src/bootstrap.rs:542-544 | every start that restores and finishes ends with the file it moved aside, log folded in if it could be, if and only if it upgrades nothing or fewer than five replaced copies have later names |
| RestoreRuns.AStartKeepsWhatItReplacesIff | native/rust-engine/src/bootstrap.rs:523-553 | what was committed and is nowhere else survives such a start if and only if the checkpoint succeeds or the log held nothing, and it upgrades nothing or fewer than five replaced copies have later names |
| RestoreRuns.AStartMayPruneItsOwnCopy | native/rust-engine/src/storage.rs:416-422 | a folder and a start, its checkpoint succeeding, that loses what was committed |
| RestoreRuns.FailedCheckpointLosesTheLog | native/rust-engine/src/bootstrap.rs:529-544 | without a checkpoint, the copy aside holds everything committed if and only if the log was empty |
| RestoreRuns.AStartKeepsTheLogIff | native/rust-engine/src/bootstrap.rs:529-553 | so, over a start that upgrades nothing: if and only if the checkpoint succeeds or the log was empty |
| RestoreRuns.AFailedCheckpointMayLoseAChange | native/rust-engine/src/bootstrap.rs:529-544 | a folder and a start that loses one change so |
| RestoreRuns.RestartsKeepRestoring | native/rust-engine/src/bootstrap.rs:489-565 | however many starts stop wherever, accepted staged contents are in the staged file, or live with nothing after them but what starts write |
| RestoreRuns.StartCompletes | native/rust-engine/src/bootstrap.rs:489-565 | with backup names to be had, no such disk makes a start fail by itself |
| RestoreRuns.RestoreIsReached | native/rust-engine/src/bootstrap.rs:489-565 | the two names are never both empty, and the next start let finish has the staged contents live, nothing of the old log after them, and held |
| RestoreRuns.RefusedRestoreKeepsTheDatabase | native/rust-engine/src/bootstrap.rs:503-521 | a staged file that fails its check costs the live database nothing, wherever the start stops |
| RestoreFinished.MarkerStaysIff | native/rust-engine/src/bootstrap.rs:591-678 | a start that finishes leaves the marker if and only if a restore was found or owed and the marker cannot be removed |
| RestoreFinished.ArmingStands | native/rust-engine/src/bootstrap.rs:577-678 | after any start that finished and removed its marker, the operator's arming stands in every run with nothing staged, no safe start and no disarming, however its starts stop |
| RestoreFinished.TheNextStartHoldsIff | native/rust-engine/src/bootstrap.rs:666-678 | after the operator has armed, the next start that finishes holds the outputs again if and only if it is a safe start or the marker of a restore stayed |
| RestoreFinished.ArmedIff | native/rust-engine/src/lighting/output_arming.rs:33-37 | the outputs are held if and only if something held them and nothing since has armed them |
| RestoreFinished.AFinishedStartWrites | native/rust-engine/src/bootstrap.rs:285-339 | a start that finishes leaves this app's schema live, and in it what it opened, then a new database's tables, each step of the upgrade in turn, the settings and one row at most: restored, refused or unfinished, else held by a safe start; with the flag exactly when it was armed |
| RestoreFinished.AStartFinishesIff | native/rust-engine/src/storage.rs:267-317 | let run, a start finishes if and only if the database it opens is sound and not newer than the app, and each copy it makes finds a free name |
| RestoreFinished.AnUnreadableDatabaseIsLeft | native/rust-engine/src/storage.rs:267-415 | with nothing staged, a database the app cannot open is left as it is, and the start does not finish |
| RestoreFinished.AnUpgradeIsCopiedFirst | native/rust-engine/src/storage.rs:416-422 | with nothing staged, a finished start has copied an older database, log and all, before it upgraded it, and pruned; any other it does not copy |
| RestoreAtStart.AppData.ApplyPendingRestore | native/rust-engine/src/bootstrap.rs:489-565 | the code, stopped after any number of operations, leaves the disk its operations say, and says whether a restore was applied |
| RestoreAtStart.AppData.ClearLive | native/rust-engine/src/bootstrap.rs:525-545 | the live file goes aside under a free name after its checkpoint, or stays where the stop left it |
| RestoreAtStart.AppData.ClearSidecars | native/rust-engine/src/bootstrap.rs:546-551 | exactly the log and shared memory that exist are removed |
| RestoreAtStart.AppData.PruneSnapshots | native/rust-engine/src/storage_backups.rs:237-274 | the loop over the surplus names removes them one after another, stopped anywhere |
| RestoreAtStart.AppData.BackUpBeforeUpgrade | native/rust-engine/src/storage.rs:416-422 | a copy of an older database under a reserved name, then the prune; none of a new one |
| RestoreAtStart.AppData.Migrate | native/rust-engine/src/storage.rs:378-426 | a new database's tables, then the steps to this app's schema, each its own transaction |
| RestoreAtStart.AppData.InitializeDatabase | native/rust-engine/src/storage.rs:267-317 | the code of opening and upgrading does its operations in order and fails on a database it cannot take |
| RestoreAtStart.AppData.HoldLightOutputs | native/rust-engine/src/bootstrap.rs:591-678 | the code that updates the flag and its rows step by step writes the one transaction decided on, and then unmarks |
| RestoreAtStart.AppData.Decide | native/rust-engine/src/bootstrap.rs:599-665 | the branches that update flag and rows give the decision of the specification, rows in order |
| RestoreAtStart.AppData.Start | native/rust-engine/src/bootstrap.rs:285-339 | a whole start leaves the disk of the machine, and succeeds if and only if it reaches its end |
| Frames.Giver.HandOver | native/pictures-link/src/receive.rs:584-597 | the newest slot holds the frame's bytes, shape, moment and the next count; the receiver has the old buffer, not written to |
| Frames.TakeOne | native/pictures-link/src/layer.rs:266-301 | one camera's take: a swap of buffers when the count differs, what is counted as missed, and the states it leaves alone |
| Frames.TakeReceived | native/pictures-link/src/layer.rs:260-304 | the loop takes each camera as if it were alone |
| FrameRuns.DrawnLatelyIff | native/pictures-link/src/layer.rs:278-300 | over any hand-overs and draws: a camera counts as drawn without a break if and only if the last draw that showed it with recent frames was less than `SHOWN_FOR` ago and none has hidden it since |
| FrameRuns.WhatADrawTakes | native/pictures-link/src/layer.rs:260-304 | over any hand-overs and draws: when a draw takes a new frame, how long that one waited, how many before it count as replaced, and when the last one reads as drawn again |
| FrameRuns.HiddenFramesAreNotMissed | native/pictures-link/src/layer.rs:269-273 | once a draw has hidden the camera and none has drawn it since, the next draw counts nothing as replaced, whatever landed |
| Frames.DrawCountsExactly | native/pictures-link/src/layer.rs:279-295 | a draw counts as taken and replaced exactly how far it advances, if and only if it takes nothing new, or is presented and was drawn without a break and at most a thousand were missed, or none was |
| Frames.ADrawNotPresentedIsNotCounted | native/pictures-link/src/layer.rs:723-795 | a run in which a frame is taken, counted neither as taken nor as replaced, and the next draw is unbroken |
| Frames.EveryFrameIsAccountedFor | native/pictures-link/src/layer.rs:260-304 | over any hand-overs and draws at all: taken, replaced, taken uncounted and still waiting add up to what was handed over |
| Frames.NothingGoesUncounted | native/pictures-link/src/layer.rs:260-304 | over draws that count exactly: taken, replaced and still waiting add up to what was handed over |
| HandoverRuns.HoldsExactlyOneFrame | native/pictures-link/src/receive.rs:584-597 | under any interleaving of any number of receivers and the draw loop, what the loop holds is exactly the one frame handed over under its count, bytes and shape |
| HandoverRuns.TakesTheNewest | native/pictures-link/src/layer.rs:272-296 | a frame taken is the newest handed over at that moment |
| HandoverRuns.OnlyATakeChangesWhatIsHeld | native/pictures-link/src/layer.rs:286-290 | no other step writes the bytes the loop draws from |
| HandoverRuns.HandedOnlyGrows | native/pictures-link/src/receive.rs:586-596 | the frames handed over are only added to |
| HandoverRuns.CountNamesThePicture | native/pictures-link/src/receive.rs:76-78 | when the loop holds a count again, it holds the same picture |
| Bell.NeverSleepsOnAnUnseenFrame | native/pictures-link/src/layer.rs:145-181 | while connected, the loop sleeps with a frame not looked at, of a camera its last look found in the scene, only when the frame's receiver is about to ring or a bell is still to come; in a timed step, only with the flag set that it reads next |
| FrameChecks.TakenIffRowsInside | native/pictures-link/src/picture.rs:23-47 | a frame of a right shape is taken if and only if every row lies inside its bytes |
| FrameChecks.PictureIsTakenIff | native/pictures-link/src/picture.rs:23-47 | which frames the renderer takes, in numbers, and every row inside |
| FrameChecks.HeaderIsAcceptedIff | native/pictures-link/src/ndi_sdk.rs:280-325 | which headers are accepted, in numbers, and that width, height, stride, length and rates are the header's own |
| FrameChecks.AcceptedOnReceiptIsTaken | native/pictures-link/src/ndi_sdk.rs:280-325 | a header accepted on receipt gives a length with which the renderer's check accepts, one byte less not, and every row lies inside it; each product and sum of the check stays in its machine type |
| Renderer.PlayedHoldsItsName | native/pictures-link/src/renderer.rs:343-382 | over any draws and failures, a picture is of the frame whose count it holds |
| Renderer.DrawnIsTheFrameGiven | native/pictures-link/src/renderer.rs:341-382 | a camera reported drawn shows the frame given in that draw, whenever counts name frames |
| Renderer.HoldsTheLastConverted | native/pictures-link/src/renderer.rs:343-382 | over any run, what was reported drawn tells the count and the picture held |
| Renderer.DrawnIsShownIff | native/pictures-link/src/renderer.rs:360-363 | without that proviso, over any run: a frame reported drawn is shown if and only if it is the first, or the one drawn last had another count, or the one converted last under it was the same frame |
| Renderer.IsDrawnIff | native/pictures-link/src/renderer.rs:343-382 | over any run, from what was reported and made before: a camera is drawn if and only if it is shown with a frame that passes, and its count is the last one drawn or nothing the card is asked for fails; the draw fails if and only if something does |
| Renderer.SourceIsTheLastMade | native/pictures-link/src/renderer.rs:364-370 | over any run, the source held is the last one that a frame of a new count was made, whatever failed after |
| Renderer.ANewFrameIsShownAtOnce | native/pictures-link/src/renderer.rs:360-379 | after any run, a shown frame that passes is drawn by a card that makes what is asked, and one of a new count is converted and shown in its own draw |
| Renderer.AChangeOfPicturesMayShowTheOldOne | native/pictures-link/src/layer.rs:569-598 | the input on which a card is drawn for vMix's first frame |
| Renderer.Renderer.ConvertOne | native/pictures-link/src/renderer.rs:350-379 | one camera's part, a failed allocation included, updates its place and no other |
| Renderer.Renderer.ConvertAll | native/pictures-link/src/renderer.rs:343-382 | the loop treats each camera alone, in order, until an allocation fails |
| Pictures.HeldIsHandedOver | native/pictures-link/src/receive.rs:584-596 | what the loop holds at any point of a run is among the frames handed over by its end |
| Pictures.DrawsAFrameHandedOver | native/pictures-link/src/renderer.rs:343-382 | from receiver to picture, under a renderer that draws vMix's frames alone: whatever is reported drawn is exactly the frame held at that moment, handed over under its count |
| Pictures.DrawsAfterOtherPicturesIff | native/pictures-link/src/layer.rs:569-598 | under one that drew anything before, test cards included: the same, if and only if no picture of before still stands for the count |
| Receivers.Port | native/pictures-link/src/receive.rs:131-136 | what follows the last colon, which it does not hold; none if and only if there is no colon |
| Receivers.KeepMeans | native/pictures-link/src/receive.rs:217-261 | after a keep a camera has a receiver only while the pictures show, one of the listed name and of what follows the last colon of its address, kept or newly made; without one it waits or nothing is listed; one that went had ended or has been told to stop and is watched |
| Receivers.KeepConnectsIff | native/pictures-link/src/receive.rs:226-260 | a keep makes a new receiver if and only if the camera has none it wants, the pictures show, its output is listed, the pause is over and the thread starts; and the pause after each failure |
| Receivers.KeepAsksSince | native/pictures-link/src/receive.rs:245-249 | a camera is asked for if and only if the pictures show and its output is listed, and since the first such keep in a row |
| Receivers.Vmix.KeepCamera | native/pictures-link/src/receive.rs:223-259 | one camera's part is its moves in the source's order: dropped, stopped, asked, connected |
| Receivers.Vmix.Keep | native/pictures-link/src/receive.rs:220-261 | the ended ones are let go, then each camera is kept in turn |
| Receivers.Vmix.Retain | native/pictures-link/src/receive.rs:222 | the receivers still ending stay, in their order |
| Receivers.ReapedHolds | native/pictures-link/src/receive.rs:222 | exactly those not read as ended stay |
| Receivers.Vmix.Finish | native/pictures-link/src/receive.rs:397-417 | no receiver is left, the search is told, it waits while a check fails in time, and it complains if and only if the last check fails |
| ReceiverRuns.AtMostOneRunsFreely | native/pictures-link/src/receive.rs:220-301 | in every interleaving each camera has at most one running receiver not told to stop, the registered one if it takes frames, and the registered one has not ended |
| ReceiverRuns.RegistersIffNotTold | native/pictures-link/src/receive.rs:496-510 | a receiver that connects is registered if and only if it has not been told to stop |
| ReceiverRuns.RegistrationChanges | native/pictures-link/src/receive.rs:498-535 | a registration is replaced only by a newer receiver, and cleared only by its own |
| ReceiverRuns.RegistrationsOnlyGetNewer | native/pictures-link/src/receive.rs:498-535 | along any run a camera's registrations never go back to an older receiver |
| ReceiverRuns.ToldComesToItsEnd | native/pictures-link/src/receive.rs:119-120 | over any run: once told to stop, a receiver's own steps are at most those left to it then, until it has ended it can always take one, and after that many it has ended |
| ReceiverRuns.HandsAtMostOneMore | native/pictures-link/src/receive.rs:552-598 | once told to stop it hands over exactly the frame it had begun on, and nothing after |
| ReceiverRuns.AStoppedReceiversFrameMayComeLast | native/pictures-link/src/receive.rs:555-559 | a run in which that frame comes after the newer receiver's |
| ReceiverRuns.KeepIsSteps | native/pictures-link/src/receive.rs:220-301 | the keep that the code performs is a run of the machine's moves |
| ReceiverRuns.QuietOnlyWhenAllHaveEnded | native/pictures-link/src/receive.rs:395-417 | the helper ends without its complaint only when the search and every receiver's thread ever started have ended, though the flags are read one at a time |
| ReceiverRuns.NoComplaintWhenAllHaveEnded | native/pictures-link/src/receive.rs:401-416 | and when they have all ended, it makes no complaint, within one pass over the flags |
| ReceiverRuns.FinishBeginsItsChecks | native/pictures-link/src/receive.rs:397-400 | the last keep and the word to the search are steps of the machine, and leave what `Vmix.Finish` leaves |
| ReceiverRuns.ALookIsSteps | native/pictures-link/src/receive.rs:402-407 | a look of the code, its flags read one at a time while the threads go on, is a run of checks with its outcome |
| ReceiverRuns.FinishIsQuietOnlyWhenAllHaveEnded | native/pictures-link/src/receive.rs:408-416 | the code's complaint is the machine's; without it, the search and every receiver's thread ever started have ended |
| DeckPool.Pool.constructor | native/rust-engine/src/control_surface_pool.rs:57-69 | an empty open queue with room for at least one |
| DeckPool.Pool.Offer | native/rust-engine/src/control_surface_pool.rs:79-103 | taken, at the line's end, if and only if fewer than the capacity wait; given back otherwise, nothing changed |
| DeckPool.Pool.OfferPress | native/rust-engine/src/control_surface_pool.rs:84-103 | the same with fewer than the capacity and the reserve together |
| DeckPool.Pool.Park | native/rust-engine/src/control_surface_pool.rs:108-111 | a read is never turned away, and joins its line's end |
| DeckPool.Pool.HandOut | native/rust-engine/src/control_surface_pool.rs:116-139 | an overdue read, then an unread connection, then the oldest read; closed or a wait only when nothing waits |
| DeckPoolRuns.EveryRun | native/rust-engine/src/control_surface_pool.rs:92-139 | in every run: no worker sleeps, or no more waits than workers woken and notifications to come; each line hands out in order exactly what it took in; the depth with what the workers hold never passes capacity, reserve and workers together |
| DeckPoolRuns.TakenIff | native/rust-engine/src/control_surface_pool.rs:77-103 | after any run an offer is taken if and only if fewer than the capacity wait, a press if and only if fewer than capacity and reserve |
| DeckPoolRuns.TheReserveIsForPresses | native/rust-engine/src/control_surface_pool.rs:84-91 | in every run whatever is queued while the capacity or more wait is a press |
| DeckPoolRuns.EveryConnectionIsAccountedFor | native/rust-engine/src/control_surface_pool.rs:79-139 | every connection accepted waits, is in a worker's hands or is finished with, exactly as often as it was accepted |
| DeckPoolRuns.NothingIsLeftWaiting | native/rust-engine/src/control_surface_pool.rs:114-145 | when nobody has anything to do nothing waits; once closed all workers have stopped, and then at most the connections offered after the close are left |
| DeckPoolRuns.ClosedOnlyWhenNothingWaits | native/rust-engine/src/control_surface_pool.rs:129-134 | a worker stops if and only if the queue is closed and nothing waits |
| DeckPoolRuns.OverdueIsHandedOutNext | native/rust-engine/src/control_surface_pool.rs:119-131 | from an overdue read on, every hand-out is a parked one until it is handed out, whatever else comes |
| DeckPoolRuns.UnreadIsHandedOutNext | native/rust-engine/src/control_surface_pool.rs:113-128 | while none is overdue no read comes before an unread connection: one with k before it is handed out within k + 1 hand-outs |
| DeckPoolRuns.HandedOutWithinItsTurn | native/rust-engine/src/control_surface_pool.rs:13-15 | an overdue read with k parked before it is handed out within k + 1 hand-outs |
| Presses.PressMemory.AskKey | native/rust-engine/src/control_surface_presses.rs:123-147 | a press of an asking key acts, arms or is kept, with the arm it leaves |
| Presses.PressMemory.AskingKeyText | native/rust-engine/src/control_surface_presses.rs:163-173 | the display reads the question while the key's own arm runs, else its name |
| Presses.PressMemory.TakeDwellingPress | native/rust-engine/src/control_surface_presses.rs:200-213 | a press is dropped less than the dwell after the moment held, else taken with what stood before |
| Presses.PressMemory.ReleaseDwellingPress | native/rust-engine/src/control_surface_presses.rs:218-237 | given back only while its own moment stands |
| Presses.PressMemory.AskedLightAction | native/rust-engine/src/control_surface.rs:818-876 | a LIGHTS key, its refusals and failures, and the arm and moments it leaves |
| Presses.PressMemory.DeckKey | native/rust-engine/src/control_surface.rs:609-653 | taken first, acted on, given back when it fails |
| Presses.NamesAreApart | native/rust-engine/src/control_surface_presses.rs:181-194 | two presses share a dwell only if they are the same key and strip, and never with an asking key |
| Presses.AsksIff | native/rust-engine/src/control_surface_presses.rs:26-48 | which actions ask first, and no other |
| Presses.DwellsIff | native/rust-engine/src/control_surface_presses.rs:174-194 | which keys dwell, and no other |
| Presses.ShowsItsNameIff | native/rust-engine/src/control_surface_presses.rs:163-173 | a key shows its name unless its own arm runs, three seconds from the press that armed it |
| Presses.APressArmsIff | native/rust-engine/src/control_surface_presses.rs:115-147 | a press arms if and only if the key shows its name and did not act less than the dwell ago; it then asks, and nothing else has changed |
| PressRuns.EveryActWasArmed | native/rust-engine/src/control_surface_presses.rs:123-147 | in every run each act follows its own arming press, same target, at least the dwell and at most the window earlier, and what came between left the arm alone |
| PressRuns.ArmsAreSpentOnce | native/rust-engine/src/control_surface_presses.rs:150-161 | of two acts the later was armed after the earlier |
| PressRuns.ActsAreTwiceTheDwellApart | native/rust-engine/src/control_surface_presses.rs:119-147 | successful acts of one key are at least twice the dwell apart, whatever the order of arrival |
| PressRuns.TheSecondPressActsIff | native/rust-engine/src/control_surface_presses.rs:115-147 | the press after an arming one acts if and only if it is about the same target, at least the dwell and at most the window later |
| PressRuns.APressAboutSomethingElseEndsTheArm | native/rust-engine/src/control_surface_presses.rs:132-137 | a press in time about something else ends the arm, and the next does not act |
| PressRuns.ANameShownNeverActsNext | native/rust-engine/src/control_surface_presses.rs:163-173 | a key showing its name never acts at its next press, if that arrives no earlier, whatever other presses come between |
| PressRuns.AnEarlierPressMayAct | native/rust-engine/src/control_surface_presses.rs:123-173 | exactly when a press does act on a key that has shown its name since |
| PressRuns.ALatePressActs | native/rust-engine/src/control_surface_presses.rs:123-173 | a run in which one does |
| PressRuns.AnotherKeyEndsTheArm | native/rust-engine/src/control_surface.rs:813-829 | another LIGHTS key leaves an arm if and only if it asks too and dwells |
| PressRuns.AnArmMayOutliveAnotherKey | native/rust-engine/src/control_surface.rs:813-857 | a run from the start in which an arm outlives the other asking key and acts |
| PressRuns.StandingPressesAreTheDwellApart | native/rust-engine/src/control_surface_presses.rs:196-237 | in every run, with failures at any time and moments in any order, presses of one key taken and not given back are pairwise the dwell apart |
| PressRuns.NoGiveBackUncoversEarlier | native/rust-engine/src/control_surface_presses.rs:214-237 | and none of them, one alone included, is later than the moment held: a give-back uncovers nothing earlier than one that stands |
| PressRuns.GiveBackPops | native/rust-engine/src/control_surface_presses.rs:218-237 | a give-back takes away its own moment, and only while it is the last of its key's |
| PressRuns.GiveBackLeavesNothingIff | native/rust-engine/src/control_surface_presses.rs:215-237 | a failed press leaves no moment behind if and only if its own stands when it is given back |
| PressRuns.AFailedPressMayDropAnother | native/rust-engine/src/control_surface_presses.rs:215-237 | a run in which both presses taken have failed and a third is dropped |
| PressRuns.DroppedIffOneStandsNear | native/rust-engine/src/control_surface_presses.rs:196-213 | where nothing was left behind, a press is dropped if and only if one that stands was made less than the dwell before it, or later |
| PressRuns.ADeckKeyIsARun | native/rust-engine/src/control_surface.rs:609-653 | the key as the code handles it is a run of these events |
| Pacing.FirstNew | native/pictures-link/src/layer.rs:229 | the earliest new frame of the live cameras; none if and only if none has one |
| Pacing.AWaitEndsInADraw | native/pictures-link/src/layer.rs:220-238 | a wait is in the future, and deciding again with the same cameras draws if and only if it is over |
| Pacing.ANewFrameWaitsHalfAFrameAtMost | native/pictures-link/src/layer.rs:213-238 | one decision: no live camera's newest frame is put off for more than half a frame; at once if and only if all live cameras have one |
| Pacing.TheMomentOfADraw | native/pictures-link/src/layer.rs:213-234 | with a new frame the draw is at once when all live cameras have one, else exactly half a frame after the first landed |
| Pacing.TheMomentOfAQuietDraw | native/pictures-link/src/layer.rs:221-238 | with none, it is when the clock's is due if no camera is live, else exactly two frames after the last draw |
| Pacing.QuietCamerasAreDrawnEveryTwoFrames | native/pictures-link/src/layer.rs:825-841 | while cameras are live without a new frame, any draw is followed by one two frames later, whatever wakes the loop before |
| Pacing.TheClockWaitsAFrame | native/pictures-link/src/layer.rs:699-718 | after a draw in step with the cameras the own clock draws a frame later at the earliest |
| Pacing.ALostLinkIsNotLate | native/pictures-link/src/layer.rs:842-846 | a wake without the link puts the clock off by a frame, and the time the link was lost is not a late draw |
| Pacing.SeesWhatADrawTakes | native/pictures-link/src/layer.rs:674-697 | what is seen as new and live is exactly what a draw at that moment takes, and after it nothing is new |
| Pacing.WakesAtOnceIff | native/pictures-link/src/layer.rs:830-841 | after a draw the loop wakes at once exactly for a frame to be drawn already, or for its own clock due at that moment |
| Pacing.TheClockMayWakeAtOnce | native/pictures-link/src/layer.rs:837-841 | a run in which its own clock does |
| Pacing.AFirstDrawIsPaced | native/pictures-link/src/layer.rs:699-718 | the clock's first draw sets its next a frame later |
| Pacing.ClockDrawsKeepTheirDistance | native/pictures-link/src/layer.rs:703-718 | n own-clock draws in a row span at least n - 1 frames, with any wakes and lost links between |
| Pacing.ClockDrawsAreOnTheGridIff | native/pictures-link/src/layer.rs:708-715 | they are due on the exact grid if and only if none was late by more than a frame |
| Pacing.Drawer.Drew | native/pictures-link/src/layer.rs:703-718 | what a draw leaves of the clock, late draws counted |
| Pacing.Drawer.Wake | native/pictures-link/src/layer.rs:825-849 | a wake decides, draws, decides again, and says when to wake next |
| PacingRuns.NoNewestFrameWaitsLonger | native/pictures-link/src/layer.rs:825-841 | over every run of frames that land and ring and of wakes that look, take and choose the next: while no wake is late by more than `late`, no camera in the scene has a newest frame that waits untaken for more than half a frame and `late` |
| PacingRuns.AWakeDrawsOrIsInTime | native/pictures-link/src/layer.rs:703-718 | a wake takes a waiting frame, or chooses the next no later than half a frame after it landed |
| PacingRuns.TakenInTimeOrReplaced | native/pictures-link/src/layer.rs:825-841 | when more than that has passed since a frame landed, its camera is drawn up to its newest, or has a newer one |
| PacingRuns.FastFramesHoldOff | native/pictures-link/src/layer.rs:229-234 | frames of one camera at most half a frame apart put the draw off one after another while another camera is live without a new one |
| PacingRuns.AFirstFrameMayWaitLonger | native/pictures-link/src/layer.rs:45-49 | a run from the start, no wake late, in which the draw waits for over 29 half frames |
| Lines.FirstBreak | native/pictures-link/src/layer.rs:342 | the position of the first newline, none before it |
| Lines.PiecesMakeTheStream | native/pictures-link/src/layer.rs:330-352 | cutting a stream into lines loses nothing and leaves no newline |
| Lines.PiecesAreTheOnlyOnes | native/pictures-link/src/layer.rs:330-352 | and is the only such cut |
| Lines.TakenAreTheLines | native/pictures-link/src/layer.rs:339-358 | a stream is refused if and only if a line does not fit the bound; else its trimmed lines that are not blank are handed on in order, and the rest waits |
| Lines.HandedAreTheTrimmedLines | native/pictures-link/src/layer.rs:346-349 | what is handed on is the whole lines, trimmed, in order: every one that is not blank then, and no other |
| Lines.RefusedFor | native/pictures-link/src/layer.rs:343-357 | a stream is refused for its first line that is too long, with its length, or for a last part without an end |
| Lines.ChunksMakeNoDifference | native/pictures-link/src/layer.rs:330-358 | however a stream is cut, the refusal, the lines and what waits are the whole stream's |
| Lines.WhatWaitsFits | native/pictures-link/src/layer.rs:352-357 | what waits holds no newline and fits the bound |
| Lines.LineReader.Take | native/pictures-link/src/layer.rs:339-358 | the loop that drains lines in place does just that |
| Takes.Today | native/rust-engine/src/action_log.rs:278-319 | the count is the number of CAM 1's readable starts, and the time the stops' whose nearest mark is a start, with the open take while recording, in whole seconds that fit |
| Takes.TakesAreTheStarts | native/rust-engine/src/action_log.rs:268-312 | the count is how many rows are a readable start of CAM 1's recording |
| Takes.SecondsRoundDown | native/rust-engine/src/action_log.rs:314-317 | whole seconds, rounded down, the largest number at most |
| Takes.AnOpenTakeCountsWhileRecording | native/rust-engine/src/action_log.rs:308-313 | the row that starts a take with no mark after it counts up to now while CAM 1 reports recording, and not at all otherwise |
| Takes.TheDayAddsUp | native/rust-engine/src/action_log.rs:268-277 | counts add up over every split; the time recorded too, but for exactly the take open at the split: the part that the split cuts, and the part counted while it was taken for still open |
| Takes.AStopWithoutItsStartCountsNothing | native/rust-engine/src/action_log.rs:274-276 | a stop with no take open, or a row that marks nothing, changes nothing |
| Sha256Standard.ZeroCountIsSmallest | native/pictures-link/src/sha256.rs:73-81 | the padding of section 5.1.1 of FIPS 180-4 is the smallest that fits |
| Sha256Standard.KAreCubeRootFractions | native/pictures-link/src/sha256.rs:7-16 | each constant is the first 32 bits of the fraction of a prime's cube root |
| Sha256Standard.RowsAreThePrimes | native/pictures-link/src/sha256.rs:6-7 | the table those roots are of is every prime below 312 and nothing else: the first 64 |
| Sha256Standard.EveryRowIsInOrder | native/pictures-link/src/sha256.rs:6-7 | each row of it ascends |
| Sha256Standard.StartAreSquareRootFractions | native/pictures-link/src/sha256.rs:18-23 | each word of the start is that of a prime's square root |
| Sha256Bits.RotationsTurnTheBits | native/pictures-link/src/sha256.rs:32-48 | on the standard's bits: each rotation the code makes takes the last bits to the front, by each amount used |
| Sha256Bits.ShiftsMoveTheBits | native/pictures-link/src/sha256.rs:32-33 | each shift puts zeros in front and drops the last bits |
| Sha256Bits.PlusAddsTheBits | native/pictures-link/src/sha256.rs:34-62 | the addition adds the bits with their carries, the last one dropped |
| Sha256Bits.PlusIsModulo | native/pictures-link/src/sha256.rs:34-62 | and so two numbers' words add to the word of their sum modulo 2^32 |
| Sha256.BlockWordsAreParsed | native/pictures-link/src/sha256.rs:28-30 | big-endian words are the words of section 5.2.1 of FIPS 180-4 |
| Sha256.TailPadsTheMessage | native/pictures-link/src/sha256.rs:72-80 | the message and its tail of one block or two are the padded message of section 5.1.1, bit for bit |
| Sha256.HashedBytesAreHashedBits | native/pictures-link/src/sha256.rs:68-71 | hashing the blocks of bytes is hashing the parsed bits |
| Sha256.DigestIsTheStandards | native/pictures-link/src/sha256.rs:66-84 | for every message shorter than 2^61 bytes the digest is that of section 6.2 of FIPS 180-4 |
| Sha256.Compress | native/pictures-link/src/sha256.rs:26-63 | the schedule in place, the rounds and the sum, in the code's own order of additions, are one step of section 6.2.2 |
| Sha256.ExtendSchedule | native/pictures-link/src/sha256.rs:31-38 | the array holds the message schedule of section 6.2.2 |
| Sha256.RunRounds | native/pictures-link/src/sha256.rs:40-59 | the loop over the eight variables is the 64 rounds of section 6.2.2 |
| Sha256.CompressAll | native/pictures-link/src/sha256.rs:68-71 | every whole block into the state, in order |
| Sha256.MakeTail | native/pictures-link/src/sha256.rs:72-80 | the rest, a one bit, zeros and the length in 64 bits, in one block or two |
| Sha256.Sha256Hex | native/pictures-link/src/sha256.rs:66-84 | the text is the standard's digest in hexadecimal |
| Sha256.HexOfIsInjective | native/pictures-link/src/sha256.rs:83 | different digests have different texts |
| Sha256Bits.HexReadsTheBits | native/pictures-link/src/sha256.rs:83 | each character of a word's text is the hexadecimal digit of its four bits, first to last |

## Left out

- SQLite, its files' bytes, JSON, HTTP and OSC: a transaction, a rename, a removal and a checkpoint are each one step, done whole or not at all; whether a staged file is sound is a property of its contents.
- Reads of the disk during a start never fail in the model; a write to the app's log is a step that may fail and changes nothing modelled.
- RestoreAtStart.AppData.InitializeDatabase: the default settings are one transaction, and so are a new database's first three tables.
- A copy, its check and its removal when that fails are one step, done or not; the directory is always read.
- RestoreRuns.RestoreIsReached: assumes that a backup name is free among the fifty tried, without which the start reports an error of its own.
- Direct3D, DXGI, the shaders and NDI's library: a conversion is known only by the frame it was made from, and a capture by the frame it brings.
- The wrapping 64-bit counts of frames and receivers are unbounded.
- The hand-over checks a frame once; the counts of refused and stale frames, the silence and spacing measures and the minute's lines are not modelled.
- Receivers.Vmix.Keep: runs with the readings of one keep given at once; in `ReceiverRuns` its moves are interleaved with the threads.
- DeckPool.Pool.HandOut: one pass of the waiting loop; the loop itself is in the machine, as a worker that sleeps, is woken and passes again, also by itself.
- A worker of the bridge whose thread ends by a panic outside its handler, which the watch reports.
- Lines.LineReader.Take: a line is bytes and the trim any function of them; the lossy decoding as UTF-8 is not modelled.
- Which target a LIGHTS key is about, and what its act does: parameters of a press.
- Takes.Today: the count is unbounded, and times are read already.
- Pacing.Drawer.Wake: the link, what is said over it and the drawing itself are parameters of a wake.
- PacingRuns.NoNewestFrameWaitsLonger: of runs in which the link is kept and the scene stays the same; a wake looks, takes and looks again in one step, and what that takes is part of its lateness.
- Request dispatch, snapshots, displays' texts beyond the two asking keys, commissioning, meters, test cards, picture aids, the front end: tables, strings and foreign code.
