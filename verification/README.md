# KKTerm models

Dafny models of the parts of KKTerm that carry state, order or recursion, with proofs about every
input, every failure and every interleaving. `dafny verify dfyconfig.toml` checks all of it.

| area | modules | what is proved |
|---|---|---|
| remote paths | `RemotePaths` | canonicalisation of path strings, parent/child/join, and the rename target, over all strings |
| object-store folders | `ObjectStore`, `Downloads`, `TreeDownload` | rename, delete, staged download and recursive download over a flat key-to-bytes map, with a fault possible at every request |
| portable update | `PortableUpdate`, `ReadyHandshake`, `UpdateDownload` | the all-or-nothing swap, the two-process start-up handshake, and the cancellable mirror download |
| workspace store | `Workspace`, `WorkspaceInvariant`, `WorkspaceNavigation`, `SessionCounts`, `StartupFullscreen`, `QuickCommands` | session counts, navigation, the one-shot full-screen intent, and Quick Commands mirrored to a durable store, over every run |
| usage cache | `CodexQuota`, `UsageTables` | quota from redacted JSON equals quota from the original; quota never shows under another login |
| thumbnails | `ThumbnailCache` | a direct-mapped cache under concurrent calls and changing pictures |
| small loops | `IconTrim`, `WidgetImport` | minimal crop; new titles by pigeonhole, ids that never collide within an import |

`Basics` holds shared types. Code that changes state step by step is a class or a method proved against
a function; pure code is a function. A command's error text is not modelled, only that it failed.
Requests and disk operations that may fail draw their outcome from an arbitrary schedule, so a contract
covers every pattern of failures; a `ghost` trace records the state after each of them. Concurrent code
is a state machine over its atomic steps.

Where the code does less than it sets out to do, the model keeps the code and states exactly when the
property holds:

- canonicalising a remote path twice changes it when its last segment ends in whitespace
  (`NormalizeIdempotent`), and joining parent and child restores a path exactly when neither of the last
  two segments does (`JoinParentChild`);
- a recursive download that succeeds is exact if and only if no name below the folder ends in whitespace
  (`DownloadObjectTree` through `FolderDone`); `UntidyDownload` is one that succeeds and is not exact;
- the recursion of that download is bounded by the longest stored key if and only if it comes to no folder
  with a blank name (`DescentsEnd`): at a blank one it lists the same remote folder again
  (`WalkGoesDeeper`), until the local path is too deep, so a download that comes to one never succeeds;
- renaming or deleting a bundle before the bundles were loaded overwrites the stored ones
  (`EarlyRenameWipes`, `EarlyDeleteWipes`), and editing a connection's list before it was loaded hides its
  stored bundle selection (`EarlyEditHidesSelection`);
- switching to the default workspace shows no tab when the remembered one is not open, even if it has
  others (`TabForLands`);
- importing a widget whose title is taken fails exactly when the title leaves no room for the suffix or
  counter that will be chosen (`ChosenNeedsRoom`, `StoppedExactly`), and entries imported before it stay
  (`ImportWidgets`).

## Model

| member | source | states |
|---|---|---|
| `RemotePaths.NormalizePath` | src-tauri/src/cloud_storage.rs:1405-1418 | the loop that pushes kept segments yields the canonical form of any string |
| `RemotePaths.NormalizeIdempotent` | src-tauri/src/cloud_storage.rs:1403-1418 | a second canonicalisation changes nothing if and only if the last kept segment does not end in whitespace |
| `RemotePaths.NormalizeNotIdempotent` | src-tauri/src/cloud_storage.rs:1403-1418 | every name ending in whitespace gives a path that the second pass shortens |
| `RemotePaths.RenderInjective` | src-tauri/src/cloud_storage.rs:1413-1417 | two canonical segment lists are written the same only if they are the same |
| `RemotePaths.JoinParentChild` | src-tauri/src/cloud_storage.rs:1420-1443 | parent joined with child gives a canonical path back if and only if its last two segments do not end in whitespace |
| `RemotePaths.KeptJoin` | src-tauri/src/cloud_storage.rs:1436-1443 | what a joined path means when read again: the name arrives trimmed at its end or vanishes |
| `RemotePaths.KeySegments` | src-tauri/src/cloud_storage.rs:1021-1025 | an object key has exactly the canonical segments, and is empty only for the root |
| `RemotePaths.RenameTargetApart` | src-tauri/src/cloud_storage.rs:541-563 | for all user strings, source and target of a rename are real keys and neither is a prefix of the other |
| `ObjectStore.LevelPartitions` | src-tauri/src/cloud_storage.rs:1045-1090 | a one-level listing partitions the subtree: each key below lies under exactly one entry |
| `ObjectStore.ObjectStoreDelete` | src-tauri/src/cloud_storage.rs:1156-1186 | success removes the object, or all of a folder and nothing else; a failure leaves each key as it was or gone as asked; without faults it succeeds exactly when something is there |
| `ObjectStore.ObjectStoreRename` | src-tauri/src/cloud_storage.rs:1190-1240 | success conserves content key by key; after every request each source's bytes are at source or target and no source is gone before all targets are written |
| `ObjectStore.MoveObject` | src-tauri/src/cloud_storage.rs:1205-1211 | the same for the branch that moves a single object |
| `ObjectStore.MoveAll` | src-tauri/src/cloud_storage.rs:1230-1239 | the copy loop followed by the delete loop, with the safety of every intermediate state |
| `ObjectStore.DeleteSources` | src-tauri/src/cloud_storage.rs:1236-1239 | the delete loop removes sources only, wherever it stops |
| `ObjectStore.RetryCompletesRename` | src-tauri/src/cloud_storage.rs:1188-1240 | renaming again from whatever a failed folder rename left arrives at the undisturbed result |
| `ObjectStore.RenameRoundTrip` | src-tauri/src/cloud_storage.rs:1188-1240 | renaming there and back restores every key when nothing was in the way |
| `ObjectStore.TargetsAndSourcesDiffer` | src-tauri/src/cloud_storage.rs:1212-1226 | no target of a rename is one of its sources, and the key mapping is a bijection |
| `ObjectStore.RenameCloudStoragePath` | src-tauri/src/cloud_storage.rs:541-563 | the whole command from user strings: rejection and no-op touch nothing; a move has all the guarantees above |
| `Downloads.StagePiece` | src-tauri/src/cloud_storage.rs:1328-1338 | one piece of the stream extends the staged prefix of the body, or ends the download without a trace at the destination |
| `Downloads.StageBody` | src-tauri/src/cloud_storage.rs:1326-1341 | for all chunkings, failures and cancellations: success stages exactly the body, anything else leaves no staging file; a complete stream succeeds |
| `Downloads.Finish` | src-tauri/src/cloud_storage.rs:1346-1359 | the last look at the flag and the rename: the whole object appears at once or nothing does; Fail mode never replaces a file |
| `Downloads.ReceiveFile` | src-tauri/src/cloud_storage.rs:1316-1361 | the destination only ever shows what others left there or, at the last step, the whole object; Fail mode never replaces a file |
| `Downloads.ObjectStoreDownload` | src-tauri/src/cloud_storage.rs:1299-1362 | success returns the object's size with its bytes at the destination and no cancel seen; failure leaves the destination to others; undisturbed, with a free spot, it succeeds |
| `TreeDownload.ObjectStoreList` | src-tauri/src/cloud_storage.rs:1045-1090 | lists each entry of the level once |
| `TreeDownload.DownloadObjectTree` | src-tauri/src/cloud_storage.rs:974-1017 | success: no blank folder was met at any level, total is the sum of sizes, all fetched bytes are on disk, nothing outside the destination changed, and the copy is complete and exact if and only if all names are tidy; undisturbed, a folder without blank ones that fits a free place downloads if each trimmed name is stored too |
| `TreeDownload.WalkGoesDeeper` | src-tauri/src/cloud_storage.rs:994-1003 | a step of the walk asks for the same remote folder again if and only if the name is blank, and otherwise for one exactly one segment deeper |
| `TreeDownload.DescentsEnd` | src-tauri/src/cloud_storage.rs:974-1003 | the chains of folders the walk follows are bounded if and only if no blank folder is reached, and then by the longest stored key |
| `TreeDownload.WalkDescends` | src-tauri/src/cloud_storage.rs:994-1003 | every subfolder uses up the segments left to the longest stored key or, only once a blank folder can come, the depth the local disk has left |
| `TreeDownload.UntidyDownload` | src-tauri/src/cloud_storage.rs:974-1017 | objects "d/a " and "d/a": the download of "d" succeeds, never fetches the first and is not exact |
| `TreeDownload.DownloadEntries` | src-tauri/src/cloud_storage.rs:990-1016 | the loop handles every listed entry once, each under its own local name |
| `TreeDownload.DownloadEntry` | src-tauri/src/cloud_storage.rs:990-1015 | one loop body: a subfolder or a staged file, under its own local name only |
| `TreeDownload.DownloadSubfolder` | src-tauri/src/cloud_storage.rs:994-1006 | the recursive call delivers the folder entry, or nothing but new directories and files below its local name |
| `TreeDownload.DownloadFile` | src-tauri/src/cloud_storage.rs:1008-1014 | the staged download delivers the file entry, total and log included |
| `TreeDownload.ExactMeansTidy` | src-tauri/src/cloud_storage.rs:994-1011 | an exact copy can only arise when no name below the folder ends in whitespace |
| `TreeDownload.AllHandled` | src-tauri/src/cloud_storage.rs:990-1017 | handling every listed entry once amounts to the whole subtree |
| `PortableUpdate.ExtractPortableUpdate` | src-tauri/src/app_updates.rs:651-759 | success: the staging folder holds exactly the archive's files, all under allowed roots, with the complete program layout and within the limits; every good archive is extracted when the disk refuses nothing |
| `PortableUpdate.StageEntries` | src-tauri/src/app_updates.rs:674-741 | the loop stages exactly the entries, which all passed the checks; for one-tree archives the directories are exactly those the entries take |
| `PortableUpdate.StageEntry` | src-tauri/src/app_updates.rs:705-740 | one archive entry staged over those before it, the later file winning |
| `PortableUpdate.PortableFolder.MoveOldOut` | src-tauri/src/app_updates.rs:809-815 | first loop: wherever it stops, old entries are in exactly one place and the list names those moved |
| `PortableUpdate.PortableFolder.MoveNewIn` | src-tauri/src/app_updates.rs:816-821 | second loop: new entries come in only where the old ones are out; missing staged entries throw |
| `PortableUpdate.PortableFolder.Swap` | src-tauri/src/app_updates.rs:808-834 | the try block keeps that at every step, and reaches the end when nothing is refused, nothing is missing and the marker shows |
| `PortableUpdate.PortableFolder.Recover` | src-tauri/src/app_updates.rs:835-849 | recovery restores the program folder exactly, absent entries staying absent, and restarts the old program if there was one |
| `PortableUpdate.PortableFolder.WaitReady` | src-tauri/src/app_updates.rs:825-834 | the wait succeeds exactly when the marker shows before exit and deadline |
| `PortableUpdate.PortableFolder.Handoff` | src-tauri/src/app_updates.rs:796-853 | all or nothing: committed means the four entries are the staged ones and the rest untouched, anything else means the folder as it was; it commits whenever no step fails |
| `PortableUpdate.OldEntryInOnePlace` | src-tauri/src/app_updates.rs:807-821 | at every forward step each old entry is intact in exactly one of program folder and rollback folder |
| `PortableUpdate.PreparePortableUpdate` | src-tauri/src/app_updates.rs:478-496 | whatever earlier attempts left, and wherever a removal or the creation fails: success stages exactly this archive beside an empty rollback folder; the program folder is never touched |
| `PortableUpdate.InstallPortableUpdate` | src-tauri/src/app_updates.rs:451-509 | prepare, extract and swap together, from any leftovers: either the archive's complete payload is installed or the folder is unchanged; a good archive is installed when no step fails |
| `ReadyHandshake.PendingWorkDir` | src-tauri/src/app_updates.rs:572-633 | picks the latest announced update directory, or none exactly when none qualifies |
| `ReadyHandshake.InvHolds` | src-tauri/src/app_updates.rs:552-633 | the handshake invariant at every point of every history of attempts |
| `ReadyHandshake.CommitNeedsOwnMark` | src-tauri/src/app_updates.rs:822-834 | an attempt commits only after the process it started marked this attempt's own directory, whatever older attempts left |
| `ReadyHandshake.OwnMarkLands` | src-tauri/src/app_updates.rs:552-633 | the started program's mark lands in this attempt's directory and lets it commit, if the version is digits and dots |
| `UpdateDownload.FilesAreWhole` | src-tauri/src/app_updates.rs:144-176 | under every interleaving the file is a prefix of one mirror's body, and whole once Ok |
| `UpdateDownload.SuccessIsOneMirror` | src-tauri/src/app_updates.rs:333-413 | Ok means the file is the whole, digest-matching body of one mirror |
| `UpdateDownload.CancelNotLost` | src-tauri/src/app_updates.rs:53-91 | for a cancel at any moment: once the task has a look at its flag ahead at some later moment, no continuation returns Ok and no file is left, unless the request was refused at once |
| `UpdateDownload.CancelWhileReading` | src-tauri/src/app_updates.rs:380-389 | a cancel that arrives while a read waits excludes Ok once the bytes come |
| `UpdateDownload.PrivateFromStart` | src-tauri/src/app_updates.rs:61-91 | over every run from a start without tasks no two jobs hold the same flag, so a cancel there reaches no other job |
| `UpdateDownload.CancelIsPrivate` | src-tauri/src/app_updates.rs:81-91 | a cancel reaches only the job it names |
| `UpdateDownload.CleanDownloadSucceeds` | src-tauri/src/app_updates.rs:354-413 | undisturbed, a sound first mirror's body arrives whole and returns Ok, however the network cuts it into reads of up to 64 KiB |
| `SessionCounts.IncrementActiveSessionCounts` | src/store.ts:1380-1392 | the loop equals the recursive count update |
| `SessionCounts.DecrementActiveSessionCounts` | src/store.ts:1394-1411 | the loop equals the recursive count update, dropping keys that reach zero |
| `SessionCounts.IncrementAdds` | src/store.ts:1380-1392 | incrementing is bag sum, and stored counts stay at least 1 |
| `SessionCounts.DecrementRemoves` | src/store.ts:1394-1411 | decrementing is saturating bag difference, and stored counts stay at least 1 |
| `SessionCounts.CountedIsMultiset` | src/store.ts:1369-1378 | counted states store exactly the multiset of URL connection ids held open |
| `SessionCounts.OpenCounted` | src/store.ts:2784-2820 | opening a tab keeps counts and open tabs in step |
| `SessionCounts.AddPaneActionCounted` | src/store.ts:3461-3580 | so does splitting or adding a pane |
| `SessionCounts.ClosePaneCounted` | src/store.ts:3581-3622 | so does closing a pane, by any of its branches |
| `SessionCounts.CloseChildCounted` | src/store.ts:3623-3693 | so does closing a child connection across all tabs |
| `SessionCounts.CloseTabCounted` | src/store.ts:2134-2154 | so does closing a tab |
| `SessionCounts.CloseWorkspaceCounted` | src/store.ts:1831-1871 | so does closing a workspace's tabs |
| `SessionCounts.CloseAllCounted` | src/store.ts:2118-2133 | closing all tabs leaves no count at all |
| `SessionCounts.OpenPlainCounted` | src/store.ts:2869-3095 | so does opening a browser, viewer or terminal, which holds no URL |
| `SessionCounts.OpenTmuxCounted` | src/store.ts:3901-3943 | so does adding a tmux session's pane |
| `SessionCounts.MoveTabCounted` | src/store.ts:2155-2160 | so does dragging a tab |
| `SessionCounts.CountedPreserved` | src/store.ts:1369-1411 | every action keeps the counts equal to what is open |
| `WorkspaceInvariant.InvPreserved` | src/store.ts:2605-2648 | every action keeps tab ids and pane ids unique and panes of the right kind in the right tabs |
| `WorkspaceNavigation.TabForLands` | src/store.ts:1457-1472 | the chosen tab is open in the workspace; none is chosen exactly when the workspace has no tab, or is the default one and the remembered tab is not open |
| `WorkspaceNavigation.SwitchAndBack` | src/store.ts:1806-1830 | switching to another workspace and back returns to the same tab |
| `WorkspaceNavigation.ActivateLands` | src/store.ts:2075-2104 | an activated tab is shown in its own workspace, and the workspace left behind remembers its tab |
| `WorkspaceNavigation.CloseTabLeaves` | src/store.ts:2134-2154 | closing a tab closes that tab only, and hands over within the active workspace |
| `WorkspaceNavigation.CloseWorkspaceLeaves` | src/store.ts:1831-1871 | closing a workspace closes its tabs and no others |
| `WorkspaceNavigation.ReorderedPlaces` | src/modules/workspace/tabOrder.ts:7-25 | a dragged tab takes the target's place and the others keep their order; across workspaces nothing moves |
| `StartupFullscreen.NestedCallStops` | src/store.ts:4330-4351 | the subscriber's own change gives the nested subscriber nothing to do |
| `StartupFullscreen.ConsumedCounts` | src/store.ts:2763-2783 | consuming disarms exactly the one pane and alters no other count |
| `StartupFullscreen.WorkspaceStore.Set` | src/store.ts:4330-4351 | a change followed by the subscriber, which terminates |
| `StartupFullscreen.WorkspaceStore.ConsumeRdpStartupFullscreen` | src/store.ts:2753-2783 | returns whether the pane was eligible, and disarms it eligible or not |
| `StartupFullscreen.ActionKeepsOnlyFocused` | src/store.ts:4330-4351 | after any action and its subscriber, an armed pane is the focused pane of the active tab of the active workspace |
| `StartupFullscreen.RunKeepsOk` | src/store.ts:4330-4351 | over every run: ids unique, counts conserved, only the focused pane armed |
| `StartupFullscreen.SpentForever` | src/store.ts:2763-2783 | a pane that has been disarmed is never armed again |
| `StartupFullscreen.AtMostOneGrant` | src/store.ts:2753-2783 | once consumed, a pane's intent is refused after every later run |
| `StartupFullscreen.OpenedPaneIsEligible` | src/store.ts:2714-2752 | a desktop opened for full screen is eligible once the store has settled |
| `QuickCommands.MoveQuickCommandTo` | src/store.ts:522-533 | the two splices move one command, and refuse exactly the out-of-range moves |
| `QuickCommands.MoveIsExact` | src/store.ts:520-533 | a move places the command, keeps the others' order, is a permutation, and is undone by the opposite move |
| `QuickCommands.QuickCommandStore.MutateAtTarget` | src/store.ts:537-568 | an edit at an explicit target, in memory and in the durable store |
| `QuickCommands.QuickCommandStore.EnsureQuickCommandsLoaded` | src/store.ts:3753-3776 | loads list and selection, dropping a stored selection of no bundle |
| `QuickCommands.QuickCommandStore.DeleteQuickCommandBundle` | src/store.ts:3871-3885 | removes the bundle and every selection of it, here and in the store |
| `QuickCommands.QuickCommandStore.SetConnectionQuickCommandBundle` | src/store.ts:3886-3900 | selects or deselects in memory and in the store |
| `QuickCommands.EditReachesSharers` | src/store.ts:480-568 | an edit at a connection's target is what it shows next, reaches exactly those with the same target, and redirects nobody |
| `QuickCommands.DeleteFallsBack` | src/store.ts:3871-3885 | users of a deleted bundle show their own lists again; all others are undisturbed |
| `QuickCommands.SelectShows` | src/store.ts:3886-3900 | a selection shows the bundle, or the own list for the id of none, and disturbs nobody else |
| `QuickCommands.RenameOnlyRenames` | src/store.ts:3858-3870 | a rename changes that bundle's name and nothing any connection shows |
| `QuickCommands.CreatedBundleShows` | src/store.ts:3842-3857 | a created bundle holds the given commands under new ids, found by its id, and nobody's list changes until it is selected |
| `QuickCommands.RemoveUndoesAdd` | src/store.ts:3791-3841 | removing the command just added restores the list in order |
| `QuickCommands.RunKeepsCoherent` | src/store.ts:3753-3900 | over every run of every action, in any order, memory and durable store agree on all that is loaded |
| `QuickCommands.RestartShowsTheSame` | src/store.ts:3753-3900 | after any run, a loaded connection shows what it would show after a restart |
| `QuickCommands.EarlyEditHidesSelection` | src/store.ts:554-567 | an edit before loading hides the stored selection, exactly when there is one of an existing bundle |
| `QuickCommands.EarlyRenameWipes` | src/store.ts:3858-3870 | a rename stores the renamed bundles if and only if they were loaded or there are none |
| `QuickCommands.EarlyDeleteWipes` | src/store.ts:3871-3885 | a delete keeps the other bundles if and only if they were loaded or there are no others |
| `QuickCommands.EarlyCallsLose` | src/store.ts:3791-3885 | from a fresh start over two stored bundles and one selection, an early rename, an early delete and an early edit each lose or hide what is stored |
| `CodexQuota.ScrubRedacts` | src-tauri/src/ai_coding_usage.rs:1703-1722 | redaction leaves no sensitive value at any depth, and changes a value only if it holds one |
| `CodexQuota.ScrubIdempotent` | src-tauri/src/ai_coding_usage.rs:1703-1722 | redacting twice is redacting once |
| `CodexQuota.PlainIsNotSensitive` | src-tauri/src/ai_coding_usage.rs:1724-1737 | a key without the patterns' telling letters is not sensitive, so no key that is read is ever redacted |
| `CodexQuota.BucketScrubbed` | src-tauri/src/ai_coding_usage.rs:1614-1637 | the same quota bucket is chosen from redacted JSON |
| `CodexQuota.BucketIsCodex` | src-tauri/src/ai_coding_usage.rs:1629-1636 | a bucket with a limit id has Codex's: no other quota is substituted |
| `CodexQuota.WindowMinutesScrubbed` | src-tauri/src/ai_coding_usage.rs:1639-1651 | a window's declared length survives redaction |
| `CodexQuota.NormalizeScrubbed` | src-tauri/src/ai_coding_usage.rs:1577-1651 | for every JSON value, the redacted form gives the same windows as the original |
| `CodexQuota.SlotsDiffer` | src-tauri/src/ai_coding_usage.rs:1591-1611 | one candidate window never fills both slots |
| `CodexQuota.SlotIsJustified` | src-tauri/src/ai_coding_usage.rs:1591-1611 | a filled slot declares its length or has the legacy name and declares none; an empty slot had no such candidate |
| `UsageTables.OneLine` | src-tauri/src/ai_coding_usage.rs:1697-1701 | a stored error is one line of at most 500 characters |
| `UsageTables.ExpireResetQuotaWindows` | src-tauri/src/ai_coding_usage.rs:578-590 | each window that has reset becomes unknown, the others stay |
| `UsageTables.UsageDb.SaveProviderUpdate` | src-tauri/src/ai_coding_usage.rs:433-509 | writes the account and replaces or removes the snapshot |
| `UsageTables.UsageDb.SaveProviderError` | src-tauri/src/ai_coding_usage.rs:511-535 | records a failure and keeps login and snapshot |
| `UsageTables.UsageDb.Disconnect` | src-tauri/src/ai_coding_usage.rs:171-192 | forgets both rows, and returns what a load would show |
| `UsageTables.UsageDb.LoadProviderState` | src-tauri/src/ai_coding_usage.rs:320-416 | shows the account with the windows of its snapshot, up to expiry |
| `UsageTables.ErrorsKeepLogin` | src-tauri/src/ai_coding_usage.rs:511-535 | over every run of failures and other providers' commands, label and snapshot stay together; the state stays connected if it was |
| `UsageTables.LoginIsFromLatestUpdate` | src-tauri/src/ai_coding_usage.rs:433-535 | over every run, label and snapshot are those of the latest update, and none is stored if that update had no quota |
| `UsageTables.DisconnectForgets` | src-tauri/src/ai_coding_usage.rs:171-192 | after a disconnect nobody's label or quota is stored or shown until the next update |
| `UsageTables.SnapshotHasAccount` | src-tauri/src/ai_coding_usage.rs:433-535 | over every run a snapshot implies an account |
| `UsageTables.LoadAfterSave` | src-tauri/src/ai_coding_usage.rs:384-396 | loading after a save shows the saved windows up to expiry, or none for Codex rows without JSON or from local sessions |
| `UsageTables.CacheIsRedacted` | src-tauri/src/ai_coding_usage.rs:477-506 | over every run each stored JSON is redacted |
| `ThumbnailCache.HitIsRendering` | src-tauri/src/file_thumbnail.rs:44-50 | a cache hit can only be the preview of the very version looked for |
| `ThumbnailCache.RunKeepsInv` | src-tauri/src/file_thumbnail.rs:33-66 | under every interleaving each slot holds a digest starting with its number, then that version's preview, within the limit |
| `ThumbnailCache.PreviewIsOfStartVersion` | src-tauri/src/file_thumbnail.rs:33-66 | every returned preview renders the version fingerprinted when the call began |
| `ThumbnailCache.SampleIsSound` | src-tauri/src/file_thumbnail.rs:33-66 | a world of two pictures with several versions meets what the results ask of digests |
| `ThumbnailCache.UndisturbedCall` | src-tauri/src/file_thumbnail.rs:33-66 | an undisturbed call agrees with rendering afresh whatever the cache holds |
| `IconTrim.FindBox` | src-tauri/src/app_launcher.rs:798-819 | the scan finds a tight box exactly when a pixel is visible |
| `IconTrim.TightIsSmallest` | src-tauri/src/app_launcher.rs:798-819 | a tight box lies in every box that covers all visible pixels |
| `IconTrim.CopyRows` | src-tauri/src/app_launcher.rs:821-828 | the row loop copies exactly the box |
| `IconTrim.CropPixel` | src-tauri/src/app_launcher.rs:821-828 | each output pixel equals the source pixel at the offset |
| `IconTrim.TrimIconTransparentPadding` | src-tauri/src/app_launcher.rs:789-831 | None exactly for bad sizes or no visible pixel, else the crop to the smallest box |
| `IconTrim.TrimAgain` | src-tauri/src/app_launcher.rs:789-831 | trimming a trimmed icon changes nothing |
| `WidgetImport.UniqueWidgetTitle` | src-tauri/src/dashboard_commands.rs:485-500 | ends for every finite set of taken titles with a title outside it, by the least counter that works |
| `WidgetImport.Pigeonhole` | src-tauri/src/dashboard_commands.rs:493-498 | no counter beyond the number of taken titles is tried |
| `WidgetImport.UniqueTitleDetermined` | src-tauri/src/dashboard_commands.rs:485-500 | the title is determined by the base and the taken set |
| `WidgetImport.IdsDiffer` | src-tauri/src/dashboard_commands.rs:463-465 | two entries of one import never share an id, whatever the clock says |
| `WidgetImport.WidgetTable.CreateCustomWidget` | src-tauri/src/dashboard_storage.rs:821-872 | adds one row, or fails exactly for a bad title, bad contents or a used id |
| `WidgetImport.WidgetTable.ImportWidgets` | src-tauri/src/dashboard_commands.rs:423-480 | success adds one row per entry; a failure adds those before the first entry that cannot be created |
| `WidgetImport.AddedAreApart` | src-tauri/src/dashboard_commands.rs:458-480 | imported titles and ids differ from each other and from all existing ones |
| `WidgetImport.StoppedExactly` | src-tauri/src/dashboard_commands.rs:458-480 | an import stops at an entry if and only if it is malformed, its id was there before the import, or the title chosen for it has no room |
| `WidgetImport.ChosenNeedsRoom` | src-tauri/src/dashboard_commands.rs:485-500 | the chosen title is valid if and only if the base leaves room for what is appended: nothing, the suffix, or the least free counter's digits |
| `WidgetImport.SuffixNeedsRoom` | src-tauri/src/dashboard_validation.rs:871-878 | the plain suffix gives a valid title if and only if the base leaves 11 bytes of the 120 |
| `WidgetImport.CounterNeedsRoom` | src-tauri/src/dashboard_validation.rs:871-878 | a counter gives a valid title if and only if the base leaves 12 bytes and its digits |

## Left out

Foreign calls, replaced by arbitrary success or failure or by parameters:

- HTTP, TLS, proxies, process creation, the shell's own commands, the clock, and the operating system's file calls.
- SHA-256, PNG, base64, image decoding, JSON text and SQLite: digests are 32 bytes and differ for the finitely many versions of pictures that occur, previews are a function of the file's version, JSON is a tree, the tables are maps. The Windows thumbnail cache counts as part of the decoder.
- The object-store crate: keys are segment lists, listing is by whole segments, a stream's pieces are cut off at the object's size; its refusal of odd characters in keys, the listing's size column and the truncated flag are not modelled.

What the models take for granted:

- Remote paths: a rename and a recursive download are the store's only client while they run; a recursive download is also the only writer on the local disk (a single staged download is not).
- Portable swap: a move either happens or does not; a move that happens and is reported as failed is not modelled. Recovery's own moves succeed. The log that recovery appends under `data/logs` is not part of the program folder's contents.
- Ready handshake: one program instance runs at a time, nobody else starts it during an attempt, and announcement times strictly increase.
- Update download: removing the downloaded file works whenever it is tried, while the code goes on if it does not; a job id is used for one download, each job has its own file, and a cancel command is one atomic step; the progress events are left out.
- Workspace: the layout tree is opaque, and the pane it hands the focus to is a parameter; tab and pane ids drawn at random or from the clock are new. `openChildConnection`, `openChildConnectionLayout`, `openSshPortForwardBrowser`, `openFileViewerPath` where it groups panes under their parent, stored layouts that hold web or desktop panes, and `markConnectionSessionStarted` and `markConnectionSessionEnded`, which count by other rules or rest on code outside this model, are not part of it. Nor are the actions that change only titles, icons, addresses shown, appearance, stored layouts or the Quick Command bar of what is open, such as `renameTab`, `updateWebviewTabMetadata` and `refreshOpenConnectionMetadata`.
- Quick Commands: bundle ids drawn at random are new, names arrive trimmed, and what the store wrote it reads back; `resetQuickCommandState`, which leaves the durable store alone, is not modelled.
- Usage tables: each command is one atomic step on the database, and its statements succeed. Numbers are reals, without rounding.
- Thumbnails: a changed or removed picture never returns to an earlier version, slots are replaced atomically and start out empty; the file-name and metadata checks only decide whether a call begins.
- Widgets: checks on a widget's body and schema are one flag per entry.

Contracts narrower than the code's range:

- FindBox: buffers stay under 4 GiB, where the 32-bit index does not wrap; so do CopyRows and TrimIconTransparentPadding.
- UpdateDownload.CancelNotLost: an earlier file of the same name survives when the request is refused before any download begins, and a cancel after the task's last look at its flag changes nothing, as in the code.

Not modelled at all: upload, and the parts that format text, look values up or hand on to foreign calls: tmux session names, tray, favicons, currency, diagnostics, settings defaults and the React components.
