# MMR services, D-Pad encoding and item taxonomy in Dafny

This project models five pieces of the Majora's Mask Randomizer (MMR) repository and proves
properties of them:

- **MMRService** (the Discord bot's seed service): `GenerateSeed` runs the MMR command-line
  generator until it exits with code 0 and leaves its three output files. After each failed
  attempt it perturbs the seed by a wrapping 32-bit add of a random offset. `GetSeed` takes a
  single-permit semaphore and asks random.org for `num` integers, each shifted by 10⁹. If the
  request fails it falls back to `System.Random`. Also covered: the spoiler-log path, the output
  paths, and the argument string of the generator.
- **AsyncGenerationService.GenerateAsyncSheet**: the monthly rollover, in this order:
  - lock the latest sheet and publish its spoiler logs;
  - fetch ten seeds and generate a set per seed;
  - create the month's Drive folder and upload each set's patch, hash icon and log;
  - copy the template sheet, fill it in and make it public;
  - save the new sheet's record.

  Every external call is an `Effect` in a trace. The replies come from oracles indexed by the
  call's position, and so does whether the call throws.
- **AsyncSheetRepository.GetLatest**: the record with the latest `DateCreated`, over a table
  that `Save` appends to with an auto-increment id.
- **DPad** (the ROM's D-Pad configuration): the item values, the pad presets, `InUse`, and the
  22-byte big-endian structure `ToStruct`/`ToBytes` build. A decoder is proved to invert that
  structure.
- **ItemExtensions**: the progressive-upgrade names, the location name and its entrance rewrite
  `Entrance<A>From<B>` → `Exit<B>To<A>`, the ordinal range tests, and the attribute-based
  classifications.

Files:

- `wrappers.dfy`: `Option` and `Result`.
- `int32.dfy`: 32-bit integers, `int.ToString` and `int.Parse`.
- `strings.dfy`: `IsNullOrWhiteSpace` and `Split` with `RemoveEmptyEntries`.
- `paths.dfy`: `Path.Combine`, `ChangeExtension` and `GetFileName` with `/` as separator.
- `mmr_service.dfy`, `async_sheet_repository.dfy`, `async_generation.dfy` (the plan of calls and
  its properties), `async_generation_service.dfy` (the service object), `dpad.dfy` and
  `item_extensions.dfy`.

Imperative code keeps its form:

- `GenerateSeed`'s retry loop, `GetSeed`'s lock discipline and the rollover's loops are methods
  with loop invariants. Each is proved against a specification function (`Retry`, `FetchResult`,
  `Plan`/`Run`).
- `ToStruct` and `ToBytes` fill arrays.
- `From` is a linear search with early return.

The rest is functions and lemmas.

## Model

| member | source | states |
|---|---|---|
| MMRService.OutputPathShape | MMR.DiscordBot/Services/MMRService.cs:39-42 | a file name combined under `<cli>/output` is the output directory followed by the name |
| MMRService.ArtifactPathsShape | MMR.DiscordBot/Services/MMRService.cs:85-87 | the patch, hash icon and spoiler log of stem `s` are `<cli>/output/s.mmr`, `s.png` (the patch path's extension changed) and `s_SpoilerLog.txt` |
| MMRService.ArtifactPathsDistinct | MMR.DiscordBot/Services/MMRService.cs:85-88 | the three files whose existence is checked are three different paths |
| MMRService.ArtifactPathsInjective | MMR.DiscordBot/Services/MMRService.cs:85 | different stems give different patch paths |
| MMRService.ArgumentsOutput | MMR.DiscordBot/Services/MMRService.cs:113-116 | the argument string starts with `<cli>/MMR.CLI.dll -output "output/<stem>.z64" -seed ` |
| MMRService.ArgumentsSettings | MMR.DiscordBot/Services/MMRService.cs:116-120 | ` -settings "<path>"` is appended exactly when the settings path is not null or white space |
| MMRService.ArgumentsDetermineSeed | MMR.DiscordBot/Services/MMRService.cs:116 | two launches with the same stem and settings but different seeds get different argument strings |
| MMRService.NextInRange | MMR.DiscordBot/Services/MMRService.cs:105 | `Random.Next(lo, hi)` lies in [lo, hi), and is the raw draw when that is already in range |
| MMRService.RetryCorrect | MMR.DiscordBot/Services/MMRService.cs:75-109 | a retry run launches once per seed tried. It ends with the three paths only after an attempt that exited 0 and left all three files. A run that has not succeeded has used all its attempts, one random draw per failed attempt |
| MMRService.RetryFailuresBefore | MMR.DiscordBot/Services/MMRService.cs:78-106 | every attempt before the last one failed: non-zero exit, a start failure, or a missing file |
| MMRService.RetrySeeds | MMR.DiscordBot/Services/MMRService.cs:103-106 | the first attempt uses the given seed; each later seed is the previous one plus the next random offset, wrapping at 32 bits |
| MMRService.RetryFuelMonotone | MMR.DiscordBot/Services/MMRService.cs:78-107 | once a run succeeds within n attempts, allowing more attempts changes nothing |
| MMRService.RetryMayRepeatSeed | MMR.DiscordBot/Services/MMRService.cs:105 | an offset of 0 is possible, so a failed seed can be tried again unchanged |
| MMRService.ShiftNeverOverflows | MMR.DiscordBot/Services/MMRService.cs:143 | adding 10⁹ to a value in [-10⁹, 10⁹] never wraps and lands in [0, 2·10⁹] |
| MMRService.ParseLinesOfValues | MMR.DiscordBot/Services/MMRService.cs:142-143 | a response body holding in-range integers joined by line feeds, with or without a final line feed, is split back into exactly those lines, and enumerating them yields the integers each shifted by 10⁹ |
| MMRService.ParseLinesCount | MMR.DiscordBot/Services/MMRService.cs:143 | parsing yields one value per non-empty line |
| MMRService.ParseLinesOk | MMR.DiscordBot/Services/MMRService.cs:143 | enumeration succeeds iff every line is accepted by `int.Parse`; the shift by 10⁹ never fails, an out-of-range sum wraps silently |
| MMRService.FetchNeverParses | MMR.DiscordBot/Services/MMRService.cs:140-148 | GetSeed itself never throws a parse error, because the lines are parsed lazily. It falls back to `num` local draws only on an `HttpRequestException` |
| MMRService.LocalValuesBounds | MMR.DiscordBot/Services/MMRService.cs:147 | the fallback yields `num` values, each in [0, int.MaxValue) |
| MMRService.RemoteCountNeedNotMatch | MMR.DiscordBot/Services/MMRService.cs:142-143 | the number of remote seeds is the number of non-empty lines, which need not be `num` |
| MMRService.MMRService.GenerateSeed | MMR.DiscordBot/Services/MMRService.cs:75-109 | the result, the launches and the draws are those of `Retry` from the service's counters |
| MMRService.MMRService.RetryLoop | MMR.DiscordBot/Services/MMRService.cs:77-107 | the `while (!success)` loop computes `Retry`, one launch and at most one draw per pass |
| MMRService.MMRService.GetSeed | MMR.DiscordBot/Services/MMRService.cs:136-154 | the lock log gains acquire, request, release (so the permit is returned on every path), one request is made, and the result is `FetchResult` of the response |
| MMRService.MMRService.ToList | MMR.DiscordBot/Services/MMRService.cs:143-147 | enumerating the lazy result parses the remote lines, or makes `count` draws of `Random.Next()` |
| MMRService.SerializedAppend | MMR.DiscordBot/Services/MMRService.cs:138-152 | a GetSeed call keeps the lock log serialized: acquires and releases alternate and requests happen only while the lock is held |
| Int32.WrapAdd | MMR.DiscordBot/Services/MMRService.cs:105 | `seed += offset` is addition modulo 2³², and plain addition when in range |
| Int32.ParseToString | MMR.DiscordBot/Services/MMRService.cs:143 | `int.Parse` reads back what `int.ToString` writes |
| Int32.ToStringInjective | MMR.DiscordBot/Services/MMRService.cs:116 | distinct seeds are written as distinct decimal strings |
| Strings.SplitNonEmptyKeepsText | MMR.DiscordBot/Services/MMRService.cs:143 | splitting with `RemoveEmptyEntries` loses only the separators |
| Strings.SplitJoin | MMR.DiscordBot/Services/MMRService.cs:143 | splitting the `string.Join` of non-empty, separator-free pieces gives back exactly those pieces |
| Strings.SplitJoinTerminated | MMR.DiscordBot/Services/MMRService.cs:143 | the same holds when every piece, the last included, is followed by the separator |
| Paths.FileNameOfJoin | MMR.DiscordBot/Services/AsyncGenerationService.cs:138 | the file name of `dir/name` is `name` |
| MMRService.ArtifactFileNames | MMR.DiscordBot/Services/MMRService.cs:85-87 | for a separator-free stem `s`, the file names of the three paths are `s.mmr`, `s.png` and `s_SpoilerLog.txt` |
| MMRService.ArtifactPathsDiffer | MMR.DiscordBot/Services/MMRService.cs:85 | different separator-free stems give different patch paths |
| Paths.ChangeExtensionReplaces | MMR.DiscordBot/Services/MMRService.cs:86 | `ChangeExtension` replaces only the last extension |
| AsyncSheetRepository.GetLatest | MMR.DiscordBot/Data/Repositories/AsyncSheetRepository.cs:14-20 | no record iff the table is empty; otherwise a record of the table whose `DateCreated` is not before any other's |
| AsyncSheetRepository.NextId | MMR.DiscordBot/Data/Entities/AsyncSheetEntity.cs:9-10 | the auto-increment id is positive and above every id in the table |
| AsyncSheetRepository.Save | MMR.DiscordBot/Services/AsyncGenerationService.cs:249-254 | the table gains exactly one row at the end, with the given sheet, date and folder and a fresh id, and keeps every old row |
| AsyncSheetRepository.SaveKeepsIdsIncreasing | MMR.DiscordBot/Data/Entities/AsyncSheetEntity.cs:9-10 | appending keeps the ids strictly increasing |
| AsyncSheetRepository.SaveNewerIsLatest | MMR.DiscordBot/Data/Repositories/AsyncSheetRepository.cs:18 | a saved record newer than every other is what `GetLatest` returns next |
| AsyncSheetRepository.LatestAfterSave | MMR.DiscordBot/Data/Repositories/AsyncSheetRepository.cs:18 | after a save, the latest record is the new one or the previous latest |
| AsyncGeneration.StemInjective | MMR.DiscordBot/Services/AsyncGenerationService.cs:111 | the stems `<yyyy-MM>_<i:00>` of different sets differ |
| AsyncGeneration.EditUrlInjective | MMR.DiscordBot/Services/AsyncGenerationService.cs:256 | the returned link determines the new sheet's id |
| AsyncGeneration.PlanFollowsLayout | MMR.DiscordBot/Services/AsyncGenerationService.cs:56-256 | every call of the fault-free run is the call the stage layout puts at its position |
| AsyncGeneration.LocksOldSheetOnce | MMR.DiscordBot/Services/AsyncGenerationService.cs:58-68 | the run reads the latest record first and makes the old sheet read-only as its first write; no other permission update is made |
| AsyncGeneration.SharesOldLogs | MMR.DiscordBot/Services/AsyncGenerationService.cs:70-100 | the old folder's logs are listed, each listed log gets one reader permission in listing order, then their open links are written to the old sheet |
| AsyncGeneration.GeneratesEachSeedOnce | MMR.DiscordBot/Services/AsyncGenerationService.cs:102-113 | ten seeds are fetched once; set i is reported and generated from seed i with no settings file; there is no other GenerateSeed |
| AsyncGeneration.ReportsOldStage | MMR.DiscordBot/Services/AsyncGenerationService.cs:61-115 | the progress reports of the old sheet's stage and of the folder's creation come in their places |
| AsyncGeneration.ReportsNewSheet | MMR.DiscordBot/Services/AsyncGenerationService.cs:183-239 | the reports "creating", "updating" and "making public" come before the new sheet's copy, batch update and permission |
| AsyncGeneration.UploadsEachSet | MMR.DiscordBot/Services/AsyncGenerationService.cs:129-181 | each set is reported once, then uploaded in patch, icon, log order into the month's folder; the patch and icon each get a reader permission right after their upload |
| AsyncGeneration.UploadsOnlyInBlocks | MMR.DiscordBot/Services/AsyncGenerationService.cs:128-181 | no upload happens outside the per-set blocks |
| AsyncGeneration.UploadNames | MMR.DiscordBot/Services/AsyncGenerationService.cs:104-174 | for a `yyyy-MM` month text (no `/`), when GenerateSeed returns the files it writes for stem `<yyyy-MM>_<k:00>`, set k's patch, icon and log take the Drive names `<stem>.mmr`, `<stem>.png` and `<stem>_SpoilerLog.txt` |
| AsyncGeneration.UploadedPatchesDistinct | MMR.DiscordBot/Services/AsyncGenerationService.cs:104-138 | under the same assumption, two different sets upload different patch paths under different Drive names |
| AsyncGeneration.BuildsNewSheet | MMR.DiscordBot/Services/AsyncGenerationService.cs:115-254 | the folder is created, the template copied, and the copy filled with the date and the icon and patch ids. It is then made writable by anyone, and the save of the new sheet and folder is the run's last call |
| AsyncGeneration.SheetRowsMatchUploads | MMR.DiscordBot/Services/AsyncGenerationService.cs:126-237 | row k of the sheet's patches and icons is the id of set k's patch and icon upload, and there are as many rows as sets |
| AsyncGeneration.NoWriteBeforeLock | MMR.DiscordBot/Services/AsyncGenerationService.cs:58-68 | whatever fails, nothing is written before the old sheet is locked |
| AsyncGeneration.SavedIffNoFault | MMR.DiscordBot/Services/AsyncGenerationService.cs:249-254 | the save is made (and succeeds) iff no call of the run throws |
| AsyncGeneration.ExecutedAtFault | MMR.DiscordBot/Services/AsyncGenerationService.cs:56-256 | a run whose first failing call is at f leaves exactly the plan up to and including f |
| AsyncGeneration.PlanInStages | MMR.DiscordBot/Services/AsyncGenerationService.cs:56-256 | without a latest record the run ends after the read; with one, each stage's calls are in place |
| AsyncGenerationService.RunTrace | MMR.DiscordBot/Services/AsyncGenerationService.cs:56-58 | a run adds to the trace, reads the latest record first, and leaves the plan cut after its first fault |
| AsyncGenerationService.RunSucceedsIff | MMR.DiscordBot/Services/AsyncGenerationService.cs:56-256 | the link is returned iff the table has a latest sheet and no call throws |
| AsyncGenerationService.RunNoLatestIff | MMR.DiscordBot/Services/AsyncGenerationService.cs:58-59 | the missing-sheet abort happens iff the table is empty and the read itself succeeds |
| AsyncGenerationService.RunFailsAtLastCall | MMR.DiscordBot/Services/AsyncGenerationService.cs:56-256 | a call that throws is the run's last call, and every earlier call of the run succeeded |
| AsyncGenerationService.RunSavesLinkedSheet | MMR.DiscordBot/Services/AsyncGenerationService.cs:249-256 | a failed run leaves the table unchanged; a successful one appends one row, dated now, whose sheet is the one the returned link edits |
| AsyncGenerationService.NextRunFindsNewSheet | MMR.DiscordBot/Services/AsyncGenerationService.cs:249-256 | after a successful run at a time later than every record, the next `GetLatest` finds the sheet just linked |
| AsyncGenerationService.RunLocksBeforeWriting | MMR.DiscordBot/Services/AsyncGenerationService.cs:58-68 | in every run from a non-empty table, the first write is the old sheet's lock |
| AsyncGenerationService.Service.GenerateAsyncSheet | MMR.DiscordBot/Services/AsyncGenerationService.cs:56-256 | the trace, table and result the method leaves are `Run` of the trace and table it started with |
| AsyncGenerationService.Service.RunPlan | MMR.DiscordBot/Services/AsyncGenerationService.cs:58-247 | the calls made follow the plan; it stops at the first call that throws; when all succeed it holds the new sheet's and folder's ids |
| AsyncGenerationService.Service.Call | MMR.DiscordBot/Services/AsyncGenerationService.cs:56-256 | one external call: it is appended to the trace, and `ok` says whether it returned |
| AsyncGenerationService.Service.LockOldSheet | MMR.DiscordBot/Services/AsyncGenerationService.cs:61-77 | lock, report and list the old logs, returning the listing the oracle gives |
| AsyncGenerationService.Service.PublishOldLogs | MMR.DiscordBot/Services/AsyncGenerationService.cs:78-100 | the `foreach` grants one permission per listed log, then the links are written |
| AsyncGenerationService.Service.GenerateSets | MMR.DiscordBot/Services/AsyncGenerationService.cs:103-113 | the `for` loop generates one set per fetched seed; `filenames` lines up index for index with the generated sets |
| AsyncGenerationService.Service.GenerateSet | MMR.DiscordBot/Services/AsyncGenerationService.cs:108-112 | one report and one GenerateSeed, returning the files the oracle gives |
| AsyncGenerationService.Service.CreateMonthFolder | MMR.DiscordBot/Services/AsyncGenerationService.cs:115-125 | one report and the folder's creation, returning its id |
| AsyncGenerationService.Service.UploadSets | MMR.DiscordBot/Services/AsyncGenerationService.cs:128-181 | the `foreach` uploads every set; `patchFileIds` and `hashIconIds` hold the upload ids in set order |
| AsyncGenerationService.Service.UploadSet | MMR.DiscordBot/Services/AsyncGenerationService.cs:131-179 | one set's six calls, returning its patch and icon ids |
| AsyncGenerationService.Service.CopyTemplate | MMR.DiscordBot/Services/AsyncGenerationService.cs:183-190 | one report and the template's copy, returning the new sheet's id |
| AsyncGenerationService.Service.FillNewSheet | MMR.DiscordBot/Services/AsyncGenerationService.cs:192-247 | the batch update with the collected ids, the report and the public permission |
| DPad.StateBytesDecode | MMR.Randomizer/Asm/DPad.cs:35-40 | a state is written as its ordinal (Disabled 0, Enabled 1, Defaults 2), and reading a byte gives back the state iff the byte is its ordinal |
| DPad.DisplayBytesDecode | MMR.Randomizer/Asm/DPad.cs:45-50 | the same for the display position (None 0, Left 1, Right 2) |
| DPad.AllValuesDistinct | MMR.Randomizer/Asm/DPad.cs:181-192 | the six items of `All()` have pairwise distinct values |
| DPad.AllListsNamedValues | MMR.Randomizer/Asm/DPad.cs:11-19 | a value is listed by `All()` iff it is one of the six named `DPadValue` members |
| DPad.ItemEqualsOnAll | MMR.Randomizer/Asm/DPad.cs:199-206 | on the listed items, equality by value is identity |
| DPad.From | MMR.Randomizer/Asm/DPad.cs:213-220 | an item is found iff the value is a named member, and it is the item `All()` lists for that value; any other byte gives null |
| DPad.FromValues | MMR.Randomizer/Asm/DPad.cs:325-328 | the pad is built from the first four values; fewer than four is an error |
| DPad.PadEqualsIsEquality | MMR.Randomizer/Asm/DPad.cs:335-341 | element-wise equality of the values holds iff the pads are equal |
| DPad.PadEqualsBySlot | MMR.Randomizer/Asm/DPad.cs:320-341 | two pads built from slots are equal iff each of the four slots is |
| DPad.PresetBytes | MMR.Randomizer/Asm/DPad.cs:303-318 | `Default` is [0x32, 0x34, 0x00, 0x33], `VirtualConsole` is [0xFF, 0x34, 0x33, 0x32], and they differ |
| DPad.InUse | MMR.Randomizer/Asm/DPad.cs:118-128 | one flag per value; a slot is in use iff the D-Pad is not disabled and the slot is not empty |
| DPad.DefaultsUsesLikeEnabled | MMR.Randomizer/Asm/DPad.cs:118-128 | the Defaults state uses the slots exactly as Enabled does |
| DPad.DefaultConfigUsesAllSlots | MMR.Randomizer/Asm/DPad.cs:103-106 | `new DPadConfig()` uses all four slots |
| DPad.StructOf | MMR.Randomizer/Asm/DPad.cs:135-147 | the structure is built iff the pad has at most 16 values (otherwise `CopyTo` throws) |
| DPad.StructItems | MMR.Randomizer/Asm/DPad.cs:137-138 | the items are 16 bytes, the pad's bytes first and zeros after |
| DPad.ToStruct | MMR.Randomizer/Asm/DPad.cs:135-147 | the zeroed 16-byte array with the pad copied in, and the state and display as bytes: `StructOf` |
| DPad.BigEndian32RoundTrip | MMR.Randomizer/Asm/DPad.cs:71 | reading the four bytes written for a `uint` gives it back |
| DPad.ReadBigEndian32RoundTrip | MMR.Randomizer/Asm/DPad.cs:71 | writing the `uint` that four bytes stand for gives the bytes back |
| DPad.ToBytes | MMR.Randomizer/Asm/DPad.cs:66-80 | a new array holding the version as four big-endian bytes, the items, the state and the display: `Encode`, which the round-trip lemmas below invert |
| DPad.DecodeEncode | MMR.Randomizer/Asm/DPad.cs:66-80 | reading a u32 big-endian, 16 bytes, a byte and a byte recovers a structure with 16 items from its bytes |
| DPad.EncodeDecode | MMR.Randomizer/Asm/DPad.cs:66-80 | every 22-byte string decodes, and encoding the result gives it back |
| DPad.EncodeInjective | MMR.Randomizer/Asm/DPad.cs:66-80 | structures with equally many items are written the same only if they are equal |
| DPad.ConfigRoundTrip | MMR.Randomizer/Asm/DPad.cs:135-147 | a 4-slot configuration is written as 22 bytes, from which its version, pad, state and display are read back |
| DPad.DefaultConfigBytes | MMR.Randomizer/Asm/DPad.cs:103-106 | the default configuration is written as the version, then 0x32 0x34 0x00 0x33, twelve zeros, then 1 and 1 |
| ItemExtensions.ProgressiveOffKeepsName | MMR.Randomizer/Extensions/ItemExtensions.cs:30-56 | with progressive upgrades off, every item keeps its `Name` |
| ItemExtensions.ProgressiveOnIsGroupLookup | MMR.Randomizer/Extensions/ItemExtensions.cs:32-55 | with them on, an item gets the name of the first of the five upgrade groups that holds it, and falls back to `Name` |
| ItemExtensions.FirstGroupNameFinds | MMR.Randomizer/Extensions/ItemExtensions.cs:34-53 | an item in group k and no earlier group gets group k's name |
| ItemExtensions.ProgressiveOnNamesOwnGroup | MMR.Randomizer/Extensions/ItemExtensions.cs:34-53 | when the thirteen upgrade items are distinct members, each is named "Sword Upgrade", "Magic Power Upgrade", "Wallet Upgrade", "Bomb Bag Upgrade" or "Bow Upgrade" after its own group |
| ItemExtensions.LastFromIn | MMR.Randomizer/Extensions/ItemExtensions.cs:58 | the last "From" in a range, as the pattern's greedy first group finds it |
| ItemExtensions.FirstMatch | MMR.Randomizer/Extensions/ItemExtensions.cs:58 | the leftmost position where `Entrance(.+)From(.+)` matches |
| ItemExtensions.ExitNameIffPattern | MMR.Randomizer/Extensions/ItemExtensions.cs:58-76 | a name is rewritten iff it ends with `Entrance<A>From<B>` with A and B non-empty, and the new name is `Exit<B>To<A>` for one such split |
| ItemExtensions.LocationSources | MMR.Randomizer/Extensions/ItemExtensions.cs:59-80 | the `LocationName` attribute wins unchanged; otherwise the member name is used, rewritten only for entrances whose name has the pattern's form |
| ItemExtensions.RangesAreIntervals | MMR.Randomizer/Extensions/ItemExtensions.cs:207-254 | `IsSong` and `IsBottleCatchContent` are closed ordinal ranges: whatever lies between two members is a member, and each range contains its ends when not empty |
| ItemExtensions.SameTypeIsEquivalence | MMR.Randomizer/Extensions/ItemExtensions.cs:256-260 | `IsSameType` is reflexive, symmetric and transitive |
| ItemExtensions.FakeIsNotEntrance | MMR.Randomizer/Extensions/ItemExtensions.cs:132-135 | a fake item is never an entrance, and a named item is never fake |
| ItemExtensions.ImplementedIffSpawnAndExit | MMR.Randomizer/Extensions/ItemExtensions.cs:168-195 | an entrance is implemented iff its spawn id can be read and it has at least one exit, exit address or exit cutscene |
| ItemExtensions.DungeonEntrances | MMR.Randomizer/Extensions/ItemExtensions.cs:137-151 | null without the attribute; otherwise the entrance, followed by the pair exactly when it has one |

## Left out

- Google Drive and Sheets, OAuth and `credentials.json` (AsyncGenerationService.cs:31-53, every
  `ExecuteAsync`/`UploadAsync`): network I/O. Each call is an `Effect` whose reply comes from an
  oracle; the fixed request parts (query, ranges, mime types, parent folder id) are rendering
  functions. The Drive name of an upload is `DriveName`, the file name of its path.
- The generator process, its stdout/stderr tracing and `File.Exists` (MMRService.cs:111-134, 88):
  an oracle `process(launch#, launch)` that fails to start or exits with a code and a set of files.
- `HttpClient`, the 10-second timeout and the user agent: an oracle of responses. A timeout is a
  `TaskCanceledException`, which the `catch` at MMRService.cs:145 does not catch; it is modelled
  as an error that escapes `GetSeed` while the lock is still released.
- `SemaphoreSlim`: a boolean flag plus a log of acquire/request/release events, in sequential code;
  concurrent callers are not modelled.
- `System.Random`: the k-th draw is an oracle value; `Next(lo, hi)` maps it into its range.
- The constructor's environment-variable and directory checks (MMRService.cs:21-37),
  `GetSettingsPath` and `GetSettingsPaths` (44-73): file-system I/O and `FileUtils.MakeFilenameValid`,
  which is not part of this model.
- Date formatting (`yyyy-MM`, `MMMM yyyy`, `yyyy/MM/dd`) and `DateTime.UtcNow`: the source reads the
  clock four times (AsyncGenerationService.cs:104, 187, 204, 252). Each read is its own `Clock` field
  (`month`, `monthTitle`, `day`, `now`), and nothing ties them to one instant.
- MMRService.MMRService.GenerateSeed: the source loops until success. The model takes a bound
  `maxAttempts` on the number of launches; `None` means the bound was reached before any
  attempt succeeded.
- Reflection (`GetAttribute`, `HasAttribute`, `GetAttributes`) and the `Item` enum: a `Catalog`
  gives each item's attributes and the ordinals of the named members. The remaining one-line
  lookups (`GetItemIndex`, `GetBottleItemIndices`, `Region`, `Entrance`, `ShopTexts`, the hints,
  `IsRepeatable` and the other `Has`-tests, `Type`, `Pair`, `ChestType`, `ExclusiveItemMessage`)
  are reads of that catalog and state nothing beyond it.
- `ExclusiveItemEntry`: field copying with `short` casts from attributes.
- ItemExtensions.FirstMatch: the regex engine is not modelled, only the split this one pattern
  makes. `.` is taken to match every character, because enum member names contain no line feed.
- `DPadPreset` and the `ToString`/`GetHashCode` overrides: naming only. `DPadItem.Equals` and
  `DPad.Equals` are modelled for arguments of their own type; the `obj is ...` test is C# typing.
- DPad.ToStruct: `Items` is a value (`seq`), so aliasing of the array the structure holds is not
  modelled; a `DPad` whose `Values` is null (the struct's default) is not modelled either.
- The behaviour of OrmLite's `SingleAsync` on an empty table, and which record wins a
  `DateCreated` tie: not fixed by the code shown. `GetLatest` returns some latest record. An
  empty table is the `NoLatestSheet` abort, standing for the null dereference at
  AsyncGenerationService.cs:59 (the read has been made, nothing else has).
- `AsyncSheetEntity`'s `DateCreated` is an integer instant; its `ulong` id is unbounded.

## Notes on the code

- Seeds from random.org: `GetSeed(num)` yields one value per non-empty line of the response, which
  need not be `num` (`MMRService.RemoteCountNeedNotMatch`).
- A retry offset of 0 is possible, so a failed seed may be retried unchanged
  (`MMRService.RetryMayRepeatSeed`).
- A request timeout is not caught by the fallback and propagates to the caller.
- The shift by 10⁹ is unchecked `int` addition: a line such as `2000000000`, which `int.Parse`
  accepts, wraps to -1294967296 instead of failing (`MMRService.ParseLinesOk`).
