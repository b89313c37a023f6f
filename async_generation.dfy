/**
 * The monthly rollover of AsyncGenerationService.GenerateAsyncSheet, as the sequence of
 * external calls it makes: the read of the latest sheet record, the progress reports, the
 * Drive and Sheets requests, the seed generation and the final Save.
 *
 * Every external call is one `Effect`, carrying the arguments that vary from run to run; the
 * fixed parts of each request (query strings, ranges, mime types, URLs) are given by the
 * rendering functions below. What the outside world answers is fixed by an `Environment` of
 * oracles indexed by the call's position in the trace: the id a Drive call returns, the files
 * a listing returns, the seeds GetSeed yields, the files GenerateSeed returns, and whether the
 * call throws. `Plan` is the trace of a run in which no call throws; `Executed` cuts a plan
 * off after its first failing call, which is what a real run leaves behind.
 */
module AsyncGeneration {
  import opened Wrappers
  import opened Int32
  import Paths
  import MMRService
  import AsyncSheetRepository

  /** The role a Drive permission grants. */
  datatype Role = Reader | Writer

  /** Which file of a set an upload carries. */
  datatype FileKind = Patch | HashIcon | SpoilerLog

  /**
   * The progress reports. `Generating(i, count)` reports set i (0-based) of count;
   * `Uploading(progress, count)` the progress-th set (1-based).
   */
  datatype Message =
    | Locking | PublicLogs | PublishingLogs | Generating(index: nat, count: nat) | CreatingFolder
    | Uploading(progress: nat, count: nat) | CreatingSheet | UpdatingSheet | PublicSheet

  /** One external call. */
  datatype Effect =
    | ReadLatest                                          // AsyncSheetRepository.GetLatest
    | Report(message: Message)                            // reportProgress(Text(message))
    | UpdatePermission(fileId: string, role: Role)        // Permissions.Update of "anyoneWithLink"
    | ListFiles(folderId: string)                         // Files.List with LogQuery(folderId), "name_natural"
    | CreatePermission(fileId: string, role: Role)        // Permissions.Create: anyone, not discoverable
    | UpdateValues(sheetId: string, logIds: seq<string>)  // "SpoilerLogs" column := OpenUrls(logIds)
    | FetchSeeds(num: int32)                              // MMRService.GetSeed(num).ToList()
    | GenerateSeed(month: string, index: nat, settingsPath: Option<string>, seed: int32) // file name Stem(month, index)
    | CreateFolder(name: string)                          // a folder under SeedsParentFolderId
    | Upload(path: string, folderId: string, kind: FileKind) // named DriveName, in folder folderId
    | CopyFile(monthTitle: string)                        // copy of TemplateSheetId named SheetName(monthTitle)
    | BatchUpdate(sheetId: string, date: string, iconIds: seq<string>, patchIds: seq<string>)
    | SaveSheet(sheetId: string, dateCreated: int, folderId: string)

  /**
   * The outside world, indexed by trace position: `fails(k)` when the call at position k
   * throws, `idAt(k)` the id in its reply, `listingAt(k)` the file ids a listing returns,
   * `seedsAt(k)` the values `GetSeed(10).ToList()` yields, `pathsAt(k)` the files a
   * GenerateSeed call returns.
   */
  datatype Environment = Environment(fails: nat -> bool, idAt: nat -> string, listingAt: nat -> seq<string>,
                                     seedsAt: nat -> seq<int32>, pathsAt: nat -> MMRService.SeedPaths)

  /** The readings of DateTime.UtcNow, already formatted: `yyyy-MM`, `MMMM yyyy`, `yyyy/MM/dd`, and the stored DateCreated. */
  datatype Clock = Clock(month: string, monthTitle: string, day: string, now: int)

  /** Calls that change something outside the process (Drive, Sheets or the database). */
  predicate IsWrite(e: Effect) {
    e.UpdatePermission? || e.CreatePermission? || e.UpdateValues? || e.CreateFolder?
    || e.Upload? || e.CopyFile? || e.BatchUpdate? || e.SaveSheet?
  }

  // ---------------------------------------------------------------------------
  // The fixed parts of the requests

  const SeedCount: int32 := 10
  const SeedsParentFolderId := "1xhY7A0FPHnt3Xx2rmB6S_P00Rl2o0QcS"
  const TemplateSheetId := "1CyIdGK7P2iEsTWSBWhBwZFH1enKuCe-gIytQg7SFZFI"
  const FolderMime := "application/vnd.google-apps.folder"
  const LockedPermissionId := "anyoneWithLink"
  const LogOrder := "name_natural"
  const LogRange := "SpoilerLogs"

  function RoleName(role: Role): string {
    match role
    case Reader => "reader"
    case Writer => "writer"
  }

  function MimeType(kind: FileKind): string {
    match kind
    case Patch => "application/x-gzip"
    case HashIcon => "image/png"
    case SpoilerLog => "text/plain"
  }

  /** The text the progress callback receives for each report. */
  function Text(m: Message): string {
    match m
    case Locking => "Locking old sheet."
    case PublicLogs => "Making old spoiler logs public."
    case PublishingLogs => "Publishing old spoiler logs in the spreadsheet."
    case Generating(i, count) => "Generating new seeds: " + ToString(i + 1) + "/" + ToString(count) + "."
    case CreatingFolder => "Creating new Drive folder."
    case Uploading(progress, count) => "Uploading files to Drive: " + ToString(progress) + "/" + ToString(count)
    case CreatingSheet => "Creating new sheet."
    case UpdatingSheet => "Updating new sheet details."
    case PublicSheet => "Making new sheet public."
  }

  /** The name an upload takes on Drive: `Path.GetFileName` of the uploaded path. */
  function DriveName(e: Effect): string
    requires e.Upload?
  {
    Paths.GetFileName(e.path)
  }

  /** The Drive query for the old folder's spoiler logs. */
  function LogQuery(folderId: string): string {
    "'" + folderId + "' in parents and mimeType = 'text/plain'"
  }

  function SheetName(monthTitle: string): string {
    "MMR - " + monthTitle + " Asynchronous Races Leaderboard"
  }

  function OpenUrl(id: string): string {
    "https://drive.google.com/open?id=" + id
  }

  function ImageFormula(id: string): string {
    "=IMAGE(\"https://drive.google.com/uc?export=view&id=" + id + "\", 2)"
  }

  function DownloadUrl(id: string): string {
    "https://drive.google.com/uc?export=download&id=" + id
  }

  /** The cells of the old sheet's SpoilerLogs column, one per listed log, in listing order. */
  function OpenUrls(ids: seq<string>): (r: seq<string>)
    ensures |r| == |ids| && forall q :: 0 <= q < |ids| ==> r[q] == OpenUrl(ids[q])
  {
    seq(|ids|, q requires 0 <= q < |ids| => OpenUrl(ids[q]))
  }

  /** The IconHashes column: one IMAGE formula per hash icon, in set order. */
  function ImageFormulas(ids: seq<string>): (r: seq<string>)
    ensures |r| == |ids| && forall q :: 0 <= q < |ids| ==> r[q] == ImageFormula(ids[q])
  {
    seq(|ids|, q requires 0 <= q < |ids| => ImageFormula(ids[q]))
  }

  /** The Patches column: one download link per patch, in set order. */
  function DownloadUrls(ids: seq<string>): (r: seq<string>)
    ensures |r| == |ids| && forall q :: 0 <= q < |ids| ==> r[q] == DownloadUrl(ids[q])
  {
    seq(|ids|, q requires 0 <= q < |ids| => DownloadUrl(ids[q]))
  }

  /** The link GenerateAsyncSheet returns. */
  function EditUrl(sheetId: string): string {
    "https://docs.google.com/spreadsheets/d/" + sheetId + "/edit?usp=sharing"
  }

  /** The link names the sheet: different sheets get different links. */
  lemma EditUrlInjective(a: string, b: string)
    requires EditUrl(a) == EditUrl(b)
    ensures a == b
  {
    var prefix := "https://docs.google.com/spreadsheets/d/";
    var suffix := "/edit?usp=sharing";
    assert EditUrl(a) == prefix + (a + suffix);
    assert EditUrl(b) == prefix + (b + suffix);
    MMRService.MiddleEqual(prefix, a, b, suffix);
  }

  // ---------------------------------------------------------------------------
  // Stems

  /** `i.ToString("00")`: at least two digits, zero-padded. */
  function Pad2(i: nat): (s: string)
    ensures |s| >= 2 && AllDigits(s)
  {
    if i < 10 then "0" + Digits(i) else Digits(i)
  }

  /** The file name stem of set `i`: `<yyyy-MM>_<i:00>`. */
  function Stem(month: string, i: nat): string {
    month + "_" + Pad2(i)
  }

  /** Different set numbers get different two-digit texts. */
  lemma Pad2Injective(i: nat, j: nat)
    requires Pad2(i) == Pad2(j)
    ensures i == j
  {
    if i < 10 && j < 10 {
      assert Pad2(i)[1] == DigitChar(i) && Pad2(j)[1] == DigitChar(j);
    } else if i >= 10 && j >= 10 {
      DigitsValueOfDigits(i);
      DigitsValueOfDigits(j);
    }
  }

  /** The sets of one month get pairwise different file name stems. */
  lemma StemInjective(month: string, i: nat, j: nat)
    requires Stem(month, i) == Stem(month, j)
    ensures i == j
  {
    var head := month + "_";
    assert Stem(month, i) == head + Pad2(i) && Stem(month, j) == head + Pad2(j);
    assert Pad2(i) == Stem(month, i)[|head|..];
    assert Pad2(j) == Stem(month, j)[|head|..];
    Pad2Injective(i, j);
  }

  // ---------------------------------------------------------------------------
  // Replies gathered during a run

  /** The `filenames` list: the replies of the GenerateSeed calls of a stage starting at `base`. */
  function Generated(env: Environment, base: nat, count: nat): (r: seq<MMRService.SeedPaths>)
    ensures |r| == count && forall i :: 0 <= i < count ==> r[i] == env.pathsAt(base + 2 * i + 1)
  {
    if count == 0 then [] else Generated(env, base, count - 1) + [env.pathsAt(base + 2 * (count - 1) + 1)]
  }

  /** `patchFileIds`: the ids of the patch uploads of a stage starting at `base` (six calls per set). */
  function PatchIds(env: Environment, base: nat, count: nat): (r: seq<string>)
    ensures |r| == count && forall k :: 0 <= k < count ==> r[k] == env.idAt(base + 6 * k + 1)
  {
    if count == 0 then [] else PatchIds(env, base, count - 1) + [env.idAt(base + 6 * (count - 1) + 1)]
  }

  /** `hashIconIds`: the ids of the icon uploads of a stage starting at `base`. */
  function IconIds(env: Environment, base: nat, count: nat): (r: seq<string>)
    ensures |r| == count && forall k :: 0 <= k < count ==> r[k] == env.idAt(base + 6 * k + 3)
  {
    if count == 0 then [] else IconIds(env, base, count - 1) + [env.idAt(base + 6 * (count - 1) + 3)]
  }

  /** The id lists grow by one set at a time. */
  lemma IdsGrow(env: Environment, base: nat, k: nat, patchIds: seq<string>, iconIds: seq<string>, patchId: string, iconId: string)
    requires patchIds == PatchIds(env, base, k) && iconIds == IconIds(env, base, k)
    requires patchId == env.idAt(base + 6 * k + 1) && iconId == env.idAt(base + 6 * k + 3)
    ensures patchIds + [patchId] == PatchIds(env, base, k + 1)
    ensures iconIds + [iconId] == IconIds(env, base, k + 1)
  {
  }

  // ---------------------------------------------------------------------------
  // The plan: what a run does when no call fails, stage by stage. Each stage function
  // extends the trace so far; `env` answers the calls by their positions.

  lemma PrefixAt(a: seq<Effect>, b: seq<Effect>, p: nat)
    requires a <= b && p < |a|
    ensures b[p] == a[p]
  {
    assert b[..|a|][p] == b[p];
  }

  /** Entry d of a block appended to t, seen in a trace that extends both. */
  lemma BlockAt(t: seq<Effect>, block: seq<Effect>, r: seq<Effect>, d: nat, p: nat)
    requires t + block <= r && d < |block| && p == |t| + d
    ensures r[p] == block[d]
  {
    PrefixAt(t + block, r, p);
  }

  lemma PrefixTrans(a: seq<Effect>, b: seq<Effect>, c: seq<Effect>)
    requires a <= b && b <= c
    ensures a <= c
  {
    assert a == b[..|a|] && b == c[..|b|];
    assert c[..|b|][..|a|] == c[..|a|];
  }

  /** A public read grant for each of `ids[j..]`, in order. */
  function Grants(t: seq<Effect>, ids: seq<string>, j: nat): (r: seq<Effect>)
    requires j <= |ids|
    decreases |ids| - j
    ensures t <= r && |r| == |t| + |ids| - j
  {
    if j == |ids| then t
    else
      var r := Grants(t + [CreatePermission(ids[j], Reader)], ids, j + 1);
      PrefixTrans(t, t + [CreatePermission(ids[j], Reader)], r);
      r
  }

  /** Lock the old sheet, make its logs public and list them in its SpoilerLogs column. */
  function OldSheetStage(env: Environment, t: seq<Effect>, sheet: AsyncSheetRepository.AsyncSheetEntity): (r: seq<Effect>)
    ensures t <= r && |r| == |t| + 6 + |env.listingAt(|t| + 3)|
  {
    var listing := env.listingAt(|t| + 3);
    var t1 := t + [Report(Locking), UpdatePermission(sheet.sheetId, Reader), Report(PublicLogs), ListFiles(sheet.folderId)];
    var t2 := Grants(t1, listing, 0);
    var r := t2 + [Report(PublishingLogs), UpdateValues(sheet.sheetId, listing)];
    PrefixTrans(t, t1, t2);
    PrefixTrans(t, t2, r);
    r
  }

  /** One progress report and one GenerateSeed per seed `seeds[i..]`, strictly in order. */
  function GenerateFrom(t: seq<Effect>, month: string, seeds: seq<int32>, i: nat): (r: seq<Effect>)
    requires i <= |seeds|
    decreases |seeds| - i
    ensures t <= r && |r| == |t| + 2 * (|seeds| - i)
  {
    if i == |seeds| then t
    else
      var t1 := t + [Report(Generating(i, |seeds|)), GenerateSeed(month, i, None, seeds[i])];
      var r := GenerateFrom(t1, month, seeds, i + 1);
      PrefixTrans(t, t1, r);
      r
  }

  /** The six calls for one set starting at position `base`: patch, grant, icon, grant, log. */
  function SetBlock(env: Environment, base: nat, folderId: string, paths: MMRService.SeedPaths, progress: nat, count: nat)
    : seq<Effect>
  {
    [ Report(Uploading(progress, count)),
      Upload(paths.patchPath, folderId, Patch),
      CreatePermission(env.idAt(base + 1), Reader),
      Upload(paths.hashIconPath, folderId, HashIcon),
      CreatePermission(env.idAt(base + 3), Reader),
      Upload(paths.spoilerLogPath, folderId, SpoilerLog) ]
  }

  /** The uploads of the sets `sets[k..]`, in order, each a SetBlock at its own position. */
  function UploadFrom(env: Environment, t: seq<Effect>, folderId: string, sets: seq<MMRService.SeedPaths>, k: nat)
    : (r: seq<Effect>)
    requires k <= |sets|
    decreases |sets| - k
    ensures t <= r && |r| == |t| + 6 * (|sets| - k)
  {
    if k == |sets| then t
    else
      var t1 := t + SetBlock(env, |t|, folderId, sets[k], k + 1, |sets|);
      var r := UploadFrom(env, t1, folderId, sets, k + 1);
      PrefixTrans(t, t1, r);
      r
  }

  /** Copy the template, fill it in, make it public, and save the record of the new sheet. */
  function NewSheetStage(env: Environment, clock: Clock, t: seq<Effect>, folderId: string,
                         patchIds: seq<string>, iconIds: seq<string>): (r: seq<Effect>)
    ensures t <= r && |r| == |t| + 7
  {
    var sheet := env.idAt(|t| + 1);
    t + [ Report(CreatingSheet), CopyFile(clock.monthTitle), Report(UpdatingSheet),
          BatchUpdate(sheet, clock.day, iconIds, patchIds),
          Report(PublicSheet), CreatePermission(sheet, Writer),
          SaveSheet(sheet, clock.now, folderId) ]
  }

  /**
   * The whole trace of a run that starts after `t` and in which no call fails. Without a
   * latest record the run stops right after the read (the source dereferences null there).
   */
  function Plan(env: Environment, clock: Clock, t: seq<Effect>, latest: Option<AsyncSheetRepository.AsyncSheetEntity>)
    : (r: seq<Effect>)
    ensures t <= r && |r| > |t| && r[|t|] == ReadLatest
  {
    var t1 := t + [ReadLatest];
    match latest
    case None => t1
    case Some(sheet) =>
      var t2 := OldSheetStage(env, t1, sheet);
      var seeds := env.seedsAt(|t2|);
      var t3 := t2 + [FetchSeeds(SeedCount)];
      var t4 := GenerateFrom(t3, clock.month, seeds, 0);
      var t5 := t4 + [Report(CreatingFolder), CreateFolder(clock.month)];
      var folderId := env.idAt(|t4| + 1);
      var t6 := UploadFrom(env, t5, folderId, Generated(env, |t2| + 1, |seeds|), 0);
      var r := NewSheetStage(env, clock, t6, folderId, PatchIds(env, |t4| + 2, |seeds|), IconIds(env, |t4| + 2, |seeds|));
      PrefixTrans(t1, t2, t3);
      PrefixTrans(t1, t3, t4);
      PrefixTrans(t1, t4, t5);
      PrefixTrans(t1, t5, t6);
      PrefixTrans(t1, t6, r);
      PrefixTrans(t, t1, r);
      PrefixAt(t1, r, |t|);
      r
  }

  // ---------------------------------------------------------------------------
  // Where each stage puts its calls

  lemma {:induction false} GrantAt(t: seq<Effect>, ids: seq<string>, j: nat, q: nat)
    requires j <= q < |ids|
    decreases |ids| - j
    ensures Grants(t, ids, j)[|t| + (q - j)] == CreatePermission(ids[q], Reader)
  {
    var t1 := t + [CreatePermission(ids[j], Reader)];
    var r := Grants(t1, ids, j + 1);
    assert Grants(t, ids, j) == r;
    if q == j {
      PrefixAt(t1, r, |t|);
    } else {
      GrantAt(t1, ids, j + 1, q);
    }
  }

  lemma {:induction false} GenerateAt(t: seq<Effect>, month: string, seeds: seq<int32>, i: nat, k: nat)
    requires i <= k < |seeds|
    decreases |seeds| - i
    ensures GenerateFrom(t, month, seeds, i)[|t| + 2 * (k - i)] == Report(Generating(k, |seeds|))
    ensures GenerateFrom(t, month, seeds, i)[|t| + 2 * (k - i) + 1] == GenerateSeed(month, k, None, seeds[k])
  {
    var t1 := t + [Report(Generating(i, |seeds|)), GenerateSeed(month, i, None, seeds[i])];
    var r := GenerateFrom(t1, month, seeds, i + 1);
    assert GenerateFrom(t, month, seeds, i) == r;
    if k == i {
      PrefixAt(t1, r, |t|);
      PrefixAt(t1, r, |t| + 1);
    } else {
      GenerateAt(t1, month, seeds, i + 1, k);
      assert |t| + 2 * (k - i) == |t1| + 2 * (k - (i + 1));
    }
  }

  lemma {:induction false} UploadAt(env: Environment, t: seq<Effect>, folderId: string, sets: seq<MMRService.SeedPaths>,
                                    k: nat, j: nat, d: nat, p: nat)
    requires k <= j < |sets| && d < 6 && p == |t| + 6 * (j - k) + d
    decreases |sets| - k
    ensures UploadFrom(env, t, folderId, sets, k)[p]
         == SetBlock(env, |t| + 6 * (j - k), folderId, sets[j], j + 1, |sets|)[d]
  {
    var t1 := t + SetBlock(env, |t|, folderId, sets[k], k + 1, |sets|);
    var r := UploadFrom(env, t1, folderId, sets, k + 1);
    assert UploadFrom(env, t, folderId, sets, k) == r;
    if j == k {
      BlockAt(t, SetBlock(env, |t|, folderId, sets[k], k + 1, |sets|), r, d, p);
    } else {
      UploadAt(env, t1, folderId, sets, k + 1, j, d, p);
      assert |t| + 6 * (j - k) == |t1| + 6 * (j - (k + 1));
    }
  }

  // ---------------------------------------------------------------------------
  // The plan position by position

  /**
   * Where the stages of a run starting at position `from` begin, given the replies: the old
   * spoiler logs listed, the seeds, and the positions of FetchSeeds, the first generation
   * report, CreateFolder, the first upload report, CopyFile and Save.
   */
  datatype Layout = Layout(listing: seq<string>, seedsAt: nat, seeds: seq<int32>, generateBase: nat,
                           folderAt: nat, uploadBase: nat, copyAt: nat, saveAt: nat)

  function LayoutOf(env: Environment, from: nat): (l: Layout)
    ensures l.listing == env.listingAt(from + 4)
    ensures l.seedsAt == from + 7 + |l.listing| && l.seeds == env.seedsAt(l.seedsAt)
    ensures l.generateBase == l.seedsAt + 1 && l.folderAt == l.generateBase + 2 * |l.seeds| + 1
    ensures l.uploadBase == l.folderAt + 1 && l.copyAt == l.uploadBase + 6 * |l.seeds| + 1
    ensures l.saveAt == l.copyAt + 5
  {
    var listing := env.listingAt(from + 4);
    var seedsPos := from + 7 + |listing|;
    var seeds := env.seedsAt(seedsPos);
    var g := seedsPos + 1;
    var folderPos := g + 2 * |seeds| + 1;
    var u := folderPos + 1;
    var copyPos := u + 6 * |seeds| + 1;
    Layout(listing, seedsPos, seeds, g, folderPos, u, copyPos, copyPos + 5)
  }

  /** Positions from .. seedsAt: the read, the lock, the old logs' grants, the SpoilerLogs column and the seed fetch. */
  function OldStageAt(env: Environment, sheet: AsyncSheetRepository.AsyncSheetEntity, from: nat, p: nat): (e: Effect)
    requires from <= p <= LayoutOf(env, from).seedsAt
    ensures e.UpdatePermission? <==> p == from + 2
    ensures p < from + 2 ==> !IsWrite(e)
    ensures !e.SaveSheet? && !e.GenerateSeed? && !e.Upload?
  {
    var listing := LayoutOf(env, from).listing;
    var m := |listing|;
    if p == from then ReadLatest
    else if p == from + 1 then Report(Locking)
    else if p == from + 2 then UpdatePermission(sheet.sheetId, Reader)
    else if p == from + 3 then Report(PublicLogs)
    else if p == from + 4 then ListFiles(sheet.folderId)
    else if p < from + 5 + m then CreatePermission(listing[p - (from + 5)], Reader)
    else if p == from + 5 + m then Report(PublishingLogs)
    else if p == from + 6 + m then UpdateValues(sheet.sheetId, listing)
    else FetchSeeds(SeedCount)
  }

  /** Positions generateBase .. folderAt: a report and a GenerateSeed per seed, then the new folder. */
  function GenerationAt(env: Environment, clock: Clock, from: nat, p: nat): (e: Effect)
    requires LayoutOf(env, from).generateBase <= p <= LayoutOf(env, from).folderAt
    ensures e.Report? || e.GenerateSeed? || e.CreateFolder?
    ensures e.GenerateSeed? ==> p == LayoutOf(env, from).generateBase + 2 * e.index + 1 < LayoutOf(env, from).folderAt - 1
  {
    var l := LayoutOf(env, from);
    if p < l.folderAt - 1 then
      var i := (p - l.generateBase) / 2;
      if (p - l.generateBase) % 2 == 0 then Report(Generating(i, |l.seeds|))
      else GenerateSeed(clock.month, i, None, l.seeds[i])
    else if p == l.folderAt - 1 then Report(CreatingFolder)
    else CreateFolder(clock.month)
  }

  /** Call d of set k's block of six calls, set k being answered by the k-th GenerateSeed. */
  function UploadCall(env: Environment, from: nat, k: nat, d: nat): (e: Effect)
    requires k < |LayoutOf(env, from).seeds| && d < 6
    ensures e.Report? || e.Upload? || e.CreatePermission?
  {
    var l := LayoutOf(env, from);
    SetBlock(env, l.uploadBase + 6 * k, env.idAt(l.folderAt), env.pathsAt(l.generateBase + 2 * k + 1), k + 1, |l.seeds|)[d]
  }

  /** Positions uploadBase .. copyAt-2, six calls per set. */
  function UploadCallAt(env: Environment, from: nat, p: nat): (e: Effect)
    requires LayoutOf(env, from).uploadBase <= p < LayoutOf(env, from).copyAt - 1
    ensures e.Report? || e.Upload? || e.CreatePermission?
  {
    var u := LayoutOf(env, from).uploadBase;
    UploadCall(env, from, (p - u) / 6, (p - u) % 6)
  }

  /** Positions copyAt-1 .. saveAt: the new sheet, its contents, its grant and the Save. */
  function TailAt(env: Environment, clock: Clock, from: nat, p: nat): (e: Effect)
    requires LayoutOf(env, from).copyAt - 1 <= p <= LayoutOf(env, from).saveAt
    ensures e.SaveSheet? <==> p == LayoutOf(env, from).saveAt
    ensures !e.UpdatePermission? && !e.GenerateSeed? && !e.Upload?
  {
    var l := LayoutOf(env, from);
    var sheet := env.idAt(l.copyAt);
    if p == l.copyAt - 1 then Report(CreatingSheet)
    else if p == l.copyAt then CopyFile(clock.monthTitle)
    else if p == l.copyAt + 1 then Report(UpdatingSheet)
    else if p == l.copyAt + 2 then
      BatchUpdate(sheet, clock.day, IconIds(env, l.uploadBase, |l.seeds|), PatchIds(env, l.uploadBase, |l.seeds|))
    else if p == l.copyAt + 3 then Report(PublicSheet)
    else if p == l.copyAt + 4 then CreatePermission(sheet, Writer)
    else SaveSheet(sheet, clock.now, env.idAt(l.folderAt))
  }

  /**
   * The call a fault-free run that read `sheet` at position `from` makes at position `p`,
   * written out region by region: a closed-form account of the plan.
   */
  function ExpectedAt(env: Environment, clock: Clock, sheet: AsyncSheetRepository.AsyncSheetEntity, from: nat, p: nat)
    : (e: Effect)
    requires from <= p <= LayoutOf(env, from).saveAt
    ensures e.UpdatePermission? <==> p == from + 2
    ensures p < from + 2 ==> !IsWrite(e)
    ensures e.SaveSheet? <==> p == LayoutOf(env, from).saveAt
    ensures e.GenerateSeed? ==> p == LayoutOf(env, from).generateBase + 2 * e.index + 1 < LayoutOf(env, from).folderAt - 1
    ensures e.Upload? ==> LayoutOf(env, from).uploadBase <= p < LayoutOf(env, from).copyAt - 1
  {
    var l := LayoutOf(env, from);
    if p <= l.seedsAt then OldStageAt(env, sheet, from, p)
    else if p <= l.folderAt then GenerationAt(env, clock, from, p)
    else if p < l.copyAt - 1 then UploadCallAt(env, from, p)
    else TailAt(env, clock, from, p)
  }

  /** The stage traces a run with a latest sheet passes through. */
  lemma PlanStages(env: Environment, clock: Clock, t: seq<Effect>, sheet: AsyncSheetRepository.AsyncSheetEntity)
    returns (t2: seq<Effect>, t4: seq<Effect>, t6: seq<Effect>)
    ensures t2 == OldSheetStage(env, t + [ReadLatest], sheet)
    ensures t4 == GenerateFrom(t2 + [FetchSeeds(SeedCount)], clock.month, env.seedsAt(|t2|), 0)
    ensures t6 == UploadFrom(env, t4 + [Report(CreatingFolder), CreateFolder(clock.month)], env.idAt(|t4| + 1),
                             Generated(env, |t2| + 1, |env.seedsAt(|t2|)|), 0)
    ensures Plan(env, clock, t, Some(sheet))
         == NewSheetStage(env, clock, t6, env.idAt(|t4| + 1),
                          PatchIds(env, |t4| + 2, |env.seedsAt(|t2|)|), IconIds(env, |t4| + 2, |env.seedsAt(|t2|)|))
  {
    t2 := OldSheetStage(env, t + [ReadLatest], sheet);
    t4 := GenerateFrom(t2 + [FetchSeeds(SeedCount)], clock.month, env.seedsAt(|t2|), 0);
    t6 := UploadFrom(env, t4 + [Report(CreatingFolder), CreateFolder(clock.month)], env.idAt(|t4| + 1),
                     Generated(env, |t2| + 1, |env.seedsAt(|t2|)|), 0);
  }

  /** The stage traces again, with the prefixes of the plan the position lemmas below read. */
  lemma PlanPrefixes(env: Environment, clock: Clock, t: seq<Effect>, sheet: AsyncSheetRepository.AsyncSheetEntity)
    returns (t2: seq<Effect>, t4: seq<Effect>, t6: seq<Effect>)
    ensures t2 == OldSheetStage(env, t + [ReadLatest], sheet)
    ensures t4 == GenerateFrom(t2 + [FetchSeeds(SeedCount)], clock.month, env.seedsAt(|t2|), 0)
    ensures t6 == UploadFrom(env, t4 + [Report(CreatingFolder), CreateFolder(clock.month)], env.idAt(|t4| + 1),
                             Generated(env, |t2| + 1, |env.seedsAt(|t2|)|), 0)
    ensures t2 + [FetchSeeds(SeedCount)] <= Plan(env, clock, t, Some(sheet))
    ensures t4 + [Report(CreatingFolder), CreateFolder(clock.month)] <= Plan(env, clock, t, Some(sheet))
    ensures Plan(env, clock, t, Some(sheet))
         == NewSheetStage(env, clock, t6, env.idAt(|t4| + 1),
                          PatchIds(env, |t4| + 2, |env.seedsAt(|t2|)|), IconIds(env, |t4| + 2, |env.seedsAt(|t2|)|))
  {
    var plan := Plan(env, clock, t, Some(sheet));
    t2, t4, t6 := PlanStages(env, clock, t, sheet);
    var t5 := t4 + [Report(CreatingFolder), CreateFolder(clock.month)];
    PrefixTrans(t5, t6, plan);
    PrefixTrans(t4, t5, plan);
    PrefixTrans(t2 + [FetchSeeds(SeedCount)], t4, plan);
  }

  /** Where the stage traces end, in terms of the layout. */
  lemma StageLengths(env: Environment, clock: Clock, t: seq<Effect>, sheet: AsyncSheetRepository.AsyncSheetEntity,
                     t2: seq<Effect>, t4: seq<Effect>, t6: seq<Effect>)
    requires t2 == OldSheetStage(env, t + [ReadLatest], sheet)
    requires t4 == GenerateFrom(t2 + [FetchSeeds(SeedCount)], clock.month, env.seedsAt(|t2|), 0)
    requires t6 == UploadFrom(env, t4 + [Report(CreatingFolder), CreateFolder(clock.month)], env.idAt(|t4| + 1),
                              Generated(env, |t2| + 1, |env.seedsAt(|t2|)|), 0)
    ensures |t2| == LayoutOf(env, |t|).seedsAt
    ensures |t4| + 1 == LayoutOf(env, |t|).folderAt
    ensures |t6| + 1 == LayoutOf(env, |t|).copyAt
  {
    assert |t + [ReadLatest]| + 3 == |t| + 4;
  }

  lemma OldSheetExpected(env: Environment, t: seq<Effect>, sheet: AsyncSheetRepository.AsyncSheetEntity,
                         t2: seq<Effect>, plan: seq<Effect>, p: nat)
    requires t2 == OldSheetStage(env, t + [ReadLatest], sheet)
    requires t2 + [FetchSeeds(SeedCount)] <= plan
    requires |t| < p <= LayoutOf(env, |t|).seedsAt
    ensures plan[p] == OldStageAt(env, sheet, |t|, p)
  {
    var t0 := t + [ReadLatest];
    var listing := env.listingAt(|t0| + 3);
    var t1 := t0 + [Report(Locking), UpdatePermission(sheet.sheetId, Reader), Report(PublicLogs), ListFiles(sheet.folderId)];
    var tg := Grants(t1, listing, 0);
    var r := tg + [Report(PublishingLogs), UpdateValues(sheet.sheetId, listing)];
    assert t2 == r;
    if p == |t2| {
      PrefixAt(t2 + [FetchSeeds(SeedCount)], plan, p);
    } else {
      PrefixTrans(t2, t2 + [FetchSeeds(SeedCount)], plan);
      PrefixAt(t2, plan, p);
      if p < |t1| {
        PrefixTrans(t1, tg, t2);
        PrefixAt(t1, t2, p);
      } else if p < |tg| {
        PrefixAt(tg, t2, p);
        GrantAt(t1, listing, 0, p - |t1|);
      }
    }
  }

  lemma GenerateExpected(env: Environment, clock: Clock, t: seq<Effect>,
                         t2: seq<Effect>, t4: seq<Effect>, plan: seq<Effect>, p: nat)
    requires |t2| == LayoutOf(env, |t|).seedsAt
    requires t4 == GenerateFrom(t2 + [FetchSeeds(SeedCount)], clock.month, env.seedsAt(|t2|), 0)
    requires t4 + [Report(CreatingFolder), CreateFolder(clock.month)] <= plan
    requires LayoutOf(env, |t|).generateBase <= p <= LayoutOf(env, |t|).folderAt
    ensures plan[p] == GenerationAt(env, clock, |t|, p)
  {
    var t5 := t4 + [Report(CreatingFolder), CreateFolder(clock.month)];
    if p < |t4| {
      var g := |t2| + 1;
      var i := (p - g) / 2;
      assert p - g == 2 * i + (p - g) % 2;
      PrefixTrans(t4, t5, plan);
      PrefixAt(t4, plan, p);
      GenerateAt(t2 + [FetchSeeds(SeedCount)], clock.month, env.seedsAt(|t2|), 0, i);
    } else {
      PrefixAt(t5, plan, p);
    }
  }

  /** Call d of set k's block, at position p, as the upload stage issues it. */
  lemma UploadBlockAt(env: Environment, t5: seq<Effect>, folderId: string, sets: seq<MMRService.SeedPaths>,
                      t6: seq<Effect>, plan: seq<Effect>, k: nat, d: nat, p: nat)
    requires t6 == UploadFrom(env, t5, folderId, sets, 0) && t6 <= plan
    requires k < |sets| && d < 6 && p == |t5| + 6 * k + d
    ensures plan[p] == SetBlock(env, |t5| + 6 * (k - 0), folderId, sets[k], k + 1, |sets|)[d]
  {
    PrefixAt(t6, plan, p);
    UploadAt(env, t5, folderId, sets, 0, k, d, p);
  }

  lemma SetBlockIsUploadCall(env: Environment, from: nat, k: nat, d: nat, base: nat, folderId: string,
                             paths: MMRService.SeedPaths, count: nat)
    requires k < |LayoutOf(env, from).seeds| && d < 6
    requires base == LayoutOf(env, from).uploadBase + 6 * k && folderId == env.idAt(LayoutOf(env, from).folderAt)
    requires paths == env.pathsAt(LayoutOf(env, from).generateBase + 2 * k + 1) && count == |LayoutOf(env, from).seeds|
    ensures SetBlock(env, base, folderId, paths, k + 1, count)[d] == UploadCall(env, from, k, d)
  {
  }

  /** Call d of set k's block, found at position p, is the call the layout puts at p. */
  lemma UploadExpected(env: Environment, from: nat, plan: seq<Effect>, p: nat, base: nat, folderId: string,
                       sets: seq<MMRService.SeedPaths>, k: nat, d: nat)
    requires base == LayoutOf(env, from).uploadBase && folderId == env.idAt(LayoutOf(env, from).folderAt)
    requires sets == Generated(env, LayoutOf(env, from).generateBase, |LayoutOf(env, from).seeds|)
    requires k < |sets| && d < 6 && p == base + 6 * k + d && p < |plan|
    requires plan[p] == SetBlock(env, base + 6 * (k - 0), folderId, sets[k], k + 1, |sets|)[d]
    ensures plan[p] == UploadCallAt(env, from, p)
  {
    SetBlockIsUploadCall(env, from, k, d, base + 6 * (k - 0), folderId, sets[k], |sets|);
    UploadCallAtBlock(env, from, k, d, p);
  }

  /** Position uploadBase + 6k + d of the upload stage holds call d of set k. */
  lemma UploadCallAtBlock(env: Environment, from: nat, k: nat, d: nat, p: nat)
    requires k < |LayoutOf(env, from).seeds| && d < 6 && p == LayoutOf(env, from).uploadBase + 6 * k + d
    ensures UploadCallAt(env, from, p) == UploadCall(env, from, k, d)
  {
    var u := LayoutOf(env, from).uploadBase;
    assert (p - u) / 6 == k && (p - u) % 6 == d;
  }

  lemma TailExpected(env: Environment, clock: Clock, t: seq<Effect>, t6: seq<Effect>, folderId: string,
                     patchIds: seq<string>, iconIds: seq<string>, plan: seq<Effect>, p: nat)
    requires |t6| + 1 == LayoutOf(env, |t|).copyAt && folderId == env.idAt(LayoutOf(env, |t|).folderAt)
    requires patchIds == PatchIds(env, LayoutOf(env, |t|).uploadBase, |LayoutOf(env, |t|).seeds|)
    requires iconIds == IconIds(env, LayoutOf(env, |t|).uploadBase, |LayoutOf(env, |t|).seeds|)
    requires plan == NewSheetStage(env, clock, t6, folderId, patchIds, iconIds)
    requires LayoutOf(env, |t|).copyAt - 1 <= p <= LayoutOf(env, |t|).saveAt
    ensures plan[p] == TailAt(env, clock, |t|, p)
  {
  }

  lemma PlanOldAt(env: Environment, clock: Clock, t: seq<Effect>, sheet: AsyncSheetRepository.AsyncSheetEntity, p: nat)
    requires |t| < p <= LayoutOf(env, |t|).seedsAt
    ensures |Plan(env, clock, t, Some(sheet))| == LayoutOf(env, |t|).saveAt + 1
    ensures Plan(env, clock, t, Some(sheet))[p] == OldStageAt(env, sheet, |t|, p)
  {
    var t2, t4, t6 := PlanPrefixes(env, clock, t, sheet);
    StageLengths(env, clock, t, sheet, t2, t4, t6);
    OldSheetExpected(env, t, sheet, t2, Plan(env, clock, t, Some(sheet)), p);
  }

  lemma PlanGenerationAt(env: Environment, clock: Clock, t: seq<Effect>, sheet: AsyncSheetRepository.AsyncSheetEntity, p: nat)
    requires LayoutOf(env, |t|).generateBase <= p <= LayoutOf(env, |t|).folderAt
    ensures |Plan(env, clock, t, Some(sheet))| == LayoutOf(env, |t|).saveAt + 1
    ensures Plan(env, clock, t, Some(sheet))[p] == GenerationAt(env, clock, |t|, p)
  {
    var t2, t4, t6 := PlanPrefixes(env, clock, t, sheet);
    StageLengths(env, clock, t, sheet, t2, t4, t6);
    GenerateExpected(env, clock, t, t2, t4, Plan(env, clock, t, Some(sheet)), p);
  }

  lemma PlanUploadAt(env: Environment, clock: Clock, t: seq<Effect>, sheet: AsyncSheetRepository.AsyncSheetEntity, p: nat)
    requires LayoutOf(env, |t|).uploadBase <= p < LayoutOf(env, |t|).copyAt - 1
    ensures |Plan(env, clock, t, Some(sheet))| == LayoutOf(env, |t|).saveAt + 1
    ensures Plan(env, clock, t, Some(sheet))[p] == UploadCallAt(env, |t|, p)
  {
    var t2, t4, t6 := PlanPrefixes(env, clock, t, sheet);
    StageLengths(env, clock, t, sheet, t2, t4, t6);
    UploadStageAt(env, |t|, t4 + [Report(CreatingFolder), CreateFolder(clock.month)], env.idAt(|t4| + 1),
                  Generated(env, |t2| + 1, |env.seedsAt(|t2|)|), t6, Plan(env, clock, t, Some(sheet)), p);
  }

  /** Position p of the upload stage, which starts at `t5`, holds the call the layout puts there. */
  lemma UploadStageAt(env: Environment, from: nat, t5: seq<Effect>, folderId: string, sets: seq<MMRService.SeedPaths>,
                      t6: seq<Effect>, plan: seq<Effect>, p: nat)
    requires |t5| == LayoutOf(env, from).uploadBase && folderId == env.idAt(LayoutOf(env, from).folderAt)
    requires sets == Generated(env, LayoutOf(env, from).generateBase, |LayoutOf(env, from).seeds|)
    requires t6 == UploadFrom(env, t5, folderId, sets, 0) && t6 <= plan
    requires LayoutOf(env, from).uploadBase <= p < LayoutOf(env, from).copyAt - 1
    ensures plan[p] == UploadCallAt(env, from, p)
  {
    var k, d := (p - |t5|) / 6, (p - |t5|) % 6;
    UploadBlockAt(env, t5, folderId, sets, t6, plan, k, d, p);
    UploadExpected(env, from, plan, p, |t5|, folderId, sets, k, d);
  }

  lemma PlanTailAt(env: Environment, clock: Clock, t: seq<Effect>, sheet: AsyncSheetRepository.AsyncSheetEntity, p: nat)
    requires LayoutOf(env, |t|).copyAt - 1 <= p <= LayoutOf(env, |t|).saveAt
    ensures |Plan(env, clock, t, Some(sheet))| == LayoutOf(env, |t|).saveAt + 1
    ensures Plan(env, clock, t, Some(sheet))[p] == TailAt(env, clock, |t|, p)
  {
    var t2, t4, t6 := PlanPrefixes(env, clock, t, sheet);
    StageLengths(env, clock, t, sheet, t2, t4, t6);
    assert |t4| + 2 == LayoutOf(env, |t|).uploadBase && |env.seedsAt(|t2|)| == |LayoutOf(env, |t|).seeds|;
    TailExpected(env, clock, t, t6, env.idAt(|t4| + 1), PatchIds(env, |t4| + 2, |env.seedsAt(|t2|)|),
                 IconIds(env, |t4| + 2, |env.seedsAt(|t2|)|), Plan(env, clock, t, Some(sheet)), p);
  }

  /**
   * Plan and ExpectedAt agree: a fault-free run with a latest sheet makes exactly the calls
   * ExpectedAt lists, at positions from .. saveAt, and nothing after.
   */
  lemma PlanAt(env: Environment, clock: Clock, t: seq<Effect>, sheet: AsyncSheetRepository.AsyncSheetEntity, p: nat)
    requires |t| <= p <= LayoutOf(env, |t|).saveAt
    ensures |Plan(env, clock, t, Some(sheet))| == LayoutOf(env, |t|).saveAt + 1
    ensures Plan(env, clock, t, Some(sheet))[p] == ExpectedAt(env, clock, sheet, |t|, p)
  {
    var l := LayoutOf(env, |t|);
    if p == |t| {
      PlanOldAt(env, clock, t, sheet, p + 1);
    } else if p <= l.seedsAt {
      PlanOldAt(env, clock, t, sheet, p);
    } else if p <= l.folderAt {
      PlanGenerationAt(env, clock, t, sheet, p);
    } else if p < l.copyAt - 1 {
      PlanUploadAt(env, clock, t, sheet, p);
    } else {
      PlanTailAt(env, clock, t, sheet, p);
    }
  }

  /** `plan` is, from position `from` on, exactly the calls ExpectedAt lists. */
  predicate Follows(env: Environment, clock: Clock, sheet: AsyncSheetRepository.AsyncSheetEntity, from: nat, plan: seq<Effect>) {
    && from <= |plan| == LayoutOf(env, from).saveAt + 1
    && forall p :: from <= p < |plan| ==> plan[p] == ExpectedAt(env, clock, sheet, from, p)
  }

  /** The plan of a run with a latest sheet follows the layout. */
  lemma PlanFollowsLayout(env: Environment, clock: Clock, t: seq<Effect>, sheet: AsyncSheetRepository.AsyncSheetEntity)
    ensures Follows(env, clock, sheet, |t|, Plan(env, clock, t, Some(sheet)))
  {
    PlanAt(env, clock, t, sheet, |t|);
    forall p | |t| <= p < |Plan(env, clock, t, Some(sheet))|
      ensures Plan(env, clock, t, Some(sheet))[p] == ExpectedAt(env, clock, sheet, |t|, p)
    {
      PlanAt(env, clock, t, sheet, p);
    }
  }

  // ---------------------------------------------------------------------------
  // What a fault-free run with a latest sheet does, for any trace that follows the layout

  /** The old sheet is locked exactly once, by the first write of the run, right after the read. */
  lemma LocksOldSheetOnce(env: Environment, clock: Clock, sheet: AsyncSheetRepository.AsyncSheetEntity, from: nat, plan: seq<Effect>)
    requires Follows(env, clock, sheet, from, plan)
    ensures plan[from] == ReadLatest && plan[from + 2] == UpdatePermission(sheet.sheetId, Reader)
    ensures forall p :: from <= p < from + 2 ==> !IsWrite(plan[p])
    ensures forall p :: from <= p < |plan| && plan[p].UpdatePermission? ==> p == from + 2
  {
    assert plan[from] == ExpectedAt(env, clock, sheet, from, from);
    assert plan[from + 2] == ExpectedAt(env, clock, sheet, from, from + 2);
  }

  /**
   * The old folder's logs, as the listing returned them, each get one public read grant in
   * listing order, and the old sheet's SpoilerLogs column then receives exactly that list.
   */
  lemma SharesOldLogs(env: Environment, clock: Clock, sheet: AsyncSheetRepository.AsyncSheetEntity, from: nat, plan: seq<Effect>)
    requires Follows(env, clock, sheet, from, plan)
    ensures var listing := env.listingAt(from + 4);
      && plan[from + 4] == ListFiles(sheet.folderId)
      && (forall q :: 0 <= q < |listing| ==> plan[from + 5 + q] == CreatePermission(listing[q], Reader))
      && plan[from + 6 + |listing|] == UpdateValues(sheet.sheetId, listing)
  {
    var listing := env.listingAt(from + 4);
    assert plan[from + 4] == ExpectedAt(env, clock, sheet, from, from + 4);
    assert plan[from + 6 + |listing|] == ExpectedAt(env, clock, sheet, from, from + 6 + |listing|);
    forall q | 0 <= q < |listing|
      ensures plan[from + 5 + q] == CreatePermission(listing[q], Reader)
    {
      assert plan[from + 5 + q] == ExpectedAt(env, clock, sheet, from, from + 5 + q);
    }
  }

  /**
   * One progress report and one GenerateSeed per fetched seed, strictly in order: set i is
   * generated from seeds[i] with no settings file, and no other GenerateSeed is issued.
   */
  lemma GeneratesEachSeedOnce(env: Environment, clock: Clock, sheet: AsyncSheetRepository.AsyncSheetEntity, from: nat, plan: seq<Effect>)
    requires Follows(env, clock, sheet, from, plan)
    ensures var l := LayoutOf(env, from);
      && plan[l.seedsAt] == FetchSeeds(SeedCount) && l.seeds == env.seedsAt(l.seedsAt)
      && (forall i :: 0 <= i < |l.seeds| ==>
            && plan[l.generateBase + 2 * i] == Report(Generating(i, |l.seeds|))
            && plan[l.generateBase + 2 * i + 1] == GenerateSeed(clock.month, i, None, l.seeds[i]))
      && (forall p :: from <= p < |plan| && plan[p].GenerateSeed? ==> p == l.generateBase + 2 * plan[p].index + 1)
  {
    GeneratesEachSeed(env, clock, sheet, from, plan);
    GeneratesNothingElse(env, clock, sheet, from, plan);
  }

  /** The seeds are fetched once, then each is reported and generated in turn. */
  lemma GeneratesEachSeed(env: Environment, clock: Clock, sheet: AsyncSheetRepository.AsyncSheetEntity, from: nat, plan: seq<Effect>)
    requires Follows(env, clock, sheet, from, plan)
    ensures var l := LayoutOf(env, from);
      && plan[l.seedsAt] == FetchSeeds(SeedCount) && l.seeds == env.seedsAt(l.seedsAt)
      && (forall i :: 0 <= i < |l.seeds| ==>
            && plan[l.generateBase + 2 * i] == Report(Generating(i, |l.seeds|))
            && plan[l.generateBase + 2 * i + 1] == GenerateSeed(clock.month, i, None, l.seeds[i]))
  {
    FetchesSeeds(env, clock, sheet, from, plan);
    forall i | 0 <= i < |LayoutOf(env, from).seeds|
      ensures var l := LayoutOf(env, from);
        && plan[l.generateBase + 2 * i] == Report(Generating(i, |l.seeds|))
        && plan[l.generateBase + 2 * i + 1] == GenerateSeed(clock.month, i, None, l.seeds[i])
    {
      GeneratesSeed(env, clock, sheet, from, plan, i);
    }
  }

  /** The one call that fetches the seeds. */
  lemma FetchesSeeds(env: Environment, clock: Clock, sheet: AsyncSheetRepository.AsyncSheetEntity, from: nat, plan: seq<Effect>)
    requires Follows(env, clock, sheet, from, plan)
    ensures var l := LayoutOf(env, from); plan[l.seedsAt] == FetchSeeds(SeedCount) && l.seeds == env.seedsAt(l.seedsAt)
  {
    var l := LayoutOf(env, from);
    assert plan[l.seedsAt] == ExpectedAt(env, clock, sheet, from, l.seedsAt);
  }

  /** Seed i's progress report and GenerateSeed call. */
  lemma GeneratesSeed(env: Environment, clock: Clock, sheet: AsyncSheetRepository.AsyncSheetEntity, from: nat, plan: seq<Effect>, i: nat)
    requires Follows(env, clock, sheet, from, plan)
    requires i < |LayoutOf(env, from).seeds|
    ensures var l := LayoutOf(env, from);
      && plan[l.generateBase + 2 * i] == Report(Generating(i, |l.seeds|))
      && plan[l.generateBase + 2 * i + 1] == GenerateSeed(clock.month, i, None, l.seeds[i])
  {
    var g := LayoutOf(env, from).generateBase;
    assert plan[g + 2 * i] == ExpectedAt(env, clock, sheet, from, g + 2 * i);
    assert (g + 2 * i - g) / 2 == i && (g + 2 * i - g) % 2 == 0;
    assert plan[g + 2 * i + 1] == ExpectedAt(env, clock, sheet, from, g + 2 * i + 1);
    assert (g + 2 * i + 1 - g) / 2 == i && (g + 2 * i + 1 - g) % 2 == 1;
  }

  /** Every GenerateSeed of the run is the one of its own set. */
  lemma GeneratesNothingElse(env: Environment, clock: Clock, sheet: AsyncSheetRepository.AsyncSheetEntity, from: nat, plan: seq<Effect>)
    requires Follows(env, clock, sheet, from, plan)
    ensures var l := LayoutOf(env, from);
      forall p :: from <= p < |plan| && plan[p].GenerateSeed? ==> p == l.generateBase + 2 * plan[p].index + 1
  {
  }

  /** The progress reports of the old sheet's stage and of the folder's creation, in place. */
  lemma ReportsOldStage(env: Environment, clock: Clock, sheet: AsyncSheetRepository.AsyncSheetEntity, from: nat, plan: seq<Effect>)
    requires Follows(env, clock, sheet, from, plan)
    ensures var l := LayoutOf(env, from);
      && plan[from + 1] == Report(Locking)
      && plan[from + 3] == Report(PublicLogs)
      && plan[from + 5 + |l.listing|] == Report(PublishingLogs)
      && plan[l.folderAt - 1] == Report(CreatingFolder)
  {
    var l := LayoutOf(env, from);
    assert plan[from + 1] == ExpectedAt(env, clock, sheet, from, from + 1);
    assert plan[from + 3] == ExpectedAt(env, clock, sheet, from, from + 3);
    assert plan[from + 5 + |l.listing|] == ExpectedAt(env, clock, sheet, from, from + 5 + |l.listing|);
    assert plan[l.folderAt - 1] == ExpectedAt(env, clock, sheet, from, l.folderAt - 1);
  }

  /** The progress reports around the new sheet, in place. */
  lemma ReportsNewSheet(env: Environment, clock: Clock, sheet: AsyncSheetRepository.AsyncSheetEntity, from: nat, plan: seq<Effect>)
    requires Follows(env, clock, sheet, from, plan)
    ensures var l := LayoutOf(env, from);
      && plan[l.copyAt - 1] == Report(CreatingSheet)
      && plan[l.copyAt + 1] == Report(UpdatingSheet)
      && plan[l.copyAt + 3] == Report(PublicSheet)
  {
    var l := LayoutOf(env, from);
    assert plan[l.copyAt - 1] == ExpectedAt(env, clock, sheet, from, l.copyAt - 1);
    assert plan[l.copyAt + 1] == ExpectedAt(env, clock, sheet, from, l.copyAt + 1);
    assert plan[l.copyAt + 3] == ExpectedAt(env, clock, sheet, from, l.copyAt + 3);
  }

  /**
   * Set k is uploaded in one block of six calls: a progress report, the patch, a public read
   * grant on the patch, the hash icon, a grant on the icon, and the spoiler log, which gets
   * no grant. The files are the ones the k-th GenerateSeed returned, the folder the new one.
   */
  lemma UploadsEachSet(env: Environment, clock: Clock, sheet: AsyncSheetRepository.AsyncSheetEntity, from: nat, plan: seq<Effect>, k: nat)
    requires Follows(env, clock, sheet, from, plan)
    requires k < |LayoutOf(env, from).seeds|
    ensures var l := LayoutOf(env, from);
      var b := l.uploadBase + 6 * k;
      var files := env.pathsAt(l.generateBase + 2 * k + 1);
      var folderId := env.idAt(l.folderAt);
      && plan[b] == Report(Uploading(k + 1, |l.seeds|))
      && plan[b + 1] == Upload(files.patchPath, folderId, Patch)
      && plan[b + 2] == CreatePermission(env.idAt(b + 1), Reader)
      && plan[b + 3] == Upload(files.hashIconPath, folderId, HashIcon)
      && plan[b + 4] == CreatePermission(env.idAt(b + 3), Reader)
      && plan[b + 5] == Upload(files.spoilerLogPath, folderId, SpoilerLog)
  {
    var l := LayoutOf(env, from);
    var b := l.uploadBase + 6 * k;
    forall d | 0 <= d < 6
      ensures plan[b + d] == UploadCall(env, from, k, d)
    {
      assert plan[b + d] == ExpectedAt(env, clock, sheet, from, b + d);
      ExpectedInBlock(env, clock, sheet, from, k, d, b + d);
    }
    BlockValues(env, from, plan, k, b);
  }

  /** Six positions holding set k's calls hold the values UploadCallValues writes out. */
  lemma BlockValues(env: Environment, from: nat, plan: seq<Effect>, k: nat, b: nat)
    requires k < |LayoutOf(env, from).seeds| && b == LayoutOf(env, from).uploadBase + 6 * k && b + 6 <= |plan|
    requires forall d :: 0 <= d < 6 ==> plan[b + d] == UploadCall(env, from, k, d)
    ensures var l := LayoutOf(env, from);
      var files := env.pathsAt(l.generateBase + 2 * k + 1);
      var folderId := env.idAt(l.folderAt);
      && plan[b] == Report(Uploading(k + 1, |l.seeds|))
      && plan[b + 1] == Upload(files.patchPath, folderId, Patch)
      && plan[b + 2] == CreatePermission(env.idAt(b + 1), Reader)
      && plan[b + 3] == Upload(files.hashIconPath, folderId, HashIcon)
      && plan[b + 4] == CreatePermission(env.idAt(b + 3), Reader)
      && plan[b + 5] == Upload(files.spoilerLogPath, folderId, SpoilerLog)
  {
    UploadCallValues(env, from, k);
    assert plan[b + 0] == plan[b];
  }

  /** Position uploadBase + 6k + d holds call d of set k. */
  lemma ExpectedInBlock(env: Environment, clock: Clock, sheet: AsyncSheetRepository.AsyncSheetEntity, from: nat, k: nat, d: nat, p: nat)
    requires k < |LayoutOf(env, from).seeds| && d < 6 && p == LayoutOf(env, from).uploadBase + 6 * k + d
    ensures ExpectedAt(env, clock, sheet, from, p) == UploadCall(env, from, k, d)
  {
    var u := LayoutOf(env, from).uploadBase;
    assert (p - u) / 6 == k && (p - u) % 6 == d;
  }

  /** The six calls of set k's block, written out. */
  lemma UploadCallValues(env: Environment, from: nat, k: nat)
    requires k < |LayoutOf(env, from).seeds|
    ensures var l := LayoutOf(env, from);
      var b := l.uploadBase + 6 * k;
      var files := env.pathsAt(l.generateBase + 2 * k + 1);
      var folderId := env.idAt(l.folderAt);
      && UploadCall(env, from, k, 0) == Report(Uploading(k + 1, |l.seeds|))
      && UploadCall(env, from, k, 1) == Upload(files.patchPath, folderId, Patch)
      && UploadCall(env, from, k, 2) == CreatePermission(env.idAt(b + 1), Reader)
      && UploadCall(env, from, k, 3) == Upload(files.hashIconPath, folderId, HashIcon)
      && UploadCall(env, from, k, 4) == CreatePermission(env.idAt(b + 3), Reader)
      && UploadCall(env, from, k, 5) == Upload(files.spoilerLogPath, folderId, SpoilerLog)
  {
  }

  /**
   * The generator answered set k's GenerateSeed call with the files MMRService.GenerateSeed
   * returns for the stem of that call.
   */
  predicate GeneratorAnswered(env: Environment, from: nat, cliPath: string, month: string, k: nat) {
    env.pathsAt(LayoutOf(env, from).generateBase + 2 * k + 1) == MMRService.ArtifactPaths(cliPath, Stem(month, k))
  }

  /** A month with no separator gives stems with no separator. */
  lemma StemHasNoSeparator(month: string, i: nat)
    requires Paths.Separator !in month
    ensures Paths.Separator !in Stem(month, i)
  {
    var pad := Pad2(i);
    assert forall q :: 0 <= q < |pad| ==> IsDigit(pad[q]);
    assert Stem(month, i) == month + "_" + pad;
  }

  /**
   * When the generator answers with the files it writes, the three uploads of set k (the calls
   * UploadsEachSet places in the plan) are named `<yyyy-MM>_<k:00>.mmr`, `.png` and
   * `_SpoilerLog.txt` on Drive.
   */
  lemma UploadNames(env: Environment, from: nat, cliPath: string, month: string, k: nat)
    requires k < |LayoutOf(env, from).seeds|
    requires Paths.Separator !in month && GeneratorAnswered(env, from, cliPath, month, k)
    ensures var stem := Stem(month, k);
      && UploadCall(env, from, k, 1).Upload? && DriveName(UploadCall(env, from, k, 1)) == stem + ".mmr"
      && UploadCall(env, from, k, 3).Upload? && DriveName(UploadCall(env, from, k, 3)) == stem + ".png"
      && UploadCall(env, from, k, 5).Upload? && DriveName(UploadCall(env, from, k, 5)) == stem + "_SpoilerLog.txt"
  {
    UploadCallValues(env, from, k);
    StemHasNoSeparator(month, k);
    MMRService.ArtifactFileNames(cliPath, Stem(month, k));
  }

  /**
   * When the generator answers with the files it writes, two different sets upload different
   * patch files under different Drive names.
   */
  lemma UploadedPatchesDistinct(env: Environment, from: nat, cliPath: string, month: string, j: nat, k: nat)
    requires j < k < |LayoutOf(env, from).seeds|
    requires Paths.Separator !in month
    requires GeneratorAnswered(env, from, cliPath, month, j) && GeneratorAnswered(env, from, cliPath, month, k)
    ensures && UploadCall(env, from, j, 1).Upload? && UploadCall(env, from, k, 1).Upload?
      && UploadCall(env, from, j, 1).path != UploadCall(env, from, k, 1).path
      && DriveName(UploadCall(env, from, j, 1)) != DriveName(UploadCall(env, from, k, 1))
  {
    var stemJ, stemK := Stem(month, j), Stem(month, k);
    UploadNames(env, from, cliPath, month, j);
    UploadNames(env, from, cliPath, month, k);
    UploadCallValues(env, from, j);
    UploadCallValues(env, from, k);
    StemsDistinct(month, j, k);
    StemHasNoSeparator(month, j);
    StemHasNoSeparator(month, k);
    MMRService.ArtifactPathsDiffer(cliPath, stemJ, stemK);
    MMRService.SuffixKeepsDistinct(stemJ, stemK, ".mmr");
  }

  /** Different sets have different stems. */
  lemma StemsDistinct(month: string, i: nat, j: nat)
    requires i != j
    ensures Stem(month, i) != Stem(month, j)
  {
    if Stem(month, i) == Stem(month, j) {
      StemInjective(month, i, j);
    }
  }

  /** Every upload belongs to one of the sets' blocks. */
  lemma UploadsOnlyInBlocks(env: Environment, clock: Clock, sheet: AsyncSheetRepository.AsyncSheetEntity, from: nat, plan: seq<Effect>)
    requires Follows(env, clock, sheet, from, plan)
    ensures var l := LayoutOf(env, from);
      forall p :: from <= p < |plan| && plan[p].Upload? ==> l.uploadBase <= p < l.uploadBase + 6 * |l.seeds|
  {
    var l := LayoutOf(env, from);
    forall p | from <= p < |plan| && plan[p].Upload?
      ensures l.uploadBase <= p < l.uploadBase + 6 * |l.seeds|
    {
      assert plan[p] == ExpectedAt(env, clock, sheet, from, p);
    }
  }

  /**
   * The new sheet: the folder is created after the last seed, the template copied after the
   * last upload, its rows filled with the uploaded patch and icon ids set by set, made
   * editable by anyone, and saved with the folder's id as the very last call, once.
   */
  lemma BuildsNewSheet(env: Environment, clock: Clock, sheet: AsyncSheetRepository.AsyncSheetEntity, from: nat, plan: seq<Effect>)
    requires Follows(env, clock, sheet, from, plan)
    ensures var l := LayoutOf(env, from);
      var newSheet := env.idAt(l.copyAt);
      && plan[l.folderAt] == CreateFolder(clock.month)
      && plan[l.copyAt] == CopyFile(clock.monthTitle)
      && plan[l.copyAt + 2] == BatchUpdate(newSheet, clock.day, IconIds(env, l.uploadBase, |l.seeds|), PatchIds(env, l.uploadBase, |l.seeds|))
      && plan[l.copyAt + 4] == CreatePermission(newSheet, Writer)
      && l.saveAt == |plan| - 1
      && plan[l.saveAt] == SaveSheet(newSheet, clock.now, env.idAt(l.folderAt))
      && (forall p :: from <= p < |plan| - 1 ==> !plan[p].SaveSheet?)
  {
    var l := LayoutOf(env, from);
    assert plan[l.folderAt] == ExpectedAt(env, clock, sheet, from, l.folderAt);
    assert plan[l.copyAt] == ExpectedAt(env, clock, sheet, from, l.copyAt);
    assert plan[l.copyAt + 2] == ExpectedAt(env, clock, sheet, from, l.copyAt + 2);
    assert plan[l.copyAt + 4] == ExpectedAt(env, clock, sheet, from, l.copyAt + 4);
    assert plan[l.saveAt] == ExpectedAt(env, clock, sheet, from, l.saveAt);
  }

  /**
   * The ids written into the new sheet line up with the uploads: row k gets the ids the
   * patch and icon uploads of set k (positions b + 1 and b + 3, see UploadsEachSet) returned.
   */
  lemma SheetRowsMatchUploads(env: Environment, clock: Clock, sheet: AsyncSheetRepository.AsyncSheetEntity, from: nat, plan: seq<Effect>, k: nat)
    requires Follows(env, clock, sheet, from, plan)
    requires k < |LayoutOf(env, from).seeds|
    ensures var l := LayoutOf(env, from);
      var b := l.uploadBase + 6 * k;
      var batch := plan[l.copyAt + 2];
      && batch.BatchUpdate? && |batch.patchIds| == |batch.iconIds| == |l.seeds|
      && batch.patchIds[k] == env.idAt(b + 1) && batch.iconIds[k] == env.idAt(b + 3)
  {
    var l := LayoutOf(env, from);
    assert plan[l.copyAt + 2] == ExpectedAt(env, clock, sheet, from, l.copyAt + 2);
  }

  // ---------------------------------------------------------------------------
  // The plan stage by stage, as slices: what each step of the service expects to run next

  /** The old sheet's calls after the read: lock, list, one grant per listed log, the SpoilerLogs column. */
  predicate OldStageIn(env: Environment, sheet: AsyncSheetRepository.AsyncSheetEntity, from: nat, plan: seq<Effect>) {
    var l := LayoutOf(env, from);
    var m := |l.listing|;
    && l.seedsAt <= |plan|
    && plan[from + 1..from + 5] == [Report(Locking), UpdatePermission(sheet.sheetId, Reader), Report(PublicLogs), ListFiles(sheet.folderId)]
    && (forall q :: 0 <= q < m ==> plan[from + 5 + q] == CreatePermission(l.listing[q], Reader))
    && plan[from + 5 + m..l.seedsAt] == [Report(PublishingLogs), UpdateValues(sheet.sheetId, l.listing)]
  }

  /** The seed fetch, a report and a GenerateSeed per seed, and the new folder. */
  predicate GenerationIn(env: Environment, clock: Clock, from: nat, plan: seq<Effect>) {
    var l := LayoutOf(env, from);
    && l.uploadBase <= |plan|
    && plan[l.seedsAt] == FetchSeeds(SeedCount)
    && (forall i :: 0 <= i < |l.seeds| ==>
          && plan[l.generateBase + 2 * i] == Report(Generating(i, |l.seeds|))
          && plan[l.generateBase + 2 * i + 1] == GenerateSeed(clock.month, i, None, l.seeds[i]))
  }

  /** The month's Drive folder is made right after the last seed. */
  predicate FolderIn(env: Environment, clock: Clock, from: nat, plan: seq<Effect>) {
    var l := LayoutOf(env, from);
    l.uploadBase <= |plan| && plan[l.folderAt - 1] == Report(CreatingFolder) && plan[l.folderAt] == CreateFolder(clock.month)
  }

  /** Call d of set k's block of six calls at its position, for every set. */
  predicate UploadsIn(env: Environment, from: nat, plan: seq<Effect>) {
    var l := LayoutOf(env, from);
    && l.copyAt - 1 <= |plan|
    && forall k, d :: 0 <= k < |l.seeds| && 0 <= d < 6 ==> plan[l.uploadBase + 6 * k + d] == UploadCall(env, from, k, d)
  }

  /** Set k's block of six calls, as one slice of the plan, in the terms the upload loop uses. */
  lemma UploadsInBlock(env: Environment, from: nat, plan: seq<Effect>, k: nat, b: nat, folderId: string,
                       files: MMRService.SeedPaths, progress: nat, count: nat)
    requires UploadsIn(env, from, plan)
    requires k < |LayoutOf(env, from).seeds| == count && progress == k + 1 && b == LayoutOf(env, from).uploadBase + 6 * k
    requires files == Generated(env, LayoutOf(env, from).generateBase, count)[k]
    requires folderId == env.idAt(LayoutOf(env, from).folderAt)
    ensures b + 6 <= |plan| && plan[b..b + 6] == SetBlock(env, b, folderId, files, progress, count)
  {
    var block := SetBlock(env, b, folderId, files, progress, count);
    forall d | 0 <= d < 6
      ensures plan[b + d] == block[d]
    {
      SetBlockIsUploadCall(env, from, k, d, b, folderId, files, count);
    }
    SliceOf(plan, b, block);
  }

  /** A slice of `plan` is `block` when they agree position by position. */
  lemma SliceOf(plan: seq<Effect>, b: nat, block: seq<Effect>)
    requires b + |block| <= |plan| && forall d :: 0 <= d < |block| ==> plan[b + d] == block[d]
    ensures plan[b..b + |block|] == block
  {
  }

  /** The last seven calls: the new sheet from the template, its contents, its grant and the Save. */
  predicate NewSheetIn(env: Environment, clock: Clock, from: nat, plan: seq<Effect>) {
    var l := LayoutOf(env, from);
    var newSheet := env.idAt(l.copyAt);
    && |plan| == l.saveAt + 1
    && plan[l.copyAt - 1] == Report(CreatingSheet)
    && plan[l.copyAt] == CopyFile(clock.monthTitle)
    && plan[l.copyAt + 1] == Report(UpdatingSheet)
    && plan[l.copyAt + 2] == BatchUpdate(newSheet, clock.day, IconIds(env, l.uploadBase, |l.seeds|), PatchIds(env, l.uploadBase, |l.seeds|))
    && plan[l.copyAt + 3] == Report(PublicSheet)
    && plan[l.copyAt + 4] == CreatePermission(newSheet, Writer)
    && plan[l.saveAt] == SaveSheet(newSheet, clock.now, env.idAt(l.folderAt))
  }

  lemma FollowsOldStage(env: Environment, clock: Clock, sheet: AsyncSheetRepository.AsyncSheetEntity, from: nat, plan: seq<Effect>)
    requires Follows(env, clock, sheet, from, plan)
    ensures OldStageIn(env, sheet, from, plan)
  {
    LocksOldSheetOnce(env, clock, sheet, from, plan);
    SharesOldLogs(env, clock, sheet, from, plan);
    ReportsOldStage(env, clock, sheet, from, plan);
  }

  lemma FollowsGeneration(env: Environment, clock: Clock, sheet: AsyncSheetRepository.AsyncSheetEntity, from: nat, plan: seq<Effect>)
    requires Follows(env, clock, sheet, from, plan)
    ensures GenerationIn(env, clock, from, plan) && FolderIn(env, clock, from, plan)
  {
    GeneratesEachSeedOnce(env, clock, sheet, from, plan);
    ReportsOldStage(env, clock, sheet, from, plan);
    BuildsNewSheet(env, clock, sheet, from, plan);
  }

  lemma FollowsUploads(env: Environment, clock: Clock, sheet: AsyncSheetRepository.AsyncSheetEntity, from: nat, plan: seq<Effect>)
    requires Follows(env, clock, sheet, from, plan)
    ensures UploadsIn(env, from, plan)
  {
    var l := LayoutOf(env, from);
    forall k, d | 0 <= k < |l.seeds| && 0 <= d < 6
      ensures plan[l.uploadBase + 6 * k + d] == UploadCall(env, from, k, d)
    {
      var p := l.uploadBase + 6 * k + d;
      assert plan[p] == ExpectedAt(env, clock, sheet, from, p);
      ExpectedInBlock(env, clock, sheet, from, k, d, p);
    }
  }

  lemma FollowsNewSheet(env: Environment, clock: Clock, sheet: AsyncSheetRepository.AsyncSheetEntity, from: nat, plan: seq<Effect>)
    requires Follows(env, clock, sheet, from, plan)
    ensures NewSheetIn(env, clock, from, plan)
  {
    BuildsNewSheet(env, clock, sheet, from, plan);
    ReportsNewSheet(env, clock, sheet, from, plan);
  }

  /** The plan of a run with a latest sheet, stage by stage. */
  /** Each stage of the plan sits where the service looks for it. */
  predicate StagesIn(env: Environment, clock: Clock, sheet: AsyncSheetRepository.AsyncSheetEntity, from: nat, plan: seq<Effect>) {
    && OldStageIn(env, sheet, from, plan) && GenerationIn(env, clock, from, plan) && FolderIn(env, clock, from, plan)
    && UploadsIn(env, from, plan) && NewSheetIn(env, clock, from, plan)
  }

  /** The plan after the read: nothing without a latest sheet, otherwise the four stages in their places. */
  lemma PlanInStages(env: Environment, clock: Clock, t: seq<Effect>, latest: Option<AsyncSheetRepository.AsyncSheetEntity>)
    ensures var plan := Plan(env, clock, t, latest);
      && (latest.None? ==> |plan| == |t| + 1)
      && (latest.Some? ==> StagesIn(env, clock, latest.value, |t|, plan))
  {
    if latest.Some? {
      var sheet := latest.value;
      PlanFollowsLayout(env, clock, t, sheet);
      FollowsOldStage(env, clock, sheet, |t|, Plan(env, clock, t, latest));
      FollowsGeneration(env, clock, sheet, |t|, Plan(env, clock, t, latest));
      FollowsUploads(env, clock, sheet, |t|, Plan(env, clock, t, latest));
      FollowsNewSheet(env, clock, sheet, |t|, Plan(env, clock, t, latest));
    }
  }

  // ---------------------------------------------------------------------------
  // Faults: a run is its plan, cut off after the first call that fails.

  /** No call at a position in [from, end) fails. */
  predicate NoFault(fails: nat -> bool, from: nat, end: nat) {
    forall k :: from <= k < end ==> !fails(k)
  }

  /** The position of the first failing call of `plan` at or after `k`, or |plan| if none fails. */
  function FaultAt(fails: nat -> bool, plan: seq<Effect>, k: nat): (f: nat)
    requires k <= |plan|
    decreases |plan| - k
    ensures k <= f <= |plan|
    ensures NoFault(fails, k, f)
    ensures f < |plan| ==> fails(f)
  {
    if k == |plan| then k else if fails(k) then k else FaultAt(fails, plan, k + 1)
  }

  /** What a run whose fault-free trace is `plan` leaves behind, counting from position `from`. */
  function Executed(fails: nat -> bool, plan: seq<Effect>, from: nat): (r: seq<Effect>)
    requires from <= |plan|
    ensures r <= plan
  {
    var f := FaultAt(fails, plan, from);
    if f == |plan| then plan else plan[..f + 1]
  }

  /** A fault-free stretch does not move the first fault. */
  lemma {:induction false} FaultAtSkips(fails: nat -> bool, plan: seq<Effect>, from: nat, mid: nat)
    requires from <= mid <= |plan|
    requires NoFault(fails, from, mid)
    decreases mid - from
    ensures FaultAt(fails, plan, from) == FaultAt(fails, plan, mid)
  {
    if from < mid {
      FaultAtSkips(fails, plan, from + 1, mid);
    }
  }

  /**
   * A run that got through `[from, mid)` cleanly and then runs a stage `p` of the plan `whole`
   * ends as the stage does: the stage's own cut-off is the whole run's.
   */
  lemma ExecutedWithin(fails: nat -> bool, p: seq<Effect>, whole: seq<Effect>, from: nat, mid: nat)
    requires from <= mid <= |p| <= |whole| && whole[..|p|] == p
    requires NoFault(fails, from, mid)
    requires FaultAt(fails, p, mid) < |p|
    ensures Executed(fails, whole, from) == Executed(fails, p, mid)
    ensures FaultAt(fails, whole, from) < |whole|
  {
    FaultAtSkips(fails, whole, from, mid);
    var f := FaultAt(fails, p, mid);
    FaultAtSkips(fails, p, mid, f);
    FaultAtSkips(fails, whole, mid, f);
    assert whole[f] == p[f];
    assert whole[..f + 1] == p[..f + 1];
  }

  /** A run whose whole stretch [from, |plan|) is fault-free executes its plan in full. */
  lemma ExecutedClean(fails: nat -> bool, plan: seq<Effect>, from: nat)
    requires from <= |plan| && NoFault(fails, from, |plan|)
    ensures Executed(fails, plan, from) == plan
  {
    FaultAtSkips(fails, plan, from, |plan|);
  }

  /** A run writes nothing before the old sheet's lock call: a failure up to the lock leaves Drive and the database untouched. */
  lemma NoWriteBeforeLock(env: Environment, clock: Clock, sheet: AsyncSheetRepository.AsyncSheetEntity, from: nat, plan: seq<Effect>)
    requires Follows(env, clock, sheet, from, plan)
    ensures var run := Executed(env.fails, plan, from);
      forall p :: from <= p < |run| && IsWrite(run[p]) ==> from + 2 <= p && run[from + 2] == UpdatePermission(sheet.sheetId, Reader)
  {
    var run := Executed(env.fails, plan, from);
    forall p | from <= p < |run| && IsWrite(run[p])
      ensures from + 2 <= p && run[from + 2] == UpdatePermission(sheet.sheetId, Reader)
    {
      PrefixAt(run, plan, p);
      assert plan[p] == ExpectedAt(env, clock, sheet, from, p);
      PrefixAt(run, plan, from + 2);
      assert plan[from + 2] == ExpectedAt(env, clock, sheet, from, from + 2);
    }
  }

  /**
   * The new sheet is saved, by a SaveSheet call that does not fail, exactly when no call of
   * the run fails; a run that stops early never records a sheet.
   */
  lemma SavedIffNoFault(env: Environment, clock: Clock, sheet: AsyncSheetRepository.AsyncSheetEntity, from: nat, plan: seq<Effect>)
    requires Follows(env, clock, sheet, from, plan)
    ensures var run := Executed(env.fails, plan, from);
      (exists p :: from <= p < |run| && run[p].SaveSheet? && !env.fails(p)) <==> NoFault(env.fails, from, |plan|)
  {
    var run := Executed(env.fails, plan, from);
    var f := FaultAt(env.fails, plan, from);
    var last := |plan| - 1;
    assert plan[last] == ExpectedAt(env, clock, sheet, from, last);
    if NoFault(env.fails, from, |plan|) {
      ExecutedClean(env.fails, plan, from);
      assert run[last].SaveSheet? && !env.fails(last);
    } else {
      assert f < |plan|;
      forall p | from <= p < |run| && run[p].SaveSheet?
        ensures env.fails(p)
      {
        PrefixAt(run, plan, p);
        assert plan[p] == ExpectedAt(env, clock, sheet, from, p);
      }
    }
  }

  /** A run whose first failing call is at position f leaves the plan up to and including that call. */
  lemma ExecutedAtFault(fails: nat -> bool, plan: seq<Effect>, from: nat, f: nat)
    requires from <= f < |plan| && NoFault(fails, from, f) && fails(f)
    ensures Executed(fails, plan, from) == plan[..f + 1]
  {
    FaultAtSkips(fails, plan, from, f);
  }
}
