/**
 * AsyncGenerationService as the object the bot holds: GenerateAsyncSheet makes the calls of
 * the monthly rollover one after another, keeping the replies it needs (the old logs, the
 * seeds, the generated files, the folder, the uploaded ids, the new sheet) in local
 * variables, and stops at the first call that throws.
 *
 * Each stage method is proved against `Plan`: the calls it makes are the plan's next calls,
 * in the plan's order, and it returns `ok == false` exactly when its last call threw. The
 * whole of GenerateAsyncSheet is specified by `Run`, the plan cut off at its first failing
 * call together with the table and the result that run leaves; the lemmas after `Run` state
 * what such a run promises.
 */
module AsyncGenerationService {
  import opened Wrappers
  import opened AsyncGeneration
  import AsyncSheetRepository
  import MMRService

  /** Why GenerateAsyncSheet returned no link: the table had no sheet, or the call at `position` threw. */
  datatype Abort = NoLatestSheet | CallFailed(position: nat)

  /** What one GenerateAsyncSheet call leaves behind: the calls made, the table, and the result. */
  datatype Outcome = Outcome(trace: seq<Effect>, records: seq<AsyncSheetRepository.AsyncSheetEntity>, result: Result<string, Abort>)

  /**
   * The run of GenerateAsyncSheet from trace `t` over table `records`: the plan for the
   * latest sheet, cut off after the first call that throws, which becomes the error; a
   * run with no latest sheet ends after the read; a run in which every call succeeds
   * saves the new sheet and its folder and returns the sheet's edit link.
   */
  function Run(env: Environment, clock: Clock, t: seq<Effect>, records: seq<AsyncSheetRepository.AsyncSheetEntity>): Outcome {
    var latest := AsyncSheetRepository.GetLatest(records);
    var plan := Plan(env, clock, t, latest);
    var f := FaultAt(env.fails, plan, |t|);
    if f < |plan| then Outcome(plan[..f + 1], records, Err(CallFailed(f)))
    else if latest.None? then Outcome(plan, records, Err(NoLatestSheet))
    else
      var l := LayoutOf(env, |t|);
      Outcome(plan, AsyncSheetRepository.Save(records, env.idAt(l.copyAt), clock.now, env.idAt(l.folderAt)),
              Ok(EditUrl(env.idAt(l.copyAt))))
  }

  /** The calls `trace` are the start of the fault-free trace `whole` of a run begun at `from`, and none of that run's calls failed. */
  predicate Running(fails: nat -> bool, trace: seq<Effect>, whole: seq<Effect>, from: nat) {
    from <= |trace| <= |whole| && whole[..|trace|] == trace && NoFault(fails, from, |trace|)
  }

  /** The run begun at `from` followed `whole` and stopped at its last call, the first that threw. */
  predicate Halted(fails: nat -> bool, trace: seq<Effect>, whole: seq<Effect>, from: nat) {
    from < |trace| <= |whole| && whole[..|trace|] == trace && NoFault(fails, from, |trace| - 1) && fails(|trace| - 1)
  }

  /**
   * How a run ends: when every call of the plan succeeded, with all of it (and, with a latest
   * sheet, the save of the new sheet and its folder); otherwise at its first failing call.
   */
  lemma RunEnds(env: Environment, clock: Clock, t: seq<Effect>, records: seq<AsyncSheetRepository.AsyncSheetEntity>,
                latest: Option<AsyncSheetRepository.AsyncSheetEntity>, whole: seq<Effect>, trace: seq<Effect>,
                ok: bool, newSheetId: string, folderId: string, out: Outcome)
    requires latest == AsyncSheetRepository.GetLatest(records) && whole == Plan(env, clock, t, latest)
    requires ok ==> Running(env.fails, trace, whole, |t|) && |t| < |trace| == |whole|
    requires !ok ==> Halted(env.fails, trace, whole, |t|) && out == Outcome(trace, records, Err(CallFailed(|trace| - 1)))
    requires ok && latest.None? ==> out == Outcome(trace, records, Err(NoLatestSheet))
    requires ok && latest.Some? ==> var l := LayoutOf(env, |t|);
      && newSheetId == env.idAt(l.copyAt) && folderId == env.idAt(l.folderAt)
      && out == Outcome(trace, AsyncSheetRepository.Save(records, newSheetId, clock.now, folderId), Ok(EditUrl(newSheetId)))
    ensures Run(env, clock, t, records) == out
  {
    if ok {
      assert trace == whole;
      FaultAtSkips(env.fails, whole, |t|, |whole|);
    } else {
      FaultAtSkips(env.fails, whole, |t|, |trace| - 1);
    }
  }

  // ---------------------------------------------------------------------------
  // What a run promises

  /** The calls a run makes are the plan's, cut off after the first that throws. */
  lemma RunTrace(env: Environment, clock: Clock, t: seq<Effect>, records: seq<AsyncSheetRepository.AsyncSheetEntity>)
    ensures var o := Run(env, clock, t, records);
      o.trace == Executed(env.fails, Plan(env, clock, t, AsyncSheetRepository.GetLatest(records)), |t|)
      && |t| < |o.trace| && o.trace[..|t|] == t && o.trace[|t|] == ReadLatest
  {
    var plan := Plan(env, clock, t, AsyncSheetRepository.GetLatest(records));
    RunIsExecuted(env, clock, t, records);
    assert plan[..|t|] == t;
    ExecutedKeepsStart(env.fails, plan, t);
  }

  lemma RunIsExecuted(env: Environment, clock: Clock, t: seq<Effect>, records: seq<AsyncSheetRepository.AsyncSheetEntity>)
    ensures Run(env, clock, t, records).trace == Executed(env.fails, Plan(env, clock, t, AsyncSheetRepository.GetLatest(records)), |t|)
  {
    var plan := Plan(env, clock, t, AsyncSheetRepository.GetLatest(records));
    var f := FaultAt(env.fails, plan, |t|);
    assert Executed(env.fails, plan, |t|) == if f < |plan| then plan[..f + 1] else plan;
  }

  /** A run cut short after a fault still holds the calls made before it, and the first call it makes. */
  lemma ExecutedKeepsStart(fails: nat -> bool, plan: seq<Effect>, t: seq<Effect>)
    requires |t| < |plan| && plan[..|t|] == t
    ensures var run := Executed(fails, plan, |t|); |t| < |run| && run[..|t|] == t && run[|t|] == plan[|t|]
  {
    var run := Executed(fails, plan, |t|);
    assert run[..|t|] == plan[..|t|];
  }

  /** A run returns a link exactly when the table has a latest sheet and none of the plan's calls throws. */
  lemma RunSucceedsIff(env: Environment, clock: Clock, t: seq<Effect>, records: seq<AsyncSheetRepository.AsyncSheetEntity>)
    ensures Run(env, clock, t, records).result.Ok?
        <==> AsyncSheetRepository.GetLatest(records).Some?
             && NoFault(env.fails, |t|, |Plan(env, clock, t, AsyncSheetRepository.GetLatest(records))|)
  {
    var plan := Plan(env, clock, t, AsyncSheetRepository.GetLatest(records));
    var f := FaultAt(env.fails, plan, |t|);
    if f < |plan| {
      assert env.fails(f);
    }
  }

  /** A run reports the missing sheet exactly when the table is empty and the read itself succeeds. */
  lemma RunNoLatestIff(env: Environment, clock: Clock, t: seq<Effect>, records: seq<AsyncSheetRepository.AsyncSheetEntity>)
    ensures Run(env, clock, t, records).result == Err(NoLatestSheet)
        <==> records == [] && !env.fails(|t|)
  {
    var latest := AsyncSheetRepository.GetLatest(records);
    var plan := Plan(env, clock, t, latest);
    var f := FaultAt(env.fails, plan, |t|);
    if latest.None? {
      assert |plan| == |t| + 1;
      if !env.fails(|t|) {
        assert f != |t|;
      }
    }
  }

  /** A call that throws is the last call made, and every call of the run before it succeeded. */
  lemma RunFailsAtLastCall(env: Environment, clock: Clock, t: seq<Effect>, records: seq<AsyncSheetRepository.AsyncSheetEntity>)
    ensures var o := Run(env, clock, t, records);
      o.result.Err? && o.result.error.CallFailed? ==>
        var p := o.result.error.position;
        |t| <= p && p == |o.trace| - 1 && env.fails(p) && NoFault(env.fails, |t|, p)
  {
  }

  /**
   * Only a run that returns a link changes the table, by one row at the end: the sheet it
   * links to, created now.
   */
  lemma RunSavesLinkedSheet(env: Environment, clock: Clock, t: seq<Effect>, records: seq<AsyncSheetRepository.AsyncSheetEntity>)
    ensures var o := Run(env, clock, t, records);
      && (o.result.Err? ==> o.records == records)
      && (o.result.Ok? ==>
            && |o.records| == |records| + 1 && o.records[..|records|] == records
            && o.result.value == EditUrl(o.records[|records|].sheetId)
            && o.records[|records|].dateCreated == clock.now)
  {
  }

  /**
   * A run made later than every stored sheet leaves its new sheet as the table's latest, so
   * the next run locks the sheet this one linked to.
   */
  lemma NextRunFindsNewSheet(env: Environment, clock: Clock, t: seq<Effect>, records: seq<AsyncSheetRepository.AsyncSheetEntity>)
    requires forall x :: x in records ==> x.dateCreated < clock.now
    ensures var o := Run(env, clock, t, records);
      o.result.Ok? ==> var next := AsyncSheetRepository.GetLatest(o.records);
        next.Some? && o.result.value == EditUrl(next.value.sheetId) && next.value.dateCreated == clock.now
  {
    var o := Run(env, clock, t, records);
    if o.result.Ok? {
      var l := LayoutOf(env, |t|);
      AsyncSheetRepository.SaveNewerIsLatest(records, env.idAt(l.copyAt), clock.now, env.idAt(l.folderAt));
    }
  }

  /**
   * A run over a table with a latest sheet writes nothing before it locks that sheet: if a
   * call throws before the lock, Drive, Sheets and the table are untouched.
   */
  lemma RunLocksBeforeWriting(env: Environment, clock: Clock, t: seq<Effect>, records: seq<AsyncSheetRepository.AsyncSheetEntity>)
    requires records != []
    ensures var o := Run(env, clock, t, records);
      var sheet := AsyncSheetRepository.GetLatest(records).value;
      forall p :: |t| <= p < |o.trace| && IsWrite(o.trace[p]) ==>
        |t| + 2 <= p && o.trace[|t| + 2] == UpdatePermission(sheet.sheetId, Reader)
  {
    var sheet := AsyncSheetRepository.GetLatest(records).value;
    RunTrace(env, clock, t, records);
    PlanFollowsLayout(env, clock, t, sheet);
    NoWriteBeforeLock(env, clock, sheet, |t|, Plan(env, clock, t, Some(sheet)));
  }

  class Service {
    /** How the outside world answers, by trace position. */
    const env: Environment
    /** Every external call made so far, in order. */
    var trace: seq<Effect>
    /** The AsyncSheets table. */
    var records: seq<AsyncSheetRepository.AsyncSheetEntity>

    constructor(env: Environment, records: seq<AsyncSheetRepository.AsyncSheetEntity>)
      ensures this.env == env && trace == [] && this.records == records
    {
      this.env := env;
      trace := [];
      this.records := records;
    }

    /**
     * Makes the call `e`, which is the next call of `whole`; it throws when `env.fails` says
     * so for its position. After a throw the trace is what the run leaves behind.
     */
    method Call(ghost whole: seq<Effect>, ghost from: nat, e: Effect) returns (ok: bool)
      requires Running(env.fails, trace, whole, from) && |trace| < |whole| && whole[|trace|] == e
      modifies this
      ensures trace == old(trace) + [e] && records == old(records) && if ok then Running(env.fails, trace, whole, from) else Halted(env.fails, trace, whole, from)
    {
      ok := !env.fails(|trace|);
      assert trace + [e] == whole[..|trace| + 1];
      trace := trace + [e];
    }

    /** Lines 61-77: lock the old sheet (anyone with the link may only read it) and list its folder's spoiler logs. */
    method LockOldSheet(ghost whole: seq<Effect>, sheet: AsyncSheetRepository.AsyncSheetEntity, ghost from: nat)
      returns (ok: bool, oldSpoilerLogs: seq<string>)
      requires OldStageIn(env, sheet, from, whole)
      requires Running(env.fails, trace, whole, from) && |trace| == from + 1
      modifies this
      ensures records == old(records)
      ensures if ok then (Running(env.fails, trace, whole, from) && |trace| == from + 5
        && oldSpoilerLogs == LayoutOf(env, from).listing)
        else Halted(env.fails, trace, whole, from)
    {
      oldSpoilerLogs := [];
      ok := Call(whole, from, Report(Locking));
      if !ok { return; }
      ok := Call(whole, from, UpdatePermission(sheet.sheetId, Reader));
      if !ok { return; }
      ok := Call(whole, from, Report(PublicLogs));
      if !ok { return; }
      ok := Call(whole, from, ListFiles(sheet.folderId));
      if !ok { return; }
      oldSpoilerLogs := env.listingAt(|trace| - 1);
    }

    /** Lines 78-100: make each old spoiler log public, then list their links in the old sheet's SpoilerLogs column. */
    method PublishOldLogs(ghost whole: seq<Effect>, sheet: AsyncSheetRepository.AsyncSheetEntity, ghost from: nat, oldSpoilerLogs: seq<string>)
      returns (ok: bool)
      requires OldStageIn(env, sheet, from, whole) && oldSpoilerLogs == LayoutOf(env, from).listing
      requires Running(env.fails, trace, whole, from) && |trace| == from + 5
      modifies this
      ensures records == old(records)
      ensures if ok then Running(env.fails, trace, whole, from) && |trace| == LayoutOf(env, from).seedsAt
        else Halted(env.fails, trace, whole, from)
    {
      var j := 0;
      while j < |oldSpoilerLogs|
        invariant j <= |oldSpoilerLogs|
        invariant Running(env.fails, trace, whole, from) && |trace| == from + 5 + j && records == old(records)
      {
        ok := Call(whole, from, CreatePermission(oldSpoilerLogs[j], Reader));
        if !ok { return; }
        j := j + 1;
      }
      ok := Call(whole, from, Report(PublishingLogs));
      if !ok { return; }
      ok := Call(whole, from, UpdateValues(sheet.sheetId, oldSpoilerLogs));
    }

    /** Lines 103-113: fetch the seeds and generate one set per seed, in order. */
    method GenerateSets(ghost whole: seq<Effect>, clock: Clock, ghost from: nat)
      returns (ok: bool, filenames: seq<MMRService.SeedPaths>)
      requires GenerationIn(env, clock, from, whole)
      requires Running(env.fails, trace, whole, from) && |trace| == LayoutOf(env, from).seedsAt
      modifies this
      ensures records == old(records)
      ensures if ok then (var l := LayoutOf(env, from);
        && Running(env.fails, trace, whole, from) && |trace| == l.folderAt - 1
        && filenames == Generated(env, l.generateBase, |l.seeds|))
        else Halted(env.fails, trace, whole, from)
    {
      ghost var l := LayoutOf(env, from);
      filenames := [];
      ok := Call(whole, from, FetchSeeds(SeedCount));
      if !ok { return; }
      var seeds := env.seedsAt(|trace| - 1);
      var i := 0;
      while i < |seeds|
        invariant i <= |seeds|
        invariant Running(env.fails, trace, whole, from) && |trace| == l.generateBase + 2 * i && records == old(records)
        invariant filenames == Generated(env, l.generateBase, i) && seeds == l.seeds
      {
        var files;
        ok, files := GenerateSet(whole, from, clock.month, i, seeds[i], |seeds|, l.generateBase + 2 * i);
        if !ok { return; }
        filenames := filenames + [files];
        i := i + 1;
      }
    }

    /** Lines 115-125: create the month's folder under the seeds folder and keep its id. */
    method CreateMonthFolder(ghost whole: seq<Effect>, clock: Clock, ghost from: nat) returns (ok: bool, folderId: string)
      requires FolderIn(env, clock, from, whole)
      requires Running(env.fails, trace, whole, from) && |trace| == LayoutOf(env, from).folderAt - 1
      modifies this
      ensures records == old(records)
      ensures if ok then (Running(env.fails, trace, whole, from) && |trace| == LayoutOf(env, from).uploadBase
        && folderId == env.idAt(LayoutOf(env, from).folderAt))
        else Halted(env.fails, trace, whole, from)
    {
      folderId := "";
      ok := Call(whole, from, Report(CreatingFolder));
      if !ok { return; }
      ok := Call(whole, from, CreateFolder(clock.month));
      if !ok { return; }
      folderId := env.idAt(|trace| - 1);
    }

    method GenerateSet(ghost whole: seq<Effect>, ghost from: nat, driveFolderName: string, i: nat, seed: Int32.int32, count: nat, ghost p: nat)
      returns (ok: bool, files: MMRService.SeedPaths)
      requires Running(env.fails, trace, whole, from) && |trace| == p && p + 2 <= |whole|
      requires whole[p] == Report(Generating(i, count)) && whole[p + 1] == GenerateSeed(driveFolderName, i, None, seed)
      modifies this
      ensures records == old(records)
      ensures if ok then (Running(env.fails, trace, whole, from) && |trace| == p + 2 && files == env.pathsAt(p + 1))
        else Halted(env.fails, trace, whole, from)
    {
      files := env.pathsAt(0);
      ok := Call(whole, from, Report(Generating(i, count)));
      if !ok { return; }
      ok := Call(whole, from, GenerateSeed(driveFolderName, i, None, seed));
      if !ok { return; }
      files := env.pathsAt(|trace| - 1);
    }

    /** Lines 135-180, one pass of the loop: upload set k's three files and grant read access to the patch and the icon. */
    method UploadSet(ghost whole: seq<Effect>, ghost from: nat, files: MMRService.SeedPaths, folderId: string, progress: nat, count: nat,
                     ghost b: nat)
      returns (ok: bool, patchId: string, iconId: string)
      requires Running(env.fails, trace, whole, from) && |trace| == b && b + 6 <= |whole|
      requires whole[b..b + 6] == SetBlock(env, b, folderId, files, progress, count)
      modifies this
      ensures records == old(records)
      ensures if ok then (Running(env.fails, trace, whole, from) && |trace| == b + 6 && patchId == env.idAt(b + 1) && iconId == env.idAt(b + 3))
        else Halted(env.fails, trace, whole, from)
    {
      patchId, iconId := "", "";
      ok := Call(whole, from, Report(Uploading(progress, count)));
      if !ok { return; }
      ok := Call(whole, from, Upload(files.patchPath, folderId, Patch));
      if !ok { return; }
      patchId := env.idAt(|trace| - 1);
      ok := Call(whole, from, CreatePermission(patchId, Reader));
      if !ok { return; }
      ok := Call(whole, from, Upload(files.hashIconPath, folderId, HashIcon));
      if !ok { return; }
      iconId := env.idAt(|trace| - 1);
      ok := Call(whole, from, CreatePermission(iconId, Reader));
      if !ok { return; }
      ok := Call(whole, from, Upload(files.spoilerLogPath, folderId, SpoilerLog));
    }

    /** Lines 129-181: upload every set into the new folder, collecting the patch and icon ids in set order. */
    method UploadSets(ghost whole: seq<Effect>, ghost from: nat, filenames: seq<MMRService.SeedPaths>, folderId: string)
      returns (ok: bool, patchFileIds: seq<string>, hashIconIds: seq<string>)
      requires UploadsIn(env, from, whole)
      requires filenames == Generated(env, LayoutOf(env, from).generateBase, |LayoutOf(env, from).seeds|)
      requires folderId == env.idAt(LayoutOf(env, from).folderAt)
      requires Running(env.fails, trace, whole, from) && |trace| == LayoutOf(env, from).uploadBase
      modifies this
      ensures records == old(records)
      ensures if ok then (var l := LayoutOf(env, from);
        && Running(env.fails, trace, whole, from) && |trace| == l.copyAt - 1
        && patchFileIds == PatchIds(env, l.uploadBase, |l.seeds|) && hashIconIds == IconIds(env, l.uploadBase, |l.seeds|))
        else Halted(env.fails, trace, whole, from)
    {
      ghost var l := LayoutOf(env, from);
      ghost var u := l.uploadBase;
      patchFileIds, hashIconIds := [], [];
      ok := true;
      var progress := 1;
      var k := 0;
      while k < |filenames|
        invariant k <= |filenames| == |l.seeds| && progress == k + 1
        invariant Running(env.fails, trace, whole, from) && |trace| == u + 6 * k && records == old(records)
        invariant patchFileIds == PatchIds(env, u, k) && hashIconIds == IconIds(env, u, k)
      {
        UploadsInBlock(env, from, whole, k, u + 6 * k, folderId, filenames[k], progress, |filenames|);
        var patchId, iconId;
        ok, patchId, iconId := UploadSet(whole, from, filenames[k], folderId, progress, |filenames|, u + 6 * k);
        if !ok { return; }
        IdsGrow(env, u, k, patchFileIds, hashIconIds, patchId, iconId);
        patchFileIds := patchFileIds + [patchId];
        hashIconIds := hashIconIds + [iconId];
        progress := progress + 1;
        k := k + 1;
      }
    }

    /** Lines 183-190: copy the template sheet under this month's title and keep the copy's id. */
    method CopyTemplate(ghost whole: seq<Effect>, clock: Clock, ghost from: nat) returns (ok: bool, newSheetId: string)
      requires NewSheetIn(env, clock, from, whole)
      requires Running(env.fails, trace, whole, from) && |trace| == LayoutOf(env, from).copyAt - 1
      modifies this
      ensures records == old(records)
      ensures if ok then (Running(env.fails, trace, whole, from) && |trace| == LayoutOf(env, from).copyAt + 1
        && newSheetId == env.idAt(LayoutOf(env, from).copyAt))
        else Halted(env.fails, trace, whole, from)
    {
      newSheetId := "";
      ok := Call(whole, from, Report(CreatingSheet));
      if !ok { return; }
      ok := Call(whole, from, CopyFile(clock.monthTitle));
      if !ok { return; }
      newSheetId := env.idAt(|trace| - 1);
    }

    /** Lines 192-247: fill in the date, icons and patches of the new sheet, and let anyone edit it. */
    method FillNewSheet(ghost whole: seq<Effect>, clock: Clock, ghost from: nat, newSheetId: string, patchFileIds: seq<string>, hashIconIds: seq<string>)
      returns (ok: bool)
      requires NewSheetIn(env, clock, from, whole)
      requires newSheetId == env.idAt(LayoutOf(env, from).copyAt)
      requires patchFileIds == PatchIds(env, LayoutOf(env, from).uploadBase, |LayoutOf(env, from).seeds|)
      requires hashIconIds == IconIds(env, LayoutOf(env, from).uploadBase, |LayoutOf(env, from).seeds|)
      requires Running(env.fails, trace, whole, from) && |trace| == LayoutOf(env, from).copyAt + 1
      modifies this
      ensures records == old(records)
      ensures if ok then Running(env.fails, trace, whole, from) && |trace| == LayoutOf(env, from).saveAt
        else Halted(env.fails, trace, whole, from)
    {
      ok := Call(whole, from, Report(UpdatingSheet));
      if !ok { return; }
      ok := Call(whole, from, BatchUpdate(newSheetId, clock.day, hashIconIds, patchFileIds));
      if !ok { return; }
      ok := Call(whole, from, Report(PublicSheet));
      if !ok { return; }
      ok := Call(whole, from, CreatePermission(newSheetId, Writer));
    }

    /**
     * Lines 58-247: the read, then, for a table whose latest sheet is `latest`, every call of
     * the rollover; the calls are those of `whole`, which has its stages in their places.
     */
    method RunPlan(ghost whole: seq<Effect>, clock: Clock, latest: Option<AsyncSheetRepository.AsyncSheetEntity>, ghost t: seq<Effect>)
      returns (ok: bool, newSheetId: string, folderId: string)
      requires whole == Plan(env, clock, t, latest) && |trace| == |t| && Running(env.fails, trace, whole, |t|)
      modifies this
      ensures records == old(records)
      ensures ok ==> Running(env.fails, trace, whole, |t|) && |t| < |trace| == |whole|
      ensures ok && latest.Some? ==> newSheetId == env.idAt(LayoutOf(env, |t|).copyAt) && folderId == env.idAt(LayoutOf(env, |t|).folderAt)
      ensures !ok ==> Halted(env.fails, trace, whole, |t|)
    {
      var from := |t|;
      PlanInStages(env, clock, t, latest);
      newSheetId, folderId := "", "";
      ok := Call(whole, from, ReadLatest);
      if !ok || latest.None? { return; }
      var filenames, patchFileIds, hashIconIds := [], [], [];
      var oldSpoilerLogs;
      ok, oldSpoilerLogs := LockOldSheet(whole, latest.value, from);
      if ok { ok := PublishOldLogs(whole, latest.value, from, oldSpoilerLogs); }
      if ok { ok, filenames := GenerateSets(whole, clock, from); }
      if ok { ok, folderId := CreateMonthFolder(whole, clock, from); }
      if ok { ok, patchFileIds, hashIconIds := UploadSets(whole, from, filenames, folderId); }
      if ok { ok, newSheetId := CopyTemplate(whole, clock, from); }
      if ok { ok := FillNewSheet(whole, clock, from, newSheetId, patchFileIds, hashIconIds); }
      if ok { ok := Call(whole, from, SaveSheet(newSheetId, clock.now, folderId)); }
    }

    /**
     * GenerateAsyncSheet (lines 56-256): reads the latest sheet, then makes the plan's calls one
     * after another; the first call that throws ends the run and its exception propagates.
     * The trace, the table and the result are those `Run` gives.
     */
    method GenerateAsyncSheet(clock: Clock) returns (r: Result<string, Abort>)
      modifies this
      ensures Outcome(trace, records, r) == Run(env, clock, old(trace), old(records))
    {
      ghost var t, records0 := trace, records;
      var latest := AsyncSheetRepository.GetLatest(records);
      ghost var whole := Plan(env, clock, t, latest);
      var ok, newSheetId, folderId := RunPlan(whole, clock, latest, t);
      if !ok {
        // the exception of the call that threw propagates to the caller
        r := Err(CallFailed(|trace| - 1));
      } else if latest.None? {
        r := Err(NoLatestSheet);
      } else {
        records := AsyncSheetRepository.Save(records, newSheetId, clock.now, folderId);
        r := Ok(EditUrl(newSheetId));
      }
      RunEnds(env, clock, t, records0, latest, whole, trace, ok, newSheetId, folderId, Outcome(trace, records, r));
    }
  }
}
