/**
 * MMRService: runs the MMR command-line generator for one seed, retrying with a perturbed
 * seed until it produces its three output files, and fetches batches of seed values from
 * random.org under a single-permit lock, falling back to System.Random.
 *
 * The external process, the file system and the HTTP endpoint are oracles fixed when the
 * service is built: `process(k, launch)` is what the k-th launch does, `http(k)` is the k-th
 * response, and `rng(k)` is the k-th raw draw of the service's System.Random.
 */
module MMRService {
  import opened Wrappers
  import opened Int32
  import Strings
  import Paths

  /** The three files a successful generator run leaves behind. */
  datatype SeedPaths = SeedPaths(patchPath: string, hashIconPath: string, spoilerLogPath: string)

  /**
   * One launch of the generator: `dotnet <cli>/MMR.CLI.dll` with the argument string
   * `Arguments(cliPath, stem, settingsPath, seed)`, which these three determine.
   */
  datatype Launch = Launch(stem: string, settingsPath: Option<string>, seed: int32)

  /** What one launch of `dotnet MMR.CLI.dll ...` does: it fails to start, or it exits with a code, leaving a set of files on disk. */
  datatype ProcessOutcome = StartFailed | Exited(exitCode: int, files: set<string>)

  /** The random.org response: a body, an HttpRequestException, or a TaskCanceledException (the 10-second timeout). */
  datatype HttpOutcome = Body(text: string) | RequestFailed | Cancelled

  /** The exceptions that escape GetSeed or the enumeration of its result. */
  datatype Failure = TaskCanceled | ArgumentOutOfRange | FormatFailure | OverflowFailure

  /**
   * The lazily evaluated sequence GetSeed returns: either the response lines, parsed only
   * when enumerated, or `count` calls to `Random.Next()`, also made only when enumerated.
   */
  datatype LazySeeds = RemoteLines(lines: seq<string>) | LocalDraws(count: nat)

  /** Events on the single-permit semaphore, with the request made while it is held. */
  datatype LockEvent = Acquire | Request(url: string) | Release

  // ---------------------------------------------------------------------------
  // Paths and arguments

  function OutputPath(cliPath: string, fileName: string): string {
    Paths.Combine(Paths.Combine(cliPath, "output"), fileName)
  }

  function GetSpoilerLogPath(cliPath: string, stem: string): string {
    OutputPath(cliPath, stem + "_SpoilerLog.txt")
  }

  /** The paths GenerateSeed checks and returns for a file name stem. */
  function ArtifactPaths(cliPath: string, stem: string): SeedPaths {
    var patch := OutputPath(cliPath, stem + ".mmr");
    SeedPaths(patch, Paths.ChangeExtension(patch, "png"), GetSpoilerLogPath(cliPath, stem))
  }

  /** The directory prefix every output file shares: `<cli>/output/`. */
  function OutputDir(cliPath: string): string {
    Paths.Combine(cliPath, "output") + "/"
  }

  /** A relative, non-empty file name lands directly under `<cli>/output/`. */
  lemma OutputPathShape(cliPath: string, name: string)
    requires name != [] && !Paths.IsRooted(name)
    ensures OutputPath(cliPath, name) == OutputDir(cliPath) + name
  {
    var d := Paths.Combine(cliPath, "output");
    assert d != [] && d[|d| - 1] == 't';
    assert d + "/" + name == d + ("/" + name);
  }

  lemma AppendAssoc(a: string, b: string, c: string)
    ensures (a + b) + c == a + (b + c)
  {
  }

  /** The three output paths are `<cli>/output/<stem>` with the suffixes `.mmr`, `.png` and `_SpoilerLog.txt`. */
  lemma ArtifactPathsShape(cliPath: string, stem: string)
    requires !Paths.IsRooted(stem)
    ensures ArtifactPaths(cliPath, stem) == SeedPaths(
      OutputDir(cliPath) + (stem + ".mmr"),
      OutputDir(cliPath) + (stem + ".png"),
      OutputDir(cliPath) + (stem + "_SpoilerLog.txt"))
  {
    var dir := OutputDir(cliPath);
    var mmr, log := stem + ".mmr", stem + "_SpoilerLog.txt";
    assert mmr != [] && mmr[0] == (if stem == [] then '.' else stem[0]);
    assert log != [] && log[0] == (if stem == [] then '_' else stem[0]);
    OutputPathShape(cliPath, mmr);
    OutputPathShape(cliPath, log);
    assert ".mmr" == "." + "mmr" && ".png" == "." + "png";
    AppendAssoc(dir, stem, ".mmr");
    AppendAssoc(dir, stem, ".png");
    Paths.ChangeExtensionReplaces(dir + stem, "mmr", "png");
  }

  /** The three files of one set are different files. */
  lemma ArtifactPathsDistinct(cliPath: string, stem: string)
    requires !Paths.IsRooted(stem)
    ensures var p := ArtifactPaths(cliPath, stem);
      p.patchPath != p.hashIconPath && p.hashIconPath != p.spoilerLogPath && p.patchPath != p.spoilerLogPath
  {
    ArtifactPathsShape(cliPath, stem);
    var p := ArtifactPaths(cliPath, stem);
    assert p.patchPath[|p.patchPath| - 1] == 'r';
    assert p.hashIconPath[|p.hashIconPath| - 1] == 'g';
    assert p.spoilerLogPath[|p.spoilerLogPath| - 1] == 't';
  }

  /** Different stems never share an output file. */
  lemma ArtifactPathsInjective(cliPath: string, stem1: string, stem2: string)
    requires !Paths.IsRooted(stem1) && !Paths.IsRooted(stem2)
    requires ArtifactPaths(cliPath, stem1).patchPath == ArtifactPaths(cliPath, stem2).patchPath
    ensures stem1 == stem2
  {
    ArtifactPathsShape(cliPath, stem1);
    ArtifactPathsShape(cliPath, stem2);
    MiddleEqual(OutputDir(cliPath), stem1, stem2, ".mmr");
  }

  /**
   * The names the files get on Drive (`Path.GetFileName` of each path) are the stem with the
   * suffixes `.mmr`, `.png` and `_SpoilerLog.txt`, whenever the stem holds no separator.
   */
  lemma ArtifactFileNames(cliPath: string, stem: string)
    requires Paths.Separator !in stem
    ensures var p := ArtifactPaths(cliPath, stem);
      && Paths.GetFileName(p.patchPath) == stem + ".mmr"
      && Paths.GetFileName(p.hashIconPath) == stem + ".png"
      && Paths.GetFileName(p.spoilerLogPath) == stem + "_SpoilerLog.txt"
  {
    assert !Paths.IsRooted(stem) by {
      if stem != [] {
        assert stem[0] in stem;
      }
    }
    ArtifactPathsShape(cliPath, stem);
    SuffixesHaveNoSeparator();
    OutputFileName(cliPath, stem, ".mmr");
    OutputFileName(cliPath, stem, ".png");
    OutputFileName(cliPath, stem, "_SpoilerLog.txt");
  }

  lemma SuffixesHaveNoSeparator()
    ensures Paths.Separator !in ".mmr" && Paths.Separator !in ".png" && Paths.Separator !in "_SpoilerLog.txt"
  {
    var log := "_SpoilerLog.txt";
    assert forall q :: 0 <= q < |log| ==> log[q] != Paths.Separator;
  }

  /** A file directly under `<cli>/output/` keeps its own name. */
  lemma OutputFileName(cliPath: string, stem: string, suffix: string)
    requires Paths.Separator !in stem && Paths.Separator !in suffix
    ensures Paths.GetFileName(OutputDir(cliPath) + (stem + suffix)) == stem + suffix
  {
    var dir := OutputDir(cliPath);
    assert dir[|dir| - 1] == Paths.Separator;
    Paths.FileNameOfJoin(dir, stem + suffix);
  }

  /** Appending the same suffix keeps two strings apart. */
  lemma SuffixKeepsDistinct(a: string, b: string, suffix: string)
    requires a != b
    ensures a + suffix != b + suffix
  {
    if |a| == |b| {
      var q :| 0 <= q < |a| && a[q] != b[q];
      assert (a + suffix)[q] != (b + suffix)[q];
    }
  }

  /** Different separator-free stems give different patch paths. */
  lemma ArtifactPathsDiffer(cliPath: string, stem1: string, stem2: string)
    requires Paths.Separator !in stem1 && Paths.Separator !in stem2 && stem1 != stem2
    ensures ArtifactPaths(cliPath, stem1).patchPath != ArtifactPaths(cliPath, stem2).patchPath
  {
    ArtifactFileNames(cliPath, stem1);
    ArtifactFileNames(cliPath, stem2);
    SuffixKeepsDistinct(stem1, stem2, ".mmr");
  }

  /** The part of the generator's arguments before the seed: the CLI assembly and `-output "output/<stem>.z64" -seed `. */
  function ArgumentsHead(cliPath: string, stem: string): string {
    Paths.Combine(cliPath, "MMR.CLI.dll") + " -output \"" + Paths.Combine("output", stem) + ".z64\" -seed "
  }

  /** ` -settings "<path>"`, present only when the path is neither null nor blank. */
  function SettingsSuffix(settingsPath: Option<string>): string {
    if Strings.IsNullOrWhiteSpace(settingsPath) then "" else " -settings \"" + settingsPath.value + "\""
  }

  /** The part after the seed: ` -spoiler -patch` and the settings suffix. */
  function ArgumentsTail(settingsPath: Option<string>): string {
    " -spoiler -patch" + SettingsSuffix(settingsPath)
  }

  /** The argument string of the generator process (MMRService.RunMMRCLI). */
  function Arguments(cliPath: string, stem: string, settingsPath: Option<string>, seed: int32): string {
    ArgumentsHead(cliPath, stem) + (Int32.ToString(seed) + ArgumentsTail(settingsPath))
  }

  lemma AppendRegroup(head: string, x: string, mid: string, suffix: string)
    ensures head + (x + (mid + suffix)) == head + (x + mid) + suffix
  {
  }

  /**
   * A null or blank settings path is the same as none; any other is appended, quoted, at the
   * very end of the arguments.
   */
  lemma ArgumentsSettings(cliPath: string, stem: string, settingsPath: Option<string>, seed: int32)
    ensures Strings.IsNullOrWhiteSpace(settingsPath) ==>
      Arguments(cliPath, stem, settingsPath, seed) == Arguments(cliPath, stem, None, seed)
    ensures !Strings.IsNullOrWhiteSpace(settingsPath) ==>
      Arguments(cliPath, stem, settingsPath, seed)
        == Arguments(cliPath, stem, None, seed) + " -settings \"" + settingsPath.value + "\""
  {
    var head, digits, mid := ArgumentsHead(cliPath, stem), Int32.ToString(seed), " -spoiler -patch";
    assert ArgumentsTail(None) == mid;
    if !Strings.IsNullOrWhiteSpace(settingsPath) {
      var suffix := SettingsSuffix(settingsPath);
      assert suffix == " -settings \"" + settingsPath.value + "\"";
      AppendRegroup(head, digits, mid, suffix);
    }
  }

  /** With a relative stem the output file is `output/<stem>.z64`, relative to the generator's directory. */
  lemma ArgumentsOutput(cliPath: string, stem: string)
    requires stem != [] && !Paths.IsRooted(stem)
    ensures ArgumentsHead(cliPath, stem)
      == Paths.Combine(cliPath, "MMR.CLI.dll") + " -output \"" + ("output/" + stem) + ".z64\" -seed "
  {
    assert Paths.Combine("output", stem) == "output/" + stem;
  }

  lemma MiddleEqual(head: string, x: string, y: string, tail: string)
    requires head + (x + tail) == head + (y + tail)
    ensures x == y
  {
    var a, b := head + (x + tail), head + (y + tail);
    assert |x| == |y|;
    assert x == a[|head|..|head| + |x|];
    assert y == b[|head|..|head| + |y|];
  }

  /** Each attempt's seed is written into its arguments: two attempts with different seeds launch different commands. */
  lemma ArgumentsDetermineSeed(cliPath: string, stem: string, settingsPath: Option<string>, seed1: int32, seed2: int32)
    requires Arguments(cliPath, stem, settingsPath, seed1) == Arguments(cliPath, stem, settingsPath, seed2)
    ensures seed1 == seed2
  {
    MiddleEqual(ArgumentsHead(cliPath, stem), Int32.ToString(seed1), Int32.ToString(seed2), ArgumentsTail(settingsPath));
    Int32.ToStringInjective(seed1, seed2);
  }

  // ---------------------------------------------------------------------------
  // System.Random

  /** `Random.Next(lo, hi)`: a raw draw mapped into [lo, hi); every value of the range is reachable. */
  function NextInRange(raw: int, lo: int, hi: int): (r: int)
    requires lo < hi
    ensures lo <= r < hi
    ensures lo <= raw < hi ==> r == raw
  {
    lo + (raw - lo) % (hi - lo)
  }

  /** The perturbation GenerateSeed adds after a failure: `Random.Next(int.MinValue, int.MaxValue)`. */
  function RetryOffset(raw: int): int32 {
    NextInRange(raw, MinValue, MaxValue)
  }

  /** `Random.Next()`: a value in [0, int.MaxValue). */
  function NextNonNegative(raw: int): int32 {
    NextInRange(raw, 0, MaxValue)
  }

  // ---------------------------------------------------------------------------
  // GenerateSeed, specified

  /** One attempt succeeds when the process exits with code 0 and all three output files exist. */
  predicate AttemptSucceeds(outcome: ProcessOutcome, paths: SeedPaths) {
    && outcome.Exited? && outcome.exitCode == 0
    && paths.patchPath in outcome.files
    && paths.hashIconPath in outcome.files
    && paths.spoilerLogPath in outcome.files
  }

  /** What stays fixed during one GenerateSeed call: the oracles, the stem, the settings path and the paths checked. */
  datatype RetrySetup = RetrySetup(process: (nat, Launch) -> ProcessOutcome, rng: nat -> int,
                                   stem: string, settingsPath: Option<string>, paths: SeedPaths)

  /** The outcome of the attempt launched as number `launch` with seed `seed`. */
  function AttemptOutcome(setup: RetrySetup, launch: nat, seed: int32): ProcessOutcome {
    setup.process(launch, Launch(setup.stem, setup.settingsPath, seed))
  }

  /** The outcome of a retry loop: the paths (once an attempt succeeded), the counters after it, and the seeds tried in order. */
  datatype RetryRun = RetryRun(result: Option<SeedPaths>, launches: nat, draws: nat, seeds: seq<int32>)

  /**
   * The retry loop of GenerateSeed, run for at most `fuel` attempts, starting at launch number
   * `launch` and random draw number `draw`. `result` is None when the attempts ran out (the
   * source would still be looping).
   */
  function Retry(setup: RetrySetup, launch: nat, draw: nat, seed: int32, fuel: nat): RetryRun
    decreases fuel
  {
    if fuel == 0 then RetryRun(None, launch, draw, [])
    else if AttemptSucceeds(AttemptOutcome(setup, launch, seed), setup.paths) then
      RetryRun(Some(setup.paths), launch + 1, draw, [seed])
    else
      var rest := Retry(setup, launch + 1, draw + 1, WrapAdd(seed, RetryOffset(setup.rng(draw))), fuel - 1);
      RetryRun(rest.result, rest.launches, rest.draws, [seed] + rest.seeds)
  }

  /** One step of the retry loop: the attempt either succeeds or hands over to the rest of the loop. */
  lemma RetryUnfold(setup: RetrySetup, launch: nat, draw: nat, seed: int32, fuel: nat)
    requires fuel > 0
    ensures AttemptSucceeds(AttemptOutcome(setup, launch, seed), setup.paths) ==>
      Retry(setup, launch, draw, seed, fuel) == RetryRun(Some(setup.paths), launch + 1, draw, [seed])
    ensures !AttemptSucceeds(AttemptOutcome(setup, launch, seed), setup.paths) ==>
      SameEnd(Retry(setup, launch, draw, seed, fuel),
              Retry(setup, launch + 1, draw + 1, WrapAdd(seed, RetryOffset(setup.rng(draw))), fuel - 1))
  {
  }

  /** Two runs that end the same way: same result and same counters afterwards. */
  predicate SameEnd(a: RetryRun, b: RetryRun) {
    a.result == b.result && a.launches == b.launches && a.draws == b.draws
  }

  /**
   * What the retry loop returns: only the checked paths, and only right after an attempt that
   * exited with 0 and left all three files; each failure consumed exactly one random draw; and
   * when it gives up, all `fuel` attempts were made.
   */
  lemma {:induction false} RetryCorrect(setup: RetrySetup, launch: nat, draw: nat, seed: int32, fuel: nat)
    decreases fuel
    ensures var run := Retry(setup, launch, draw, seed, fuel);
      && |run.seeds| <= fuel
      && run.launches == launch + |run.seeds|
      && (run.result.None? ==> |run.seeds| == fuel && run.draws == draw + fuel)
      && (run.result.Some? ==>
            && run.result.value == setup.paths
            && |run.seeds| > 0
            && run.draws == draw + |run.seeds| - 1
            && AttemptSucceeds(AttemptOutcome(setup, launch + |run.seeds| - 1, run.seeds[|run.seeds| - 1]), setup.paths))
  {
    if fuel > 0 && !AttemptSucceeds(AttemptOutcome(setup, launch, seed), setup.paths) {
      var next := WrapAdd(seed, RetryOffset(setup.rng(draw)));
      RetryCorrect(setup, launch + 1, draw + 1, next, fuel - 1);
      var rest := Retry(setup, launch + 1, draw + 1, next, fuel - 1);
      var run := Retry(setup, launch, draw, seed, fuel);
      assert run.seeds == [seed] + rest.seeds;
      if run.result.Some? {
        assert run.seeds[|run.seeds| - 1] == rest.seeds[|rest.seeds| - 1];
      }
    }
  }

  /** Every attempt of `run` (started at launch number `launch`) before the last one failed, and the last one too when the run gave up. */
  predicate FailedBefore(setup: RetrySetup, launch: nat, run: RetryRun) {
    forall j :: 0 <= j < |run.seeds| && (run.result.None? || j < |run.seeds| - 1) ==>
      !AttemptSucceeds(AttemptOutcome(setup, launch + j, run.seeds[j]), setup.paths)
  }

  /** The retry loop never passes over a successful attempt. */
  lemma {:induction false} RetryFailuresBefore(setup: RetrySetup, launch: nat, draw: nat, seed: int32, fuel: nat)
    decreases fuel
    ensures FailedBefore(setup, launch, Retry(setup, launch, draw, seed, fuel))
  {
    if fuel > 0 && !AttemptSucceeds(AttemptOutcome(setup, launch, seed), setup.paths) {
      var next := WrapAdd(seed, RetryOffset(setup.rng(draw)));
      RetryFailuresBefore(setup, launch + 1, draw + 1, next, fuel - 1);
      var rest := Retry(setup, launch + 1, draw + 1, next, fuel - 1);
      var run := Retry(setup, launch, draw, seed, fuel);
      assert run.seeds == [seed] + rest.seeds && run.result == rest.result;
      forall j | 0 <= j < |run.seeds| && (run.result.None? || j < |run.seeds| - 1)
        ensures !AttemptSucceeds(AttemptOutcome(setup, launch + j, run.seeds[j]), setup.paths)
      {
        if j > 0 {
          assert run.seeds[j] == rest.seeds[j - 1] && launch + j == (launch + 1) + (j - 1);
        }
      }
    }
  }

  /**
   * The seeds tried: the first is the caller's seed, and each next one is the previous plus
   * the draw's offset in [int.MinValue, int.MaxValue), wrapped modulo 2^32.
   */
  lemma {:induction false} RetrySeeds(setup: RetrySetup, launch: nat, draw: nat, seed: int32, fuel: nat)
    decreases fuel
    ensures var run := Retry(setup, launch, draw, seed, fuel);
      && (fuel > 0 ==> |run.seeds| > 0 && run.seeds[0] == seed)
      && (forall j :: 0 <= j < |run.seeds| - 1 ==>
            run.seeds[j + 1] == WrapAdd(run.seeds[j], RetryOffset(setup.rng(draw + j))))
  {
    if fuel > 0 && !AttemptSucceeds(AttemptOutcome(setup, launch, seed), setup.paths) {
      var next := WrapAdd(seed, RetryOffset(setup.rng(draw)));
      RetrySeeds(setup, launch + 1, draw + 1, next, fuel - 1);
      var rest := Retry(setup, launch + 1, draw + 1, next, fuel - 1);
      var run := Retry(setup, launch, draw, seed, fuel);
      assert run.seeds == [seed] + rest.seeds;
      forall j | 0 <= j < |run.seeds| - 1
        ensures run.seeds[j + 1] == WrapAdd(run.seeds[j], RetryOffset(setup.rng(draw + j)))
      {
        if j > 0 {
          assert run.seeds[j] == rest.seeds[j - 1] && run.seeds[j + 1] == rest.seeds[j];
          assert draw + j == (draw + 1) + (j - 1);
        }
      }
    }
  }

  /** More attempts never change a result already found: a None only means "not finished yet". */
  lemma {:induction false} RetryFuelMonotone(setup: RetrySetup, launch: nat, draw: nat, seed: int32, fuel: nat, more: nat)
    requires fuel <= more
    requires Retry(setup, launch, draw, seed, fuel).result.Some?
    decreases fuel
    ensures Retry(setup, launch, draw, seed, more) == Retry(setup, launch, draw, seed, fuel)
  {
    if !AttemptSucceeds(AttemptOutcome(setup, launch, seed), setup.paths) {
      var next := WrapAdd(seed, RetryOffset(setup.rng(draw)));
      RetryFuelMonotone(setup, launch + 1, draw + 1, next, fuel - 1, more - 1);
    }
  }

  /**
   * The offset may be 0 (the raw draw 0 maps to it), so a failed seed can be tried again
   * at once: consecutive attempts need not use different seeds.
   */
  lemma RetryMayRepeatSeed(setup: RetrySetup, launch: nat, draw: nat, seed: int32, fuel: nat)
    requires fuel >= 2
    requires !AttemptSucceeds(AttemptOutcome(setup, launch, seed), setup.paths)
    requires setup.rng(draw) == 0
    ensures var run := Retry(setup, launch, draw, seed, fuel);
      |run.seeds| >= 2 && run.seeds[1] == run.seeds[0]
  {
    assert RetryOffset(setup.rng(draw)) == 0;
    assert WrapAdd(seed, 0) == seed;
  }

  // ---------------------------------------------------------------------------
  // GetSeed and the enumeration of its result, specified

  const RemoteOffset: int32 := 1_000_000_000

  function RandomOrgUrl(num: int32): string {
    "https://www.random.org/integers/?num=" + Int32.ToString(num)
      + "&min=-1000000000&max=1000000000&col=1&base=10&format=plain&rnd=new"
  }

  /** What GetSeed returns for a response: only an HttpRequestException falls back to System.Random. */
  function FetchResult(outcome: HttpOutcome, num: int32): Result<LazySeeds, Failure> {
    match outcome
    case Body(text) => Ok(RemoteLines(Strings.SplitNonEmpty(text, '\n')))
    case RequestFailed => if num < 0 then Err(ArgumentOutOfRange) else Ok(LocalDraws(num))
    case Cancelled => Err(TaskCanceled)
  }

  /** `int.Parse(line) + 1000000000`, in unchecked Int32 arithmetic. */
  function ParseShifted(line: string): Result<int32, Failure> {
    match Int32.Parse(line)
    case Ok(v) => Ok(WrapAdd(v, RemoteOffset))
    case Err(FormatError) => Err(FormatFailure)
    case Err(OverflowError) => Err(OverflowFailure)
  }

  /** Enumerating the response lines: each is parsed in order and the first bad line throws. */
  function ParseLines(lines: seq<string>): Result<seq<int32>, Failure> {
    if lines == [] then Ok([])
    else
      match ParseShifted(lines[0])
      case Err(e) => Err(e)
      case Ok(v) =>
        match ParseLines(lines[1..])
        case Err(e) => Err(e)
        case Ok(vs) => Ok([v] + vs)
  }

  /** Enumerating the fallback: `count` calls to `Random.Next()` starting at draw number `draw`. */
  function LocalValues(rng: nat -> int, draw: nat, count: nat): seq<int32> {
    if count == 0 then [] else LocalValues(rng, draw, count - 1) + [NextNonNegative(rng(draw + count - 1))]
  }

  /** A valid random.org value in [-10^9, 10^9] is shifted into [0, 2 * 10^9] with no Int32 overflow. */
  lemma ShiftNeverOverflows(v: int32)
    requires -1_000_000_000 <= v <= 1_000_000_000
    ensures WrapAdd(v, RemoteOffset) == v + 1_000_000_000
    ensures 0 <= WrapAdd(v, RemoteOffset) <= 2_000_000_000
  {
  }

  /** The lines of the body random.org sends for values `vs`: each value printed in decimal. */
  function AsLines(vs: seq<int32>): (lines: seq<string>)
    ensures |lines| == |vs| && forall i :: 0 <= i < |vs| ==> lines[i] == Int32.ToString(vs[i])
  {
    if vs == [] then [] else [Int32.ToString(vs[0])] + AsLines(vs[1..])
  }

  function Shifted(vs: seq<int32>): seq<int> {
    if vs == [] then [] else [vs[0] + 1_000_000_000] + Shifted(vs[1..])
  }

  /** Enumerating the printed values yields each one shifted by 10^9, in order. */
  lemma {:induction false} ParseAsLines(vs: seq<int32>)
    requires forall i :: 0 <= i < |vs| ==> -1_000_000_000 <= vs[i] <= 1_000_000_000
    ensures ParseLines(AsLines(vs)).Ok?
    ensures ParseLines(AsLines(vs)).value == Shifted(vs)
  {
    if vs != [] {
      Int32.ParseToString(vs[0]);
      ShiftNeverOverflows(vs[0]);
      ParseAsLines(vs[1..]);
      assert AsLines(vs)[1..] == AsLines(vs[1..]);
    }
  }

  /** A printed value is a non-empty line: it holds no line feed. */
  lemma PrintedValueIsLine(v: int32)
    ensures Int32.ToString(v) != [] && '\n' !in Int32.ToString(v)
  {
    var n: int := v;
    var digits := Int32.Digits(if n < 0 then -n else n);
    assert forall q :: 0 <= q < |digits| ==> Int32.IsDigit(digits[q]);
    assert Int32.ToString(v) == (if v < 0 then "-" + digits else digits);
  }

  /**
   * A response body of in-range values, one per line (with or without a final line feed),
   * is split back into those lines, and enumerating them yields each value shifted by 10^9.
   */
  lemma ParseLinesOfValues(vs: seq<int32>, num: int32)
    requires forall i :: 0 <= i < |vs| ==> -1_000_000_000 <= vs[i] <= 1_000_000_000
    ensures FetchResult(Body(Strings.Join(AsLines(vs), '\n')), num) == Ok(RemoteLines(AsLines(vs)))
    ensures FetchResult(Body(Strings.Join(AsLines(vs), '\n') + "\n"), num) == Ok(RemoteLines(AsLines(vs)))
    ensures ParseLines(AsLines(vs)).Ok? && ParseLines(AsLines(vs)).value == Shifted(vs)
  {
    var lines := AsLines(vs);
    forall i | 0 <= i < |lines|
      ensures lines[i] != [] && '\n' !in lines[i]
    {
      PrintedValueIsLine(vs[i]);
    }
    Strings.SplitJoin(lines, '\n');
    Strings.SplitJoinTerminated(lines, '\n');
    ParseAsLines(vs);
  }

  /** A successful enumeration has exactly one value per line. */
  lemma {:induction false} ParseLinesCount(lines: seq<string>)
    ensures ParseLines(lines).Ok? ==> |ParseLines(lines).value| == |lines|
  {
    if lines != [] {
      ParseLinesCount(lines[1..]);
    }
  }

  /** The enumeration succeeds exactly when every line parses: one bad line makes the whole enumeration throw. */
  lemma {:induction false} ParseLinesOk(lines: seq<string>)
    ensures ParseLines(lines).Ok? <==> forall i :: 0 <= i < |lines| ==> ParseShifted(lines[i]).Ok?
  {
    if lines != [] {
      var tail := lines[1..];
      ParseLinesOk(tail);
      if ParseLines(lines).Ok? {
        forall i | 0 <= i < |lines|
          ensures ParseShifted(lines[i]).Ok?
        {
          if i > 0 {
            assert lines[i] == tail[i - 1];
          }
        }
      } else if ParseShifted(lines[0]).Ok? {
        var j :| 0 <= j < |tail| && !ParseShifted(tail[j]).Ok?;
        assert lines[j + 1] == tail[j];
      }
    }
  }

  /** GetSeed itself never throws a parse error: malformed lines surface only later, at enumeration, where no fallback exists. */
  lemma FetchNeverParses(outcome: HttpOutcome, num: int32)
    ensures FetchResult(outcome, num) != Err(FormatFailure)
    ensures FetchResult(outcome, num) != Err(OverflowFailure)
    ensures FetchResult(outcome, num).Ok? && FetchResult(outcome, num).value.LocalDraws? ==>
      outcome == RequestFailed && FetchResult(outcome, num).value.count == num
  {
  }

  /** The fallback yields exactly `num` values, all non-negative. */
  lemma {:induction false} LocalValuesBounds(rng: nat -> int, draw: nat, num: nat)
    ensures |LocalValues(rng, draw, num)| == num
    ensures forall i :: 0 <= i < num ==> 0 <= LocalValues(rng, draw, num)[i] < MaxValue
  {
    if num > 0 {
      LocalValuesBounds(rng, draw, num - 1);
    }
  }

  /**
   * The remote path does not promise `num` values: a response with one line gives one value
   * although ten were asked for.
   */
  lemma RemoteCountNeedNotMatch()
    ensures FetchResult(Body("7\n"), 10) == Ok(RemoteLines(["7"]))
  {
    var text := "7\n";
    assert text[0] == '7' && text[1] == '\n' && text[1..][1..] == [];
    assert [] + [text[0]] == ['7'];
    assert Strings.SplitFrom(text[1..][1..], '\n', []) == [];
    assert Strings.SplitFrom(text[1..], '\n', ['7']) == [['7']] + [];
    assert Strings.SplitNonEmpty(text, '\n') == ["7"];
  }

  /** The lock log of a service that only ever ran whole GetSeed calls: Acquire, Request, Release, repeated. */
  ghost predicate Serialized(log: seq<LockEvent>) {
    |log| % 3 == 0
    && forall k :: 0 <= k < |log| / 3 ==>
         log[3 * k] == Acquire && log[3 * k + 1].Request? && log[3 * k + 2] == Release
  }

  // ---------------------------------------------------------------------------
  // The service

  class MMRService {
    const cliPath: string
    const process: (nat, Launch) -> ProcessOutcome
    const rng: nat -> int
    const http: nat -> HttpOutcome

    /** Number of generator launches, random draws and HTTP requests so far. */
    var launches: nat
    var draws: nat
    var requests: nat

    /** The SemaphoreSlim(1, 1): true when its one permit is free. */
    var semaphoreFree: bool
    ghost var lockLog: seq<LockEvent>

    /** Between calls the permit is free and no request overlaps another. */
    ghost predicate Valid()
      reads this
    {
      semaphoreFree && Serialized(lockLog)
    }

    constructor (cliPath: string, process: (nat, Launch) -> ProcessOutcome, rng: nat -> int, http: nat -> HttpOutcome)
      ensures Valid() && lockLog == []
      ensures this.cliPath == cliPath && this.process == process && this.rng == rng && this.http == http
      ensures launches == 0 && draws == 0 && requests == 0
    {
      this.cliPath := cliPath;
      this.process := process;
      this.rng := rng;
      this.http := http;
      launches, draws, requests := 0, 0, 0;
      semaphoreFree := true;
      lockLog := [];
    }

    /**
     * GenerateSeed, with the source's unbounded loop cut off after `maxAttempts` attempts
     * (None: still retrying then).
     */
    method GenerateSeed(stem: string, settingsPath: Option<string>, seed: int32, maxAttempts: nat)
      returns (r: Option<SeedPaths>)
      modifies this`launches, this`draws
      ensures var run := Retry(RetrySetup(process, rng, stem, settingsPath, ArtifactPaths(cliPath, stem)),
                               old(launches), old(draws), seed, maxAttempts);
        r == run.result && launches == run.launches && draws == run.draws
    {
      // the three paths depend only on the stem: the source recomputes the same values each attempt
      var paths := ArtifactPaths(cliPath, stem);
      r := RetryLoop(stem, settingsPath, paths, seed, maxAttempts);
    }

    /** The loop of GenerateSeed, checking for the files `paths` after each exit code 0. */
    method RetryLoop(stem: string, settingsPath: Option<string>, paths: SeedPaths, seed: int32, maxAttempts: nat)
      returns (r: Option<SeedPaths>)
      modifies this`launches, this`draws
      ensures var run := Retry(RetrySetup(process, rng, stem, settingsPath, paths), old(launches), old(draws), seed, maxAttempts);
        r == run.result && launches == run.launches && draws == run.draws
    {
      ghost var setup := RetrySetup(process, rng, stem, settingsPath, paths);
      ghost var whole := Retry(setup, launches, draws, seed, maxAttempts);
      var success := false;
      var left := maxAttempts;
      var current := seed;
      var launch, draw := launches, draws;
      while !success && left > 0
        invariant !success
        invariant SameEnd(whole, Retry(setup, launch, draw, current, left))
      {
        RetryUnfold(setup, launch, draw, current, left);
        // RunMMRCLI; an exception while starting the process is caught and counts as a failure
        var outcome := process(launch, Launch(stem, settingsPath, current));
        launch, left := launch + 1, left - 1;
        success := outcome.Exited? && outcome.exitCode == 0;
        if success {
          if paths.patchPath in outcome.files && paths.hashIconPath in outcome.files && paths.spoilerLogPath in outcome.files {
            launches, draws := launch, draw;
            return Some(paths);
          } else {
            success := false;
          }
        }
        if !success {
          current := WrapAdd(current, RetryOffset(rng(draw)));
          draw := draw + 1;
        }
      }
      // `success` is still false here: the loop of the source never ends this way, and its
      // trailing throw is unreachable; only the attempt bound of the model ends it
      assert left == 0;
      launches, draws := launch, draw;
      return None;
    }

    /**
     * GetSeed: takes the permit, makes one request, and releases the permit on every path,
     * including the TaskCanceledException and ArgumentOutOfRangeException that escape.
     */
    method GetSeed(num: int32) returns (r: Result<LazySeeds, Failure>)
      requires Valid()
      modifies this`semaphoreFree, this`requests, this`lockLog
      ensures Valid()
      ensures lockLog == old(lockLog) + [Acquire, Request(RandomOrgUrl(num)), Release]
      ensures requests == old(requests) + 1
      ensures r == FetchResult(http(old(requests)), num)
    {
      semaphoreFree := false;
      lockLog := lockLog + [Acquire];
      var seeds: Result<LazySeeds, Failure>;
      // try
      lockLog := lockLog + [Request(RandomOrgUrl(num))];
      var response := http(requests);
      requests := requests + 1;
      match response {
        case Body(text) =>
          seeds := Ok(RemoteLines(Strings.SplitNonEmpty(text, '\n')));
        case RequestFailed =>
          // catch (HttpRequestException): Enumerable.Range rejects a negative count at once
          seeds := if num < 0 then Err(ArgumentOutOfRange) else Ok(LocalDraws(num));
        case Cancelled =>
          seeds := Err(TaskCanceled);
      }
      // finally
      semaphoreFree := true;
      lockLog := lockLog + [Release];
      assert lockLog == old(lockLog) + [Acquire, Request(RandomOrgUrl(num)), Release];
      SerializedAppend(old(lockLog), RandomOrgUrl(num));
      return seeds;
    }

    /** Enumerating GetSeed's result (the caller's ToList): parses the lines, or draws from System.Random. */
    method ToList(seeds: LazySeeds) returns (r: Result<seq<int32>, Failure>)
      modifies this`draws
      ensures seeds.RemoteLines? ==> r == ParseLines(seeds.lines) && draws == old(draws)
      ensures seeds.LocalDraws? ==> r == Ok(LocalValues(rng, old(draws), seeds.count)) && draws == old(draws) + seeds.count
    {
      match seeds
      case RemoteLines(lines) =>
        var values: seq<int32> := [];
        var i := 0;
        PrependStart(lines);
        while i < |lines|
          invariant 0 <= i <= |lines| && draws == old(draws)
          invariant ParseLines(lines) == Prepend(values, ParseLines(lines[i..]))
        {
          var v := ParseShifted(lines[i]);
          PrependStep(lines, i, values);
          if v.Err? {
            return Err(v.error);
          }
          values := values + [v.value];
          i := i + 1;
        }
        assert lines[i..] == [];
        assert values + [] == values;
        return Ok(values);
      case LocalDraws(count) =>
        var values: seq<int32> := [];
        var i := 0;
        while i < count
          invariant 0 <= i <= count && draws == old(draws) + i
          invariant values == LocalValues(rng, old(draws), i)
        {
          values := values + [NextNonNegative(rng(draws))];
          draws := draws + 1;
          i := i + 1;
        }
        return Ok(values);
    }
  }

  /** `values` followed by the outcome of enumerating the rest. */
  function Prepend(values: seq<int32>, rest: Result<seq<int32>, Failure>): Result<seq<int32>, Failure> {
    match rest
    case Ok(vs) => Ok(values + vs)
    case Err(e) => Err(e)
  }

  lemma PrependStart(lines: seq<string>)
    ensures ParseLines(lines) == Prepend([], ParseLines(lines[0..]))
  {
    assert lines[0..] == lines;
    match ParseLines(lines) {
      case Ok(vs) => assert [] + vs == vs;
      case Err(_) =>
    }
  }

  /** One more line enumerated: its value joins the prefix, or its error ends the enumeration. */
  lemma PrependStep(lines: seq<string>, i: nat, values: seq<int32>)
    requires i < |lines|
    ensures ParseShifted(lines[i]).Err? ==>
      Prepend(values, ParseLines(lines[i..])) == Err(ParseShifted(lines[i]).error)
    ensures ParseShifted(lines[i]).Ok? ==>
      Prepend(values, ParseLines(lines[i..])) == Prepend(values + [ParseShifted(lines[i]).value], ParseLines(lines[i + 1..]))
  {
    assert lines[i..][0] == lines[i] && lines[i..][1..] == lines[i + 1..];
    match ParseShifted(lines[i]) {
      case Err(e) =>
      case Ok(v) =>
        match ParseLines(lines[i + 1..]) {
          case Err(e) =>
          case Ok(vs) => assert values + ([v] + vs) == values + [v] + vs;
        }
    }
  }

  lemma SerializedAppend(log: seq<LockEvent>, url: string)
    requires Serialized(log)
    ensures Serialized(log + [Acquire, Request(url), Release])
  {
    var log' := log + [Acquire, Request(url), Release];
    forall k | 0 <= k < |log'| / 3
      ensures log'[3 * k] == Acquire && log'[3 * k + 1].Request? && log'[3 * k + 2] == Release
    {
      if k < |log| / 3 {
        assert log'[3 * k] == log[3 * k];
      }
    }
  }
}
