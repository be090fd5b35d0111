/** GamePreload (jni/src/preload_function.c): the RAM budget read from
    /proc/meminfo, the directory of the game's base APK, the choice of the
    native library directory handed to the preloader, and the sum of the
    pages the preloader reports. The files and commands it reads are
    parameters: their text, or None when they cannot be opened. */
module Preload {
  import opened Text

  /** Size of the apk_path, test and target_path buffers. */
  const MaxPath := 512
  /** Size of the preload_cmd buffer. */
  const PreloadCmdSize := 600
  /** Total RAM, in MB, below which nothing is preloaded. */
  const MinTotalMb := 4000

  const MemTotalTag := "MemTotal:"
  const MemAvailableTag := "MemAvailable:"
  const TouchedTag := "Touched Pages:"

  const IntMin := -0x8000_0000
  const IntMax := 0x7fff_ffff

  // ---------------------------------------------------------------------
  // /proc/meminfo

  /** The value of the last line that reads as `<prefix> <number>`; a later
      matching line overwrites an earlier one. */
  function LastField(lines: seq<string>, prefix: string): (r: Option<int>)
    ensures r.None? <==> forall i :: 0 <= i < |lines| ==> ScanField(lines[i], prefix).None?
  {
    if |lines| == 0 then None
    else
      var last := lines[|lines| - 1];
      match ScanField(last, prefix)
      case Some(v) => Some(v)
      case None =>
        var r := LastField(lines[..|lines| - 1], prefix);
        assert forall i :: 0 <= i < |lines| - 1 ==> lines[..|lines| - 1][i] == lines[i];
        r
  }

  /** A last line that does not match leaves the value to the lines before. */
  lemma LastFieldSkips(lines: seq<string>, prefix: string)
    requires |lines| > 0 && ScanField(lines[|lines| - 1], prefix).None?
    ensures LastField(lines, prefix) == LastField(lines[..|lines| - 1], prefix)
  {
  }

  /** The last matching line gives the value, whatever came before it. */
  lemma {:induction false} LastMatchWins(lines: seq<string>, prefix: string, i: nat)
    requires i < |lines| && ScanField(lines[i], prefix).Some?
    requires forall j :: i < j < |lines| ==> ScanField(lines[j], prefix).None?
    ensures LastField(lines, prefix) == ScanField(lines[i], prefix)
    decreases |lines|
  {
    if i < |lines| - 1 {
      var init := lines[..|lines| - 1];
      LastFieldSkips(lines, prefix);
      assert init[i] == lines[i];
      forall j | i < j < |init|
        ensures ScanField(init[j], prefix).None?
      {
        assert init[j] == lines[j];
      }
      LastMatchWins(init, prefix, i);
    }
  }

  /** A kB figure as whole MB, with 0 when the line is missing. */
  function KbToMb(kb: Option<int>): (mb: int)
    ensures kb.None? ==> mb == 0
    ensures kb.Some? && kb.value >= 0 ==> 0 <= mb && mb * 1024 <= kb.value < mb * 1024 + 1024
  {
    match kb
    case None => 0
    case Some(v) => DivTrunc(v, 1024)
  }

  /** Line 40: total RAM in MB; 0 without the file or a MemTotal line. */
  function MemTotalMb(meminfo: Option<seq<string>>): (mb: int)
    ensures mb != 0 ==> meminfo.Some? && exists i :: 0 <= i < |meminfo.value| && MemTotalTag <= meminfo.value[i]
  {
    match meminfo
    case None => 0
    case Some(lines) => KbToMb(LastField(lines, MemTotalTag))
  }

  /** Line 42: available RAM in MB; 0 without the file or a MemAvailable
      line. */
  function MemAvailableMb(meminfo: Option<seq<string>>): (mb: int)
    ensures mb != 0 ==> meminfo.Some? && exists i :: 0 <= i < |meminfo.value| && MemAvailableTag <= meminfo.value[i]
  {
    match meminfo
    case None => 0
    case Some(lines) => KbToMb(LastField(lines, MemAvailableTag))
  }

  /** The total is the kB value of the last MemTotal line in whole MB. */
  lemma MemTotalFromLastLine(lines: seq<string>, i: nat, kb: nat)
    requires i < |lines| && ScanField(lines[i], MemTotalTag) == Some(kb)
    requires forall j :: i < j < |lines| ==> ScanField(lines[j], MemTotalTag).None?
    ensures var mb := MemTotalMb(Some(lines)); mb * 1024 <= kb < mb * 1024 + 1024
  {
    LastMatchWins(lines, MemTotalTag, i);
  }

  /** No line can start with both MemTotal: and MemAvailable:. */
  lemma TagsExclusive(line: string)
    requires MemTotalTag <= line
    ensures !(MemAvailableTag <= line)
  {
    assert line[3] == 'T';
  }

  /** One more line: it gives the value if it matches, else the earlier
      lines do. */
  lemma LastFieldStep(lines: seq<string>, i: nat, prefix: string)
    requires i < |lines|
    ensures LastField(lines[..i + 1], prefix)
         == if ScanField(lines[i], prefix).Some? then ScanField(lines[i], prefix)
            else LastField(lines[..i], prefix)
  {
    assert lines[..i + 1][..i] == lines[..i] && lines[..i + 1][i] == lines[i];
  }

  /** Lines 33-45: both figures start at 0; each line that reads as
      MemTotal, or failing that as MemAvailable, overwrites its figure with
      the kB value divided by 1024. */
  method ReadMeminfo(meminfo: Option<seq<string>>) returns (totalMb: int, availMb: int)
    ensures totalMb == MemTotalMb(meminfo) && availMb == MemAvailableMb(meminfo)
  {
    totalMb, availMb := 0, 0;
    if meminfo.Some? {
      var lines := meminfo.value;
      var i := 0;
      while i < |lines|
        invariant 0 <= i <= |lines|
        invariant totalMb == KbToMb(LastField(lines[..i], MemTotalTag))
        invariant availMb == KbToMb(LastField(lines[..i], MemAvailableTag))
      {
        var line := lines[i];
        LastFieldStep(lines, i, MemTotalTag);
        LastFieldStep(lines, i, MemAvailableTag);
        var total := ScanField(line, MemTotalTag);
        if total.Some? {
          TagsExclusive(line);
          totalMb := DivTrunc(total.value, 1024);
        } else {
          var avail := ScanField(line, MemAvailableTag);
          if avail.Some? {
            availMb := DivTrunc(avail.value, 1024);
          }
        }
        i := i + 1;
      }
      assert lines[..i] == lines;
    }
  }


  // ---------------------------------------------------------------------
  // Budget

  /** The budgets the preloader can be given. */
  datatype Budget = M300 | M350 | M500 | M700 | M900

  function Megabytes(b: Budget): nat {
    match b
    case M300 => 300
    case M350 => 350
    case M500 => 500
    case M700 => 700
    case M900 => 900
  }

  /** The budget as the preloader's -m argument. */
  function Arg(b: Budget): (s: string)
    ensures |s| == 4 && s[3] == 'M'
  {
    match b
    case M300 => "300M"
    case M350 => "350M"
    case M500 => "500M"
    case M700 => "700M"
    case M900 => "900M"
  }

  /** Lines 54-57: the tier for the total RAM. */
  function BaseTier(totalMb: int): (b: Budget)
    ensures totalMb >= 12000 ==> b == M900
    ensures 8000 <= totalMb < 12000 ==> b == M700
    ensures 6000 <= totalMb < 8000 ==> b == M500
    ensures totalMb < 6000 ==> b == M350
  {
    if totalMb >= 12000 then M900
    else if totalMb >= 8000 then M700
    else if totalMb >= 6000 then M500
    else M350
  }

  /** Lines 47-63: no budget below 4000 MB of RAM; otherwise the base tier,
      clamped by the available RAM. */
  function ChooseBudget(totalMb: int, availMb: int): (r: Option<Budget>)
    ensures r.None? <==> totalMb < MinTotalMb
    ensures r.Some? ==> Megabytes(r.value) <= Megabytes(BaseTier(totalMb))
    ensures r.Some? && availMb < 800 ==> r.value == M300
    ensures r.Some? && 800 <= availMb < 1200 ==> r.value == M350
    ensures r.Some? && availMb >= 1200 ==> r.value == BaseTier(totalMb)
  {
    if totalMb < MinTotalMb then None
    else if availMb < 800 then Some(M300)
    else if availMb < 1200 then Some(M350)
    else Some(BaseTier(totalMb))
  }

  /** More RAM never gives a smaller budget. */
  lemma BudgetMonotone(total1: int, avail1: int, total2: int, avail2: int)
    requires total1 <= total2 && avail1 <= avail2
    requires ChooseBudget(total1, avail1).Some?
    ensures ChooseBudget(total2, avail2).Some?
    ensures Megabytes(ChooseBudget(total1, avail1).value) <= Megabytes(ChooseBudget(total2, avail2).value)
  {
  }

  // ---------------------------------------------------------------------
  // APK directory

  /** Lines 80-87: the first line of the `cmd package path` output as fgets
      reads it into a 512-byte buffer, without its newline; None when the
      command cannot be started or prints nothing. */
  function ApkPath(output: Option<string>): (r: Option<string>)
    ensures r.Some? ==> |r.value| < MaxPath && '\n' !in r.value
    ensures r.Some? ==> output.Some? && r.value <= output.value
    ensures r.Some? && |r.value| < |output.value| && |r.value| < MaxPath - 1 ==> output.value[|r.value|] == '\n'
    ensures r.None? <==> output.None? || output.value == ""
  {
    match output
    case None => None
    case Some(text) => if text == "" then None else Some(CutAtNewline(Truncate(text, MaxPath - 1)))
  }

  /** Lines 89-91: the path up to its last '/', or None when it has none. */
  function ApkDirectory(path: string): (r: Option<string>)
    ensures r.None? <==> '/' !in path
    ensures r.Some? ==> r.value + "/" <= path && '/' !in path[|r.value| + 1..]
  {
    match LastIndexOf(path, '/')
    case None => None
    case Some(k) =>
      assert path[..k + 1] == path[..k] + "/";
      Some(path[..k])
  }

  /** strrchr and the NUL written over the slash. */
  method TrimToDirectory(path: string) returns (dir: Option<string>)
    ensures dir == ApkDirectory(path)
  {
    var k := |path|;
    while k > 0 && path[k - 1] != '/'
      invariant 0 <= k <= |path|
      invariant forall j :: k <= j < |path| ==> path[j] != '/'
      decreases k
    {
      k := k - 1;
    }
    if k == 0 {
      return None;
    }
    dir := Some(path[..k - 1]);
  }

  // ---------------------------------------------------------------------
  // Native library directory

  /** The ABI directories tried, in order. */
  const AbiDirs := ["lib/arm64-v8a", "lib/arm64"]

  /** `snprintf(test, 512, "%s/%s", apk_path, abi)`. */
  function AbiPath(apkDir: string, abi: string): (p: string)
    ensures |p| < MaxPath
    ensures p <= apkDir + "/" + abi
    ensures |apkDir| + 1 + |abi| < MaxPath ==> p == apkDir + "/" + abi
    ensures |apkDir| < MaxPath - 1 ==> |p| > |apkDir| && p[..|apkDir|] == apkDir
  {
    Truncate(apkDir + "/" + abi, MaxPath - 1)
  }

  /** A file name longer than three characters that ends in ".so". */
  predicate IsSharedObject(name: string) {
    |name| > 3 && name[|name| - 3..] == ".so"
  }

  /** The directory can be opened and one of its entries is a shared object. */
  predicate HasSharedObject(libraries: map<string, seq<string>>, dir: string) {
    dir in libraries && exists k :: 0 <= k < |libraries[dir]| && IsSharedObject(libraries[dir][k])
  }

  /** Lines 94-118: the preload target. */
  function TargetDirectory(apkDir: string, libraries: map<string, seq<string>>): (target: string)
    ensures |apkDir| < MaxPath ==> |target| < MaxPath
  {
    var first := AbiPath(apkDir, AbiDirs[0]);
    var second := AbiPath(apkDir, AbiDirs[1]);
    if HasSharedObject(libraries, first) then first
    else if HasSharedObject(libraries, second) then second
    else apkDir
  }

  /** The target is one of the ABI directories, the first one that holds a
      shared object, or else the APK directory itself. */
  lemma TargetChoice(apkDir: string, libraries: map<string, seq<string>>)
    requires |apkDir| < MaxPath - 1
    ensures var target := TargetDirectory(apkDir, libraries);
      (target == apkDir <==> forall abi :: abi in AbiDirs ==> !HasSharedObject(libraries, AbiPath(apkDir, abi)))
      && (target != apkDir ==> HasSharedObject(libraries, target))
      && (HasSharedObject(libraries, AbiPath(apkDir, AbiDirs[0])) ==> target == AbiPath(apkDir, AbiDirs[0]))
      && (!HasSharedObject(libraries, AbiPath(apkDir, AbiDirs[0])) && HasSharedObject(libraries, AbiPath(apkDir, AbiDirs[1]))
          ==> target == AbiPath(apkDir, AbiDirs[1]))
      && target in {apkDir, AbiPath(apkDir, AbiDirs[0]), AbiPath(apkDir, AbiDirs[1])}
  {
    var first := AbiPath(apkDir, AbiDirs[0]);
    var second := AbiPath(apkDir, AbiDirs[1]);
    assert |first| > |apkDir| && |second| > |apkDir|;
  }

  /** The ABI search: each directory that opens is read until the first
      shared object, and the first hit ends the search. */
  method ChooseTarget(apkDir: string, libraries: map<string, seq<string>>) returns (target: string)
    ensures target == TargetDirectory(apkDir, libraries)
  {
    var found := false;
    target := "";
    var i := 0;
    while i < |AbiDirs|
      invariant 0 <= i <= |AbiDirs| && !found
      invariant forall j :: 0 <= j < i ==> !HasSharedObject(libraries, AbiPath(apkDir, AbiDirs[j]))
    {
      var test := AbiPath(apkDir, AbiDirs[i]);
      if test in libraries {
        var names := libraries[test];
        var k := 0;
        while k < |names|
          invariant 0 <= k <= |names| && !found
          invariant forall m :: 0 <= m < k ==> !IsSharedObject(names[m])
        {
          var l := |names[k]|;
          if l > 3 && names[k][l - 3..] == ".so" {
            assert IsSharedObject(names[k]);
            target := test;
            found := true;
            break;
          }
          k := k + 1;
        }
      }
      if found {
        assert HasSharedObject(libraries, test);
        break;
      }
      i := i + 1;
    }
    if !found {
      target := apkDir;
    }
  }

  // ---------------------------------------------------------------------
  // Preloader

  /** Lines 121-123: the preloader command line. */
  function PreloaderCommand(budget: Budget, target: string): (cmd: string)
    ensures |target| < MaxPath ==> |cmd| < PreloadCmdSize
  {
    "sys.npreloader -v -t -m " + Arg(budget) + " \"" + target + "\""
  }

  /** The pages a line of preloader output reports. */
  function PagesOn(line: string): (pages: int)
    ensures pages != 0 ==> TouchedTag <= line
  {
    match ScanField(CutAtNewline(line), TouchedTag)
    case Some(v) => v
    case None => 0
  }

  /** The pages all the lines report together. */
  function TouchedTotal(lines: seq<string>): int {
    if |lines| == 0 then 0
    else TouchedTotal(lines[..|lines| - 1]) + PagesOn(lines[|lines| - 1])
  }

  /** Lines that each report a non-negative count give a non-negative total. */
  lemma {:induction false} TouchedTotalNonNegative(lines: seq<string>)
    requires forall i :: 0 <= i < |lines| ==> PagesOn(lines[i]) >= 0
    ensures TouchedTotal(lines) >= 0
  {
    if |lines| > 0 {
      var init := lines[..|lines| - 1];
      assert forall i :: 0 <= i < |init| ==> init[i] == lines[i];
      TouchedTotalNonNegative(init);
    }
  }

  /** A whole line "Touched Pages: <digits>" reports the value of the digits. */
  lemma {:induction false} TouchedLineCounts(blanks: string, d: string, tail: string)
    requires forall i :: 0 <= i < |blanks| ==> IsSpace(blanks[i])
    requires |d| > 0 && forall i :: 0 <= i < |d| ==> IsDigit(d[i])
    requires |tail| == 0 || !IsDigit(tail[0])
    requires '\n' !in TouchedTag + blanks + d + tail
    ensures PagesOn(TouchedTag + blanks + d + tail) == DecimalValue(d)
  {
    var line := TouchedTag + blanks + d + tail;
    var cut := CutAtNewline(line);
    assert cut == line;
    ScanFieldReads(TouchedTag, blanks, d, tail);
  }

  /** The total grows by one line's pages at a time. */
  lemma TouchedTotalStep(lines: seq<string>, i: nat)
    requires i < |lines|
    ensures TouchedTotal(lines[..i + 1]) == TouchedTotal(lines[..i]) + PagesOn(lines[i])
  {
    assert lines[..i + 1][..i] == lines[..i] && lines[..i + 1][i] == lines[i];
  }

  /** Lines 132-147: total_pages accumulated over the output lines. */
  method SumTouchedPages(lines: seq<string>) returns (total: int)
    ensures total == TouchedTotal(lines)
  {
    total := 0;
    var i := 0;
    while i < |lines|
      invariant 0 <= i <= |lines|
      invariant total == TouchedTotal(lines[..i])
    {
      TouchedTotalStep(lines, i);
      var line := lines[i];
      line := CutAtNewline(line);
      var pages := ScanField(line, TouchedTag);
      if pages.Some? {
        total := total + pages.value;
      }
      i := i + 1;
    }
    assert lines[..i] == lines;
  }

  /** The total of two runs of output is the sum of their totals. */
  lemma {:induction false} TouchedTotalAppend(a: seq<string>, b: seq<string>)
    ensures TouchedTotal(a + b) == TouchedTotal(a) + TouchedTotal(b)
    decreases |b|
  {
    if |b| == 0 {
      assert a + b == a;
    } else {
      var init := b[..|b| - 1];
      assert (a + b)[..|a + b| - 1] == a + init;
      TouchedTotalAppend(a, init);
    }
  }

  /** Lines that do not start with "Touched Pages:" add nothing. */
  lemma {:induction false} UntouchedLinesAddNothing(lines: seq<string>)
    requires forall i :: 0 <= i < |lines| ==> !(TouchedTag <= CutAtNewline(lines[i]))
    ensures TouchedTotal(lines) == 0
  {
    if |lines| > 0 {
      UntouchedLinesAddNothing(lines[..|lines| - 1]);
    }
  }

  /** Line 150: `(total_pages * 4) / 1024` in int arithmetic; None when
      the product overflows an int, which is undefined behaviour in C. */
  function PagesToMb(pages: int): (mb: Option<int>)
    ensures mb.Some? <==> IntMin <= pages * 4 <= IntMax
    ensures mb.Some? && pages >= 0 ==> 0 <= mb.value && mb.value * 256 <= pages < mb.value * 256 + 256
  {
    if IntMin <= pages * 4 <= IntMax then Some(DivTrunc(pages * 4, 1024)) else None
  }

  // ---------------------------------------------------------------------
  // The whole operation

  /** Where GamePreload stops, and with what. */
  datatype Outcome =
    | EmptyPackage
    | RamTooLow(totalMb: int)
    | NoApkPath(budget: Budget)
    | NoApkDirectory(budget: Budget)
    | PreloaderFailed(budget: Budget, target: string)
    | Preloaded(budget: Budget, target: string, pages: int, mb: Option<int>)

  /** The package is named, there is enough RAM and the APK directory is
      known: the preloader is started. */
  predicate RunsPreloader(package: Option<string>, meminfo: Option<seq<string>>, apkOutput: Option<string>) {
    package.Some? && package.value != ""
    && MemTotalMb(meminfo) >= MinTotalMb
    && ApkPath(apkOutput).Some? && ApkDirectory(ApkPath(apkOutput).value).Some?
  }

  /** GamePreload as a function of what it reads: the package name (None
      for NULL), /proc/meminfo, the output of `cmd package path`, the
      listings of the directories that can be opened, and the preloader's
      output (None when it cannot be started). */
  function PreloadOutcome(package: Option<string>, meminfo: Option<seq<string>>,
                          apkOutput: Option<string>, libraries: map<string, seq<string>>,
                          preloaderOutput: Option<seq<string>>): (r: Outcome)
    ensures r == EmptyPackage <==> package.None? || package.value == ""
    ensures r.RamTooLow? ==> r.totalMb < MinTotalMb
    ensures r.PreloaderFailed? || r.Preloaded? ==>
      MemTotalMb(meminfo) >= MinTotalMb
      && Some(r.budget) == ChooseBudget(MemTotalMb(meminfo), MemAvailableMb(meminfo))
      && |PreloaderCommand(r.budget, r.target)| < PreloadCmdSize
    ensures r.PreloaderFailed? || r.Preloaded? <==>
      RunsPreloader(package, meminfo, apkOutput)
    ensures r.Preloaded? <==> RunsPreloader(package, meminfo, apkOutput) && preloaderOutput.Some?
    ensures r.Preloaded? ==> r.mb == PagesToMb(r.pages)
  {
    if package.None? || package.value == "" then EmptyPackage
    else
      var totalMb := MemTotalMb(meminfo);
      var availMb := MemAvailableMb(meminfo);
      match ChooseBudget(totalMb, availMb)
      case None => RamTooLow(totalMb)
      case Some(budget) =>
        match ApkPath(apkOutput)
        case None => NoApkPath(budget)
        case Some(path) =>
          match ApkDirectory(path)
          case None => NoApkDirectory(budget)
          case Some(dir) =>
            var target := TargetDirectory(dir, libraries);
            match preloaderOutput
            case None => PreloaderFailed(budget, target)
            case Some(lines) =>
              var pages := TouchedTotal(lines);
              Preloaded(budget, target, pages, PagesToMb(pages))
  }

  /** Without a readable MemTotal line the total stays 0, and a named
      package stops there for lack of RAM. */
  lemma MissingMemTotalSkipsPreload(package: Option<string>, meminfo: Option<seq<string>>,
                                    apkOutput: Option<string>, libraries: map<string, seq<string>>,
                                    preloaderOutput: Option<seq<string>>)
    requires meminfo.Some? ==> forall i :: 0 <= i < |meminfo.value| ==> !(MemTotalTag <= meminfo.value[i])
    ensures MemTotalMb(meminfo) == 0
    ensures PreloadOutcome(package, meminfo, apkOutput, libraries, preloaderOutput) in {EmptyPackage, RamTooLow(0)}
  {
  }

  /** Lines 26-150 in order, each step by the method or function above. */
  method GamePreload(package: Option<string>, meminfo: Option<seq<string>>,
                     apkOutput: Option<string>, libraries: map<string, seq<string>>,
                     preloaderOutput: Option<seq<string>>) returns (outcome: Outcome)
    ensures outcome == PreloadOutcome(package, meminfo, apkOutput, libraries, preloaderOutput)
  {
    if package.None? || package.value == "" {
      return EmptyPackage;
    }
    var totalMb, availMb := ReadMeminfo(meminfo);
    if totalMb < MinTotalMb {
      return RamTooLow(totalMb);
    }
    var budget := ChooseBudget(totalMb, availMb).value;
    var path := ApkPath(apkOutput);
    if path.None? {
      return NoApkPath(budget);
    }
    var dir := TrimToDirectory(path.value);
    if dir.None? {
      return NoApkDirectory(budget);
    }
    var target := ChooseTarget(dir.value, libraries);
    if preloaderOutput.None? {
      return PreloaderFailed(budget, target);
    }
    var pages := SumTouchedPages(preloaderOutput.value);
    outcome := Preloaded(budget, target, pages, PagesToMb(pages));
  }
}
