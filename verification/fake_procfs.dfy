/**
 * The read-only in-memory filesystem of fakeprocfs.py, mounted over /proc in
 * a container: six files whose contents are generated once from the CPU
 * configuration, and the three FUSE callbacks getattr, readdir and read.
 */
module FakeProcFs {
  import opened Wrappers
  import opened Text

  /** errno.ENOENT */
  const ENOENT: int := 2
  /** stat.S_IFDIR | 0o755 */
  const DirMode: int := 16384 + 493
  /** stat.S_IFREG | 0o444 */
  const FileMode: int := 32768 + 292

  /**
   * The configuration values the generators print. Each text field is what
   * Python's `str` gives for the JSON value; `cores` drives the loops.
   */
  datatype CpuConfig = CpuConfig(
    cores: int,
    vendor: string,
    family: string,
    modelId: string,
    model: string,
    stepping: string,
    mhz: string,
    cacheSizeKb: string,
    flags: string,
    bogomips: string,
    addressSizes: string)

  /** How many times `range(n)` iterates. */
  function Count(n: int): nat {
    if n < 0 then 0 else n
  }

  /** Each line followed by a newline. */
  function Unlines(lines: seq<string>): string
    decreases |lines|
  {
    if lines == [] then "" else lines[0] + "\n" + Unlines(lines[1..])
  }

  // ---------------------------------------------------------------------------
  // /proc/cpuinfo
  // ---------------------------------------------------------------------------

  /** What follows a line's label: a configuration value, the processor number, or nothing. */
  datatype Field =
    | Fixed
    | ProcessorIndex
    | Cores
    | Vendor
    | Family
    | ModelId
    | Model
    | Stepping
    | Mhz
    | CacheSize
    | Flags
    | Bogomips
    | AddressSizes

  const ProcessorLabel: string := "processor\t: "
  const CoreIdLabel: string := "core id\t\t: "
  const ApicIdLabel: string := "apicid\t\t: "
  const InitialApicIdLabel: string := "initial apicid\t: "

  /** The block template of `_generate_cpuinfo`, one row per line: its label, then what fills it. */
  const CpuinfoTemplate: seq<(string, Field)> := [
    (ProcessorLabel, ProcessorIndex),
    ("vendor_id\t: ", Vendor),
    ("cpu family\t: ", Family),
    ("model\t\t: ", ModelId),
    ("model name\t: ", Model),
    ("stepping\t: ", Stepping),
    ("microcode\t: 0x5003604", Fixed),
    ("cpu MHz\t\t: ", Mhz),
    ("cache size\t: ", CacheSize),
    ("physical id\t: 0", Fixed),
    ("siblings\t: ", Cores),
    (CoreIdLabel, ProcessorIndex),
    ("cpu cores\t: ", Cores),
    (ApicIdLabel, ProcessorIndex),
    (InitialApicIdLabel, ProcessorIndex),
    ("fpu\t\t: yes", Fixed),
    ("fpu_exception\t: yes", Fixed),
    ("cpuid level\t: 22", Fixed),
    ("wp\t\t: yes", Fixed),
    ("flags\t\t: ", Flags),
    ("bugs\t\t:", Fixed),
    ("bogomips\t: ", Bogomips),
    ("clflush size\t: 64", Fixed),
    ("cache_alignment\t: 64", Fixed),
    ("address sizes\t: ", AddressSizes),
    ("power management:", Fixed)
  ]

  /** The text a field puts after its label in the block of processor `i`. */
  function FieldText(field: Field, config: CpuConfig, i: nat): string {
    match field
    case Fixed => ""
    case ProcessorIndex => Decimal(i)
    case Cores => IntString(config.cores)
    case Vendor => config.vendor
    case Family => config.family
    case ModelId => config.modelId
    case Model => config.model
    case Stepping => config.stepping
    case Mhz => config.mhz
    case CacheSize => config.cacheSizeKb + " KB"
    case Flags => config.flags
    case Bogomips => config.bogomips
    case AddressSizes => config.addressSizes
  }

  /** The lines of the block for processor `i`: each template row's label and value. */
  function CpuinfoLines(config: CpuConfig, i: nat): (lines: seq<string>) {
    seq(|CpuinfoTemplate|, k requires 0 <= k < |CpuinfoTemplate| =>
      CpuinfoTemplate[k].0 + FieldText(CpuinfoTemplate[k].1, config, i))
  }

  /** One block: its lines, then an empty line. */
  function CpuinfoBlock(config: CpuConfig, i: nat): string {
    Unlines(CpuinfoLines(config, i)) + "\n"
  }

  /** The blocks of processors 0 to n - 1, in order. */
  function CpuinfoBlocks(config: CpuConfig, n: nat): string
    decreases n
  {
    if n == 0 then "" else CpuinfoBlocks(config, n - 1) + CpuinfoBlock(config, n - 1)
  }

  /** One block per configured core. */
  function CpuinfoText(config: CpuConfig): string {
    CpuinfoBlocks(config, Count(config.cores))
  }

  /** The number a `field` + digits line holds, when it is one. */
  function FieldNumber(line: string, field: string): Option<nat> {
    if StartsWith(line, field) && |line| > |field| && AllDigits(line[|field|..])
    then Some(DigitsValue(line[|field|..]))
    else None
  }

  /** Reading the number back from a line printed as `field` + n gives n. */
  lemma FieldNumberOf(field: string, n: nat)
    ensures FieldNumber(field + Decimal(n), field) == Some(n)
  {
    var line := field + Decimal(n);
    assert line[..|field|] == field;
    assert line[|field|..] == Decimal(n);
    DecimalRoundTrip(n);
  }

  /** The processor number fills exactly four lines of the template: processor, core id, apicid, initial apicid. */
  lemma ProcessorIndexLines()
    ensures |CpuinfoTemplate| == 26
    ensures CpuinfoTemplate[0].0 == ProcessorLabel && CpuinfoTemplate[11].0 == CoreIdLabel
    ensures CpuinfoTemplate[13].0 == ApicIdLabel && CpuinfoTemplate[14].0 == InitialApicIdLabel
    ensures forall k | 0 <= k < 26 ::
              CpuinfoTemplate[k].1 == ProcessorIndex <==> k == 0 || k == 11 || k == 13 || k == 14
  {
  }

  /** In block i, every line the processor number fills (processor, core id, apicid, initial apicid) reads i. */
  lemma CpuinfoIdentifiersAreIndex(config: CpuConfig, i: nat)
    ensures forall k | 0 <= k < |CpuinfoTemplate| && CpuinfoTemplate[k].1 == ProcessorIndex ::
              FieldNumber(CpuinfoLines(config, i)[k], CpuinfoTemplate[k].0) == Some(i)
  {
    forall k | 0 <= k < |CpuinfoTemplate| && CpuinfoTemplate[k].1 == ProcessorIndex
      ensures FieldNumber(CpuinfoLines(config, i)[k], CpuinfoTemplate[k].0) == Some(i)
    {
      IdentifierLineReadsIndex(config, i, k, CpuinfoTemplate[k].0);
    }
  }

  /** A line the processor number fills reads back as that number. */
  lemma IdentifierLineReadsIndex(config: CpuConfig, i: nat, k: nat, field: string)
    requires k < |CpuinfoTemplate| && CpuinfoTemplate[k] == (field, ProcessorIndex)
    ensures FieldNumber(CpuinfoLines(config, i)[k], field) == Some(i)
  {
    assert CpuinfoLines(config, i)[k] == field + Decimal(i);
    FieldNumberOf(field, i);
  }

  /** Blocks differ only in the lines the processor number fills. */
  lemma CpuinfoBlocksShareOtherLines(config: CpuConfig, i: nat, j: nat)
    ensures |CpuinfoLines(config, i)| == |CpuinfoLines(config, j)| == |CpuinfoTemplate|
    ensures forall k | 0 <= k < |CpuinfoTemplate| && CpuinfoTemplate[k].1 != ProcessorIndex ::
              CpuinfoLines(config, i)[k] == CpuinfoLines(config, j)[k]
  {
  }

  /** Different processors get different blocks: a block starts with its own processor number. */
  lemma CpuinfoBlocksDistinct(config: CpuConfig, i: nat, j: nat)
    requires CpuinfoBlock(config, i) == CpuinfoBlock(config, j)
    ensures i == j
  {
    var xi, xj := BlockRest(config, i), BlockRest(config, j);
    BlockShape(config, i);
    BlockShape(config, j);
    PrefixCancel(ProcessorLabel, Decimal(i) + xi, Decimal(j) + xj);
    DecimalDelimited(i, j, xi, xj);
  }

  /** What follows the processor number in a block. */
  function BlockRest(config: CpuConfig, i: nat): (rest: string)
    ensures rest != [] && rest[0] == '\n'
  {
    "\n" + Unlines(CpuinfoLines(config, i)[1..]) + "\n"
  }

  /** A block is the processor label, the processor number, then the rest. */
  lemma BlockShape(config: CpuConfig, i: nat)
    ensures CpuinfoBlock(config, i) == ProcessorLabel + (Decimal(i) + BlockRest(config, i))
  {
    var lines := CpuinfoLines(config, i);
    var others := Unlines(lines[1..]);
    assert lines[0] == ProcessorLabel + Decimal(i);
    assert Unlines(lines) == lines[0] + "\n" + others;
    Regroup(ProcessorLabel, Decimal(i), "\n", others, "\n");
  }

  /** Appending block i extends the blocks below i. */
  lemma CpuinfoBlocksStep(config: CpuConfig, i: nat)
    ensures CpuinfoBlocks(config, i + 1) == CpuinfoBlocks(config, i) + CpuinfoBlock(config, i)
  {
  }

  /** `_generate_cpuinfo`: append one block per core, then encode. */
  method GenerateCpuinfo(config: CpuConfig) returns (data: seq<byte>)
    ensures data == Utf8(CpuinfoText(config))
  {
    var content := "";
    var i := 0;
    while i < config.cores
      invariant 0 <= i <= Count(config.cores)
      invariant content == CpuinfoBlocks(config, i)
    {
      CpuinfoBlocksStep(config, i);
      content := content + CpuinfoBlock(config, i);
      i := i + 1;
    }
    assert content == CpuinfoText(config);
    data := Utf8(content);
  }

  // ---------------------------------------------------------------------------
  // /proc/stat
  // ---------------------------------------------------------------------------

  /** The all-CPU line: "cpu", two spaces, ten zero counters. */
  const AggregateLine: string := "cpu  0 0 0 0 0 0 0 0 0 0\n"
  const CpuCounters: string := " 0 0 0 0 0 0 0 0 0 0\n"
  const StatTail: string :=
    "intr 0\nctxt 0\nbtime 1733673600\nprocesses 1\nprocs_running 1\nprocs_blocked 0\nsoftirq 0 0 0 0 0 0 0 0 0 0 0\n"

  /** The line of core i. */
  function CpuLine(i: nat): string {
    "cpu" + Decimal(i) + CpuCounters
  }

  /** The lines of cores 0 to n - 1, in order. */
  function CpuLines(n: nat): string
    decreases n
  {
    if n == 0 then "" else CpuLines(n - 1) + CpuLine(n - 1)
  }

  /** The aggregate line, one line per core, then the fixed counters. */
  function StatText(cores: int): string {
    AggregateLine + CpuLines(Count(cores)) + StatTail
  }

  /** Each core's line names that core, and no two cores share a line. */
  lemma CpuLinesDistinct(i: nat, j: nat)
    requires CpuLine(i) == CpuLine(j)
    ensures i == j
  {
    assert CpuLine(i) == "cpu" + (Decimal(i) + CpuCounters);
    assert CpuLine(j) == "cpu" + (Decimal(j) + CpuCounters);
    PrefixCancel("cpu", Decimal(i) + CpuCounters, Decimal(j) + CpuCounters);
    assert CpuCounters[0] == ' ';
    DecimalDelimited(i, j, CpuCounters, CpuCounters);
  }

  /** No per-core line is mistaken for the aggregate line: a digit follows "cpu". */
  lemma CpuLineIsNotAggregate(i: nat)
    ensures CpuLine(i) != AggregateLine
  {
    assert CpuLine(i)[3] == Decimal(i)[0];
    assert AggregateLine[3] == ' ';
  }

  /** Appending core i's line extends the lines of cores below i. */
  lemma CpuLinesStep(prefix: string, i: nat)
    ensures prefix + CpuLines(i + 1) == prefix + CpuLines(i) + CpuLine(i)
  {
  }

  /** `_generate_stat`: the aggregate line, a line per core, the tail, then encode. */
  method GenerateStat(cores: int) returns (data: seq<byte>)
    ensures data == Utf8(StatText(cores))
  {
    var content := AggregateLine;
    var i := 0;
    while i < cores
      invariant 0 <= i <= Count(cores)
      invariant content == AggregateLine + CpuLines(i)
    {
      CpuLinesStep(AggregateLine, i);
      content := content + CpuLine(i);
      i := i + 1;
    }
    content := content + StatTail;
    assert content == StatText(cores);
    data := Utf8(content);
  }

  // ---------------------------------------------------------------------------
  // Constant files
  // ---------------------------------------------------------------------------

  const LoadavgText: string := "0.00 0.00 0.00 1/100 1000\n"
  /** The kernel banner, in five pieces: release, builder, compiler, linker, build. */
  const VersionRelease: string := "Linux version 5.15.0-generic "
  const VersionBuilder: string := "(buildd@ubuntu) "
  const VersionCompiler: string := "(gcc (Ubuntu 11.2.0-19ubuntu1) 11.2.0, "
  const VersionLinker: string := "GNU ld (GNU Binutils for Ubuntu) 2.38) "
  const VersionBuild: string := "#72-Ubuntu SMP Fri Feb 11 17:17:17 UTC 2022\n"
  const VersionText: string := VersionRelease + VersionBuilder + VersionCompiler + VersionLinker + VersionBuild
  const UptimeText: string := "1000.00 800.00\n"

  /** Python's `s[1:]`. */
  function DropFirst(s: string): (r: string)
    ensures s != "" ==> [s[0]] + r == s
    ensures s == "" ==> r == ""
  {
    if s == "" then "" else s[1..]
  }

  const ProcPaths: seq<string> := ["/cpuinfo", "/meminfo", "/stat", "/loadavg", "/version", "/uptime"]
  const ProcNames: seq<string> := ["cpuinfo", "meminfo", "stat", "loadavg", "version", "uptime"]

  /** Each listed name is its path without the leading "/", and the other way round. */
  lemma PathsAndNames()
    ensures |ProcPaths| == |ProcNames| == 6
    ensures forall k | 0 <= k < 6 :: DropFirst(ProcPaths[k]) == ProcNames[k] && "/" + ProcNames[k] == ProcPaths[k]
  {
    assert DropFirst("/cpuinfo") == "cpuinfo";
    assert DropFirst("/meminfo") == "meminfo";
    assert DropFirst("/stat") == "stat";
    assert DropFirst("/loadavg") == "loadavg";
    assert DropFirst("/version") == "version";
    assert DropFirst("/uptime") == "uptime";
  }

  /**
   * The six files, in the order the dictionary is built. The three fixed
   * texts are ASCII, where the one-byte encoding is UTF-8 (ConstantFilesIgnoreConfig).
   */
  function ProcFiles(cpuinfo: seq<byte>, meminfo: seq<byte>, stat: seq<byte>): (files: seq<(string, seq<byte>)>)
    ensures |files| == |ProcPaths|
    ensures forall k | 0 <= k < |files| :: files[k].0 == ProcPaths[k]
  {
    [ ("/cpuinfo", cpuinfo),
      ("/meminfo", meminfo),
      ("/stat", stat),
      ("/loadavg", Ascii(LoadavgText)),
      ("/version", Ascii(VersionText)),
      ("/uptime", Ascii(UptimeText)) ]
  }

  /** The three fixed texts are ASCII. */
  lemma FixedTextsAscii()
    ensures IsAscii(LoadavgText) && IsAscii(VersionText) && IsAscii(UptimeText)
  {
    LoadavgAscii();
    VersionAscii();
    UptimeAscii();
  }

  lemma LoadavgAscii()
    ensures IsAscii(LoadavgText)
  {
  }

  /** The banner is ASCII, being made of ASCII pieces. */
  lemma VersionAscii()
    ensures IsAscii(VersionText)
  {
    VersionPiecesAscii();
    AsciiConcat5(VersionRelease, VersionBuilder, VersionCompiler, VersionLinker, VersionBuild);
  }

  /** Each piece of the banner is ASCII, one piece per lemma to keep each proof small. */
  lemma VersionPiecesAscii()
    ensures IsAscii(VersionRelease) && IsAscii(VersionBuilder) && IsAscii(VersionCompiler)
    ensures IsAscii(VersionLinker) && IsAscii(VersionBuild)
  {
    VersionReleaseAscii();
    VersionBuilderAscii();
    VersionCompilerAscii();
    VersionLinkerAscii();
    VersionBuildAscii();
  }

  lemma VersionReleaseAscii()
    ensures IsAscii(VersionRelease)
  {
  }

  lemma VersionBuilderAscii()
    ensures IsAscii(VersionBuilder)
  {
  }

  lemma VersionCompilerAscii()
    ensures IsAscii(VersionCompiler)
  {
  }

  lemma VersionLinkerAscii()
    ensures IsAscii(VersionLinker)
  {
  }

  lemma VersionBuildAscii()
    ensures IsAscii(VersionBuild)
  {
  }

  lemma UptimeAscii()
    ensures IsAscii(UptimeText)
  {
  }

  /**
   * The loadavg, version and uptime files hold the UTF-8 encoding of their
   * fixed texts, whatever the configuration the other files come from.
   */
  lemma ConstantFilesIgnoreConfig(cpuinfo: seq<byte>, meminfo: seq<byte>, stat: seq<byte>,
                                  cpuinfo': seq<byte>, meminfo': seq<byte>, stat': seq<byte>)
    ensures ProcFiles(cpuinfo, meminfo, stat)[3..] == ProcFiles(cpuinfo', meminfo', stat')[3..]
    ensures ProcFiles(cpuinfo, meminfo, stat)[3..] ==
              [("/loadavg", Utf8(LoadavgText)), ("/version", Utf8(VersionText)), ("/uptime", Utf8(UptimeText))]
  {
    FixedTextsAscii();
    AsciiIsUtf8(LoadavgText);
    AsciiIsUtf8(VersionText);
    AsciiIsUtf8(UptimeText);
  }

  // ---------------------------------------------------------------------------
  // Lookups and reads
  // ---------------------------------------------------------------------------

  /** The content stored under `path`, if any. */
  function Lookup(files: seq<(string, seq<byte>)>, path: string): (content: Option<seq<byte>>)
    ensures content.None? <==> forall k | 0 <= k < |files| :: files[k].0 != path
    ensures content.Some? ==> exists k | 0 <= k < |files| :: files[k] == (path, content.value)
    decreases |files|
  {
    if files == [] then None
    else if files[0].0 == path then Some(files[0].1)
    else
      var rest := Lookup(files[1..], path);
      assert rest.Some? ==> exists k | 0 <= k < |files| :: files[k] == (path, rest.value) by {
        if rest.Some? {
          var k :| 0 <= k < |files[1..]| && files[1..][k] == (path, rest.value);
          assert files[k + 1] == (path, rest.value);
        }
      }
      rest
  }

  /** Python's `data[offset:offset + length]` for non-negative offset and length. */
  function Slice(data: seq<byte>, offset: nat, length: nat): (r: seq<byte>)
    ensures |r| == if offset >= |data| then 0 else if length < |data| - offset then length else |data| - offset
    ensures forall k | 0 <= k < |r| :: r[k] == data[offset + k]
  {
    var start := if offset < |data| then offset else |data|;
    var stop := if offset + length < |data| then offset + length else |data|;
    data[start..stop]
  }

  /** Reading from offset 0 at least the whole size returns the whole content. */
  lemma SliceWhole(data: seq<byte>, length: nat)
    requires length >= |data|
    ensures Slice(data, 0, length) == data
  {
  }

  /** Two consecutive reads return what one read over both ranges returns. */
  lemma SliceConsecutive(data: seq<byte>, offset: nat, a: nat, b: nat)
    ensures Slice(data, offset, a) + Slice(data, offset + a, b) == Slice(data, offset, a + b)
  {
    var first, second, both := Slice(data, offset, a), Slice(data, offset + a, b), Slice(data, offset, a + b);
    assert |first + second| == |both|;
    forall k | 0 <= k < |both| ensures (first + second)[k] == both[k] {
      if k >= |first| {
        assert (first + second)[k] == second[k - |first|] == data[offset + a + (k - |first|)];
      }
    }
  }

  /** The attributes getattr reports; only regular files carry a size. */
  datatype Attr = Attr(mode: int, nlink: int, size: Option<nat>)

  class FakeProcFs {
    /** The generated files, path and content, in dictionary order. */
    const files: seq<(string, seq<byte>)>
    /** The directories: only the root. */
    const dirs: set<string>

    /** The files are the six of the dictionary, in its order, and the root is the only directory. */
    ghost predicate Valid() {
      && |files| == |ProcPaths|
      && (forall k | 0 <= k < |files| :: files[k].0 == ProcPaths[k])
      && dirs == {"/"}
    }

    /**
     * Generate every file from the configuration. The meminfo content is
     * given ready-made.
     */
    constructor (config: CpuConfig, meminfo: seq<byte>)
      ensures files == ProcFiles(Utf8(CpuinfoText(config)), meminfo, Utf8(StatText(config.cores)))
      ensures dirs == {"/"}
      ensures Valid()
    {
      var cpuinfo := GenerateCpuinfo(config);
      var stat := GenerateStat(config.cores);
      files := ProcFiles(cpuinfo, meminfo, stat);
      dirs := {"/"};
    }

    /**
     * The root is a directory (0o755, two links); a file is read-only
     * (0o444, one link) with its content's size; anything else is ENOENT.
     */
    function Getattr(path: string): (r: Result<Attr, int>)
      ensures r.Failure? <==> path !in dirs && Lookup(files, path).None?
      ensures r.Failure? ==> r.error == ENOENT
      ensures path in dirs ==> r == Success(Attr(DirMode, 2, None))
      ensures path !in dirs && r.Success? ==>
                r.value.mode == FileMode && r.value.nlink == 1 && r.value.size == Some(|Lookup(files, path).value|)
    {
      if path in dirs then Success(Attr(DirMode, 2, None))
      else match Lookup(files, path)
        case Some(content) => Success(Attr(FileMode, 1, Some(|content|)))
        case None => Failure(ENOENT)
    }

    /** `read`: ENOENT for anything but a file, else the requested slice of its content. */
    function Read(path: string, length: nat, offset: nat): (r: Result<seq<byte>, int>)
      ensures r.Failure? <==> Lookup(files, path).None?
      ensures r.Failure? ==> r.error == ENOENT
      ensures r.Success? ==>
                var data := Lookup(files, path).value;
                && |r.value| == (if offset >= |data| then 0 else if length < |data| - offset then length else |data| - offset)
                && forall k | 0 <= k < |r.value| :: r.value[k] == data[offset + k]
    {
      match Lookup(files, path)
      case Some(data) => Success(Slice(data, offset, length))
      case None => Failure(ENOENT)
    }

    /** A file read from offset 0 for the size getattr reports returns its whole content. */
    lemma GetattrSizeReadsWhole(path: string)
      requires Getattr(path).Success? && Getattr(path).value.size.Some?
      ensures Read(path, Getattr(path).value.size.value, 0) == Success(Lookup(files, path).value)
    {
      SliceWhole(Lookup(files, path).value, Getattr(path).value.size.value);
    }

    /** `readdir`: only the root can be listed: ".", "..", then each file's path without its first character. */
    method Readdir(path: string) returns (r: Result<seq<string>, int>)
      ensures path != "/" ==> r == Failure(ENOENT)
      ensures path == "/" ==> r.Success? && |r.value| == 2 + |files| && r.value[..2] == [".", ".."]
      ensures path == "/" ==> forall k | 0 <= k < |files| :: r.value[2 + k] == DropFirst(files[k].0)
      ensures path == "/" && Valid() ==> r == Success([".", ".."] + ProcNames)
    {
      if path != "/" {
        return Failure(ENOENT);
      }
      var dirents := [".", ".."];
      var i := 0;
      while i < |files|
        invariant 0 <= i <= |files|
        invariant |dirents| == 2 + i && dirents[..2] == [".", ".."]
        invariant forall k | 0 <= k < i :: dirents[2 + k] == DropFirst(files[k].0)
      {
        dirents := dirents + [DropFirst(files[i].0)];
        i := i + 1;
      }
      if Valid() {
        PathsAndNames();
        var listing := [".", ".."] + ProcNames;
        forall j | 0 <= j < |dirents| ensures dirents[j] == listing[j] {
          if j < 2 {
            assert dirents[j] == dirents[..2][j];
          } else {
            assert dirents[2 + (j - 2)] == DropFirst(ProcPaths[j - 2]);
          }
        }
        assert dirents == listing;
      }
      r := Success(dirents);
    }

    /** Every name the root lists, other than "." and "..", is a regular file under "/". */
    lemma ListedNamesResolve(name: string)
      requires Valid()
      requires name in ProcNames
      ensures Getattr("/" + name).Success? && Getattr("/" + name).value.mode == FileMode
    {
      PathsAndNames();
      var k :| 0 <= k < 6 && ProcNames[k] == name;
      assert files[k].0 == "/" + name;
    }
  }
}
