/**
 * processArchive.py: converts every raw file of `input-archive`, in name
 * order, into a UF file and an L2 file under
 * `output-archive/<UF|L2>/YYYYMMDD/<vol|surv>/TAMU_YYYYMMDD_HHMM`, and
 * deletes each file it converted. Files without PRT are skipped and kept.
 */
module Archive {
  import opened Wrappers
  import opened Lexicographic
  import opened Scans
  import opened Naming

  /** The RadxConvert parameter files for the L2 and the UF conversion. */
  datatype ParamsPair = ParamsPair(l2: Path, uf: Path)

  function AzimuthCorrected(base: Path): ParamsPair {
    ParamsPair(base + ["params_L2_az-offset.txt"], base + ["params_UF_az-offset.txt"])
  }

  function Uncorrected(base: Path): ParamsPair {
    ParamsPair(base + ["l2_params.txt"], base + ["uf_params.txt"])
  }

  /** The azimuth-corrected pair exactly when the first argument is `--correct-az`. */
  function SelectParams(base: Path, args: seq<string>): (p: ParamsPair)
    ensures p == AzimuthCorrected(base) <==> |args| > 0 && args[0] == "--correct-az"
    ensures p == Uncorrected(base) <==> !(|args| > 0 && args[0] == "--correct-az")
  {
    assert AzimuthCorrected(base).l2[|base|] != Uncorrected(base).l2[|base|];
    if |args| > 0 && args[0] == "--correct-az" then AzimuthCorrected(base) else Uncorrected(base)
  }

  function InputDir(base: Path): Path { base + ["input-archive"] }

  function OutputDir(base: Path): Path { base + ["output-archive"] }

  /** py-ART's temporary UF export of a volume scan. */
  function TmpSave(base: Path): Path { OutputDir(base) + ["tmp_save"] }

  function Subdir(t: ScanType): string {
    if t == Volume then "vol" else "surv"
  }

  /** `<out>/<format>/YYYYMMDD/<vol|surv>`. */
  function FormatDir(out: Path, format: string, t: Timestamp, st: ScanType): (d: Path)
    ensures |d| == |out| + 3 && d[..|out|] == out && d[|out|] == format
    ensures |d[|out| + 1]| == 8
    ensures d[|out| + 2] == "vol" <==> st == Volume
    ensures d[|out| + 2] == "surv" <==> st == Survey
  {
    out + [format, DateStamp(t), Subdir(st)]
  }

  /** `<out>/<format>/YYYYMMDD/<vol|surv>/TAMU_YYYYMMDD_HHMM`: the file sits in the folder of its format and type. */
  function OutputPath(out: Path, format: string, t: Timestamp, st: ScanType): (p: Path)
    ensures |p| == |out| + 4 && p[..|out| + 3] == FormatDir(out, format, t, st)
  {
    FormatDir(out, format, t, st) + [OutputName(t)]
  }

  /** An output file's name carries the same date as the date folder above it. */
  lemma NameMatchesDateFolder(out: Path, format: string, t: Timestamp, st: ScanType)
    ensures var p := OutputPath(out, format, t, st);
            |p[|out| + 3]| == 18 && p[|out| + 3][..5] == "TAMU_" && p[|out| + 3][5..13] == p[|out| + 1]
  {
  }

  /**
   * The UF and the L2 path of one scan differ only in the format
   * component, and the component after the date is `vol` exactly for a
   * volume scan.
   */
  lemma PathsDifferOnlyInFormat(out: Path, t: Timestamp, st: ScanType)
    ensures var uf := OutputPath(out, "UF", t, st);
            var l2 := OutputPath(out, "L2", t, st);
            && |uf| == |l2| == |out| + 4
            && uf[|out|] == "UF" && l2[|out|] == "L2"
            && (forall i :: 0 <= i < |uf| && i != |out| ==> uf[i] == l2[i])
            && (uf[|out| + 2] == "vol" <==> st == Volume)
  {
  }

  /**
   * Output paths are determined by format, scan type and minute, and by
   * nothing else: two scans share a path exactly when these agree, so scans
   * of one minute and type overwrite each other.
   */
  lemma PathDeterminism(out: Path, f1: string, t1: Timestamp, st1: ScanType,
                                   f2: string, t2: Timestamp, st2: ScanType)
    requires t1.Valid() && t2.Valid()
    ensures OutputPath(out, f1, t1, st1) == OutputPath(out, f2, t2, st2) <==>
              f1 == f2 && st1 == st2 && SameMinute(t1, t2)
  {
    NameOrder(t1, t2);
    DateOrder(t1, t2);
    var p1, p2 := OutputPath(out, f1, t1, st1), OutputPath(out, f2, t2, st2);
    if p1 == p2 {
      assert p1[|out|] == f1 && p2[|out|] == f2;
      assert p1[|out| + 2] == Subdir(st1) && p2[|out| + 2] == Subdir(st2);
      assert p1[|out| + 3] == OutputName(t1) && p2[|out| + 3] == OutputName(t2);
    }
  }

  /**
   * The two RadxConvert calls for one scan, UF first. A volume scan has
   * both read py-ART's `tmp_save`; a survey scan converts the raw input to
   * UF and then that UF output to L2.
   */
  function FileConversions(base: Path, pair: ParamsPair, file: string, t: Timestamp, st: ScanType): (r: seq<Conversion>)
    ensures |r| == 2
    ensures r[0].params == pair.uf && r[1].params == pair.l2
    ensures r[0].Output() == OutputPath(OutputDir(base), "UF", t, st)
    ensures r[1].Output() == OutputPath(OutputDir(base), "L2", t, st)
    ensures st == Volume ==> r[0].source == TmpSave(base) && r[1].source == TmpSave(base)
    ensures st == Survey ==> r[0].source == InputDir(base) + [file] && r[1].source == r[0].Output()
  {
    var name := OutputName(t);
    var ufDir := FormatDir(OutputDir(base), "UF", t, st);
    var l2Dir := FormatDir(OutputDir(base), "L2", t, st);
    if st == Volume then
      [Conversion(TmpSave(base), pair.uf, ufDir, name), Conversion(TmpSave(base), pair.l2, l2Dir, name)]
    else
      [Conversion(InputDir(base) + [file], pair.uf, ufDir, name), Conversion(ufDir + [name], pair.l2, l2Dir, name)]
  }

  /** `xs` without `x`: a directory listing after `remove`. */
  function Remove(xs: seq<string>, x: string): (r: seq<string>)
    ensures forall y :: y in r <==> y in xs && y != x
    ensures |r| <= |xs|
  {
    if |xs| == 0 then []
    else if xs[0] == x then Remove(xs[1..], x)
    else [xs[0]] + Remove(xs[1..], x)
  }

  /**
   * What one run can change: whether `input-archive` and `output-archive`
   * exist, the input listing, whether `tmp_save` exists, and the RadxConvert
   * calls made.
   */
  datatype ArchiveState = ArchiveState(inputExists: bool, inputDir: seq<string>, outputExists: bool,
                                       tmpSave: bool, conversions: seq<Conversion>)

  /** One iteration of the loop over input files. */
  function AfterArchiveFile(base: Path, pair: ParamsPair, s: ArchiveState, file: string,
                            read: string -> Radar): (r: ArchiveState)
    ensures r.inputExists == s.inputExists && r.outputExists == s.outputExists
    ensures r.tmpSave ==> s.tmpSave
    ensures read(file).prf.None? ==> r == s
    ensures read(file).prf.Some? ==>
              && r.conversions == s.conversions +
                   FileConversions(base, pair, file, read(file).time, Classify(read(file).prf.value))
              && r.inputDir == Remove(s.inputDir, file)
  {
    var radar := read(file);
    match ClassifyRadar(radar)
    case None => s
    case Some(st) =>
      s.(conversions := s.conversions + FileConversions(base, pair, file, radar.time, st),
         inputDir := Remove(s.inputDir, file),
         tmpSave := if st == Volume then false else s.tmpSave)
  }

  /** The loop over `files`, in order. */
  function AfterArchiveFiles(base: Path, pair: ParamsPair, s: ArchiveState, files: seq<string>,
                             read: string -> Radar): (r: ArchiveState)
    ensures r.inputExists == s.inputExists && r.outputExists == s.outputExists
    ensures r.tmpSave ==> s.tmpSave
    decreases |files|
  {
    if |files| == 0 then s
    else AfterArchiveFile(base, pair, AfterArchiveFiles(base, pair, s, files[..|files| - 1], read),
                          files[|files| - 1], read)
  }

  /**
   * The whole script. A missing input directory is created and nothing
   * else happens; otherwise the output directory is created and every
   * input file is handled in ascending name order.
   */
  function AfterArchiveRun(base: Path, s: ArchiveState, args: seq<string>, read: string -> Radar): (r: ArchiveState)
    ensures r.inputExists
    ensures !s.inputExists ==> r == s.(inputExists := true)
    ensures s.inputExists ==> r.outputExists
  {
    if !s.inputExists then s.(inputExists := true)
    else AfterArchiveFiles(base, SelectParams(base, args), s.(outputExists := true), SortNames(s.inputDir), read)
  }

  /** The conversions for `files`, file by file from the first: an independent statement of the loop's output. */
  function Plan(base: Path, pair: ParamsPair, files: seq<string>, read: string -> Radar): (r: seq<Conversion>)
    ensures |r| <= 2 * |files|
    decreases |files|
  {
    if |files| == 0 then [] else FilePlan(base, pair, files[0], read) + Plan(base, pair, files[1..], read)
  }

  /** The conversions `Plan` gives one file: none without PRT, else that file's two. */
  function FilePlan(base: Path, pair: ParamsPair, file: string, read: string -> Radar): seq<Conversion> {
    var radar := read(file);
    if radar.prf.None? then [] else FileConversions(base, pair, file, radar.time, Classify(radar.prf.value))
  }

  /** Every file contributes both of its conversions exactly when every file has PRT. */
  lemma {:induction false} PlanComplete(base: Path, pair: ParamsPair, files: seq<string>, read: string -> Radar)
    ensures |Plan(base, pair, files, read)| == 2 * |files| <==> forall x :: x in files ==> read(x).prf.Some?
    decreases |files|
  {
    if |files| > 0 {
      PlanComplete(base, pair, files[1..], read);
      assert forall x :: x in files <==> x == files[0] || x in files[1..];
    }
  }

  lemma {:induction false} PlanAppend(base: Path, pair: ParamsPair, files: seq<string>, x: string,
                                      read: string -> Radar)
    ensures Plan(base, pair, files + [x], read) ==
              Plan(base, pair, files, read) + Plan(base, pair, [x], read)
    decreases |files|
  {
    if |files| > 0 {
      var head := FilePlan(base, pair, files[0], read);
      assert (files + [x])[1..] == files[1..] + [x];
      assert Plan(base, pair, files + [x], read) == head + Plan(base, pair, files[1..] + [x], read);
      PlanAppend(base, pair, files[1..], x, read);
      assert Plan(base, pair, files, read) == head + Plan(base, pair, files[1..], read);
    }
  }

  /** The loop makes exactly the conversions of `Plan`, in order. */
  lemma {:induction false} ArchiveFilesConversions(base: Path, pair: ParamsPair, s: ArchiveState,
                                                   files: seq<string>, read: string -> Radar)
    ensures AfterArchiveFiles(base, pair, s, files, read).conversions ==
              s.conversions + Plan(base, pair, files, read)
    decreases |files|
  {
    if |files| > 0 {
      var init := files[..|files| - 1];
      var x := files[|files| - 1];
      var mid := AfterArchiveFiles(base, pair, s, init, read);
      assert files == init + [x];
      calc {
        AfterArchiveFiles(base, pair, s, files, read).conversions;
        AfterArchiveFile(base, pair, mid, x, read).conversions;
        { FileStepIsPlan(base, pair, mid, x, read); }
        mid.conversions + Plan(base, pair, [x], read);
        { ArchiveFilesConversions(base, pair, s, init, read); }
        s.conversions + Plan(base, pair, init, read) + Plan(base, pair, [x], read);
        { PlanAppend(base, pair, init, x, read); }
        s.conversions + Plan(base, pair, files, read);
      }
    }
  }

  /** One iteration adds exactly the conversions `Plan` gives for its file. */
  lemma FileStepIsPlan(base: Path, pair: ParamsPair, s: ArchiveState, x: string, read: string -> Radar)
    ensures AfterArchiveFile(base, pair, s, x, read).conversions == s.conversions + Plan(base, pair, [x], read)
  {
    assert [x][1..] == [];
    assert Plan(base, pair, [x], read) == FilePlan(base, pair, x, read) + [];
  }

  /** After the loop, a file is still in the input directory exactly when it was not handled or had no PRT. */
  lemma {:induction false} ArchiveFilesConsume(base: Path, pair: ParamsPair, s: ArchiveState,
                                               files: seq<string>, read: string -> Radar)
    ensures forall f :: f in AfterArchiveFiles(base, pair, s, files, read).inputDir <==>
                          f in s.inputDir && (f !in files || read(f).prf.None?)
    decreases |files|
  {
    if |files| > 0 {
      var init := files[..|files| - 1];
      ArchiveFilesConsume(base, pair, s, init, read);
      assert files == init + [files[|files| - 1]];
    }
  }

  /**
   * A run deletes exactly the input files that had PRT and keeps the
   * others, and its conversions are those of the files in ascending name
   * order; with no input directory it deletes and converts nothing.
   */
  lemma ArchiveRunEffect(base: Path, s: ArchiveState, args: seq<string>, read: string -> Radar)
    ensures var r := AfterArchiveRun(base, s, args, read);
            && (forall f :: f in r.inputDir <==> f in s.inputDir && (!s.inputExists || read(f).prf.None?))
            && (s.inputExists ==>
                  r.conversions == s.conversions + Plan(base, SelectParams(base, args), SortNames(s.inputDir), read))
            && (!s.inputExists ==> r.conversions == s.conversions)
  {
    if s.inputExists {
      var pair := SelectParams(base, args);
      var s1 := s.(outputExists := true);
      ArchiveFilesConsume(base, pair, s1, SortNames(s.inputDir), read);
      ArchiveFilesConversions(base, pair, s1, SortNames(s.inputDir), read);
    }
  }

  class ArchiveConverter {
    const base: Path
    var inputExists: bool
    var inputDir: seq<string>
    var outputExists: bool
    var tmpSave: bool
    var conversions: seq<Conversion>

    function State(): ArchiveState
      reads this
    {
      ArchiveState(inputExists, inputDir, outputExists, tmpSave, conversions)
    }

    constructor (base: Path, inputExists: bool, inputDir: seq<string>, outputExists: bool)
      ensures this.base == base
      ensures State() == ArchiveState(inputExists, inputDir, outputExists, false, [])
    {
      this.base := base;
      this.inputExists := inputExists;
      this.inputDir := inputDir;
      this.outputExists := outputExists;
      tmpSave := false;
      conversions := [];
    }

    /** The body of `for file in inputFiles`. */
    method ConvertFile(pair: ParamsPair, file: string, read: string -> Radar)
      modifies this
      ensures State() == AfterArchiveFile(base, pair, old(State()), file, read)
    {
      var radar := read(file);
      var st := ClassifyRadar(radar);
      if st.None? {
        return;
      }
      var t := radar.time;
      var name := OutputName(t);
      if st.value == Volume {
        tmpSave := true;
        var ufDir := FormatDir(OutputDir(base), "UF", t, Volume);
        conversions := conversions + [Conversion(TmpSave(base), pair.uf, ufDir, name)];
        var l2Dir := FormatDir(OutputDir(base), "L2", t, Volume);
        conversions := conversions + [Conversion(TmpSave(base), pair.l2, l2Dir, name)];
        tmpSave := false;
      } else {
        var ufDir := FormatDir(OutputDir(base), "UF", t, Survey);
        conversions := conversions + [Conversion(InputDir(base) + [file], pair.uf, ufDir, name)];
        var l2Dir := FormatDir(OutputDir(base), "L2", t, Survey);
        conversions := conversions + [Conversion(ufDir + [name], pair.l2, l2Dir, name)];
      }
      inputDir := Remove(inputDir, file);
    }

    /** The `__main__` block; `args` is `sys.argv[1:]`. */
    method Run(args: seq<string>, read: string -> Radar)
      modifies this
      ensures State() == AfterArchiveRun(base, old(State()), args, read)
    {
      if !inputExists {
        inputExists := true;
        return;
      }
      var pair := SelectParams(base, args);
      outputExists := true;
      var files := SortNames(inputDir);
      ghost var start := State();
      for i := 0 to |files|
        invariant State() == AfterArchiveFiles(base, pair, start, files[..i], read)
      {
        assert files[..i + 1][..i] == files[..i];
        ConvertFile(pair, files[i], read);
      }
      assert files[..|files|] == files;
    }
  }
}
