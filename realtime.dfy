/**
 * processRealtime.py: each run takes the ten newest raw files, skips the
 * ones the ledger already lists, merges a single-sweep scan with the cached
 * previous scan when it is higher and later, converts it through the
 * single-scan cache file `last_scan.uf`, appends it to the ledger, and
 * finally trims the output directory to ten files and rewrites `dir.list`.
 *
 * The pure functions below (AfterWrite, AfterFile, AfterFiles, Published,
 * AfterRun) say what each step does to the script's state; the class
 * RealtimePipeline performs the steps and is proved against them.
 */
module Realtime {
  import opened Wrappers
  import opened Lexicographic
  import opened Scans
  import opened Naming
  import opened Catalog

  /** How many of the newest input files one run looks at. */
  const WindowSize: nat := 10

  const CacheName := "last_scan.uf"
  const VolumeL2Params: Path := ["params_L2_az-offset.txt"]
  const SurveyUfParams: Path := ["params_UF_az-offset.txt"]
  const SurveyL2Params: Path := ["l2_params.txt"]

  /**
   * The contents of `last_scan.uf`: either py-ART's own UF export of a radar
   * object, or RadxConvert's conversion of a raw input file. `radar` is what
   * py-ART reads back from it.
   */
  datatype CacheFile = PyArtUf(radar: Radar) | RadxUf(source: Path, params: Path, radar: Radar)

  /** The script's directory and the output directory `<root>/TAMU`. */
  datatype Config = Config(base: Path, outputDir: Path)

  /** The output directory: `<argv[1]>/TAMU`, or `output-realtime/TAMU` beside the script. */
  function ConfigFor(base: Path, args: seq<string>): (c: Config)
    ensures c.base == base
    ensures |c.outputDir| >= 2 && c.outputDir[|c.outputDir| - 1] == "TAMU"
    ensures |args| > 0 ==> c.outputDir[..|c.outputDir| - 1] == [args[0]]
    ensures |args| == 0 ==> c.outputDir[..|c.outputDir| - 1] == base + ["output-realtime"]
  {
    if |args| > 0 then Config(base, [args[0], "TAMU"])
    else Config(base, base + ["output-realtime", "TAMU"])
  }

  function CachePath(cfg: Config): Path { cfg.base + [CacheName] }

  function InputPath(cfg: Config, file: string): Path { cfg.base + ["input-realtime", file] }

  /**
   * Everything one run can change:
   * - `ledger`: `processed.csv`, the names already handled;
   * - `cache`: `last_scan.uf`, if present;
   * - `catalog`: the output directory's files other than `dir.list`, sorted;
   * - `outputExists`: whether the output directory exists;
   * - `manifest`: `dir.list`, if present;
   * - `mirrored`: the names copied to `input-archive`, in order;
   * - `conversions`: the RadxConvert calls made, in order.
   */
  datatype Snapshot = Snapshot(ledger: seq<string>, cache: Option<CacheFile>, catalog: seq<string>,
                               outputExists: bool, manifest: Option<string>, mirrored: seq<string>,
                               conversions: seq<Conversion>)

  /**
   * `write_radar_object_to_GR2A(rdr, filepath)`, for a scan stamped `dt`
   * whose raw file reads as `raw`. Without PRT nothing happens. Otherwise
   * the cache is replaced and the output `TAMU_YYYYMMDD_HHMM` is written:
   * a volume scan goes through py-ART's export of `rdr` (possibly a merged
   * radar) and one RadxConvert call; a survey scan converts the raw file
   * into the cache and the cache into the output.
   */
  function AfterWrite(cfg: Config, s: Snapshot, rdr: Radar, file: string, dt: Timestamp, raw: Radar): (r: Snapshot)
    requires StrictlySorted(s.catalog)
    ensures StrictlySorted(r.catalog)
    ensures r.ledger == s.ledger && r.mirrored == s.mirrored && r.manifest == s.manifest
    ensures rdr.prf.None? ==> r == s
    ensures rdr.prf.Some? ==>
              && r.cache.Some? && r.outputExists
              && (forall y :: y in r.catalog <==> y in s.catalog || y == OutputName(dt))
              && |s.conversions| < |r.conversions| <= |s.conversions| + 2
              && r.conversions[..|s.conversions|] == s.conversions
              && r.conversions[|r.conversions| - 1].Output() == cfg.outputDir + [OutputName(dt)]
    ensures ClassifyRadar(rdr) == Some(Volume) ==>
              && r.cache == Some(PyArtUf(rdr))
              && r.conversions == s.conversions + [Conversion(CachePath(cfg), VolumeL2Params, cfg.outputDir, OutputName(dt))]
    ensures ClassifyRadar(rdr) == Some(Survey) ==>
              var added := r.conversions[|s.conversions|..];
              && |added| == 2
              && added[0].source == InputPath(cfg, file) && added[0].params == SurveyUfParams
              && added[0].Output() == CachePath(cfg)
              && added[1].source == added[0].Output() && added[1].params == SurveyL2Params
              && r.cache == Some(RadxUf(InputPath(cfg, file), SurveyUfParams, raw))
  {
    match ClassifyRadar(rdr)
    case None => s
    case Some(st) =>
      var name := OutputName(dt);
      var published := s.(outputExists := true, catalog := Insert(s.catalog, name));
      match st
      case Volume =>
        published.(cache := Some(PyArtUf(rdr)),
                   conversions := s.conversions + [Conversion(CachePath(cfg), VolumeL2Params, cfg.outputDir, name)])
      case Survey =>
        published.(cache := Some(RadxUf(InputPath(cfg, file), SurveyUfParams, raw)),
                   conversions := s.conversions +
                     [Conversion(InputPath(cfg, file), SurveyUfParams, cfg.base, CacheName),
                      Conversion(CachePath(cfg), SurveyL2Params, cfg.outputDir, name)])
  }

  /**
   * The radar handed to `write_radar_object_to_GR2A`: a single-sweep scan
   * is joined with the cached scan when it is higher and later; every other
   * scan goes alone.
   */
  function Dispatched(rdr: Radar, cache: Option<CacheFile>, join: (Radar, Radar) -> Radar): (d: Radar)
    ensures rdr.nsweeps != 1 || cache.None? ==> d == rdr
    ensures cache.Some? && !MergeEligible(rdr, cache.value.radar) ==> d == rdr
    ensures rdr.nsweeps == 1 && cache.Some? && MergeEligible(rdr, cache.value.radar) ==>
              d == join(rdr, cache.value.radar)
  {
    if rdr.nsweeps == 1 && cache.Some? && MergeEligible(rdr, cache.value.radar)
    then join(rdr, cache.value.radar)
    else rdr
  }

  /**
   * One pass of the main loop for `file`. A name in the ledger changes
   * nothing. Any other name is copied to the archive mirror, read,
   * dispatched when it has at least one sweep, and appended to the ledger
   * whatever happened to it.
   */
  function AfterFile(cfg: Config, s: Snapshot, file: string, env: PyArt): (r: Snapshot)
    requires StrictlySorted(s.catalog)
    ensures StrictlySorted(r.catalog)
    ensures r.manifest == s.manifest
    ensures file in s.ledger ==> r == s
    ensures file !in s.ledger ==> r.ledger == s.ledger + [file] && r.mirrored == s.mirrored + [file]
  {
    if file in s.ledger then s
    else
      var copied := s.(mirrored := s.mirrored + [file]);
      var rdr := env.read(file);
      var written :=
        if rdr.nsweeps == 0 then copied
        else AfterWrite(cfg, copied, Dispatched(rdr, copied.cache, env.join), file, rdr.time, rdr);
      written.(ledger := written.ledger + [file])
  }

  /** The main loop over `files`, in order. */
  function AfterFiles(cfg: Config, s: Snapshot, files: seq<string>, env: PyArt): (r: Snapshot)
    requires StrictlySorted(s.catalog)
    ensures StrictlySorted(r.catalog)
    ensures r.manifest == s.manifest
    decreases |files|
  {
    if |files| == 0 then s
    else AfterFile(cfg, AfterFiles(cfg, s, files[..|files| - 1], env), files[|files| - 1], env)
  }

  /**
   * Rotation and manifest. With no output directory `listdir` raises and
   * the run stops here; otherwise the oldest files go until ten are left
   * and `dir.list` lists the survivors.
   */
  function Published(s: Snapshot): (r: Snapshot)
    requires StrictlySorted(s.catalog)
    ensures StrictlySorted(r.catalog)
    ensures r.ledger == s.ledger && r.cache == s.cache && r.conversions == s.conversions
    ensures r.outputExists == s.outputExists && r.mirrored == s.mirrored
    ensures s.outputExists ==> |r.catalog| <= RetentionLimit && r.manifest == Some(Manifest(r.catalog))
    ensures s.outputExists ==> r.catalog == Newest(s.catalog, RetentionLimit)
    ensures forall x, y :: x in s.catalog && x !in r.catalog && y in r.catalog ==> Below(x, y)
    ensures !s.outputExists ==> r == s
  {
    if !s.outputExists then s
    else
      var kept := Newest(s.catalog, RetentionLimit);
      NewestKeepsLargest(s.catalog, RetentionLimit);
      s.(catalog := kept, manifest := Some(Manifest(kept)))
  }

  /** `sorted(listdir(inputPath))[-10:]`. */
  function Window(listing: seq<string>): (w: seq<string>)
    ensures StrictlySorted(w)
  {
    NewestKeepsLargest(SortNames(listing), WindowSize);
    Newest(SortNames(listing), WindowSize)
  }

  /** A whole run: drop the old `dir.list`, handle the window, rotate and publish. */
  function AfterRun(cfg: Config, s: Snapshot, listing: seq<string>, env: PyArt): (r: Snapshot)
    requires StrictlySorted(s.catalog)
    ensures StrictlySorted(r.catalog)
  {
    Published(AfterFiles(cfg, s.(manifest := None), Window(listing), env))
  }

  class RealtimePipeline {
    const cfg: Config
    var ledger: seq<string>
    /** The ledger as last saved to `processed.csv`. */
    ghost var persisted: seq<string>
    var cache: Option<CacheFile>
    var catalog: seq<string>
    var outputExists: bool
    var manifest: Option<string>
    var mirrored: seq<string>
    var conversions: seq<Conversion>

    ghost predicate Valid()
      reads this
    {
      StrictlySorted(catalog) && persisted == ledger
    }

    function State(): Snapshot
      reads this
    {
      Snapshot(ledger, cache, catalog, outputExists, manifest, mirrored, conversions)
    }

    /** The script's view of the disk when it starts: `processed.csv` (empty when missing) and the rest. */
    constructor (cfg: Config, saved: seq<string>, cache: Option<CacheFile>, catalog: seq<string>,
                 outputExists: bool, manifest: Option<string>)
      requires StrictlySorted(catalog)
      ensures Valid() && this.cfg == cfg
      ensures State() == Snapshot(saved, cache, catalog, outputExists, manifest, [], [])
    {
      this.cfg := cfg;
      ledger := saved;
      persisted := saved;
      this.cache := cache;
      this.catalog := catalog;
      this.outputExists := outputExists;
      this.manifest := manifest;
      mirrored := [];
      conversions := [];
    }

    /** `write_radar_object_to_GR2A(rdr, filepath)` with `file` and `radarScanDT` passed explicitly. */
    method WriteRadar(rdr: Radar, file: string, dt: Timestamp, env: PyArt)
      requires Valid()
      modifies this
      ensures Valid()
      ensures State() == AfterWrite(cfg, old(State()), rdr, file, dt, env.read(file))
    {
      var st := ClassifyRadar(rdr);
      if st.None? {
        return;
      }
      cache := None;
      var name := OutputName(dt);
      if st.value == Volume {
        cache := Some(PyArtUf(rdr));
        outputExists := true;
        conversions := conversions + [Conversion(CachePath(cfg), VolumeL2Params, cfg.outputDir, name)];
      } else {
        var source := InputPath(cfg, file);
        conversions := conversions + [Conversion(source, SurveyUfParams, cfg.base, CacheName)];
        cache := Some(RadxUf(source, SurveyUfParams, env.read(file)));
        outputExists := true;
        conversions := conversions + [Conversion(CachePath(cfg), SurveyL2Params, cfg.outputDir, name)];
      }
      catalog := Insert(catalog, name);
    }

    /** One iteration of the main loop; the ledger is saved after every handled file. */
    method HandleFile(file: string, env: PyArt)
      requires Valid()
      modifies this
      ensures Valid()
      ensures State() == AfterFile(cfg, old(State()), file, env)
    {
      if file in ledger {
        return;
      }
      mirrored := mirrored + [file];
      var rdr := env.read(file);
      if rdr.nsweeps > 1 {
        WriteRadar(rdr, file, rdr.time, env);
      } else if rdr.nsweeps == 1 {
        var toWrite := rdr;
        if cache.Some? {
          var last := cache.value.radar;
          if MergeEligible(rdr, last) {
            toWrite := env.join(rdr, last);
          }
        }
        WriteRadar(toWrite, file, rdr.time, env);
      }
      ledger := ledger + [file];
      persisted := ledger;
    }

    /** Deletes the smallest name while more than ten files remain. */
    method Rotate()
      requires Valid()
      modifies this
      ensures Valid()
      ensures State() == old(State()).(catalog := Newest(old(catalog), RetentionLimit))
    {
      while |catalog| > RetentionLimit
        invariant Valid()
        invariant |catalog| >= RetentionLimit || catalog == old(catalog)
        invariant catalog == old(catalog)[|old(catalog)| - |catalog|..]
        invariant State() == old(State()).(catalog := catalog)
        decreases |catalog|
      {
        catalog := catalog[1..];
      }
    }

    /**
     * The `__main__` block. `listing` is `listdir(input-realtime)`.
     * `completed` is false when the output directory never came to exist,
     * where the script dies in `listdir` before rotating.
     */
    method Run(listing: seq<string>, env: PyArt) returns (completed: bool)
      requires Valid()
      modifies this
      ensures Valid()
      ensures State() == AfterRun(cfg, old(State()), listing, env)
      ensures completed == State().outputExists
    {
      var files := Window(listing);
      manifest := None;
      ghost var start := State();
      var i := 0;
      while i < |files|
        invariant 0 <= i <= |files|
        invariant Valid()
        invariant State() == AfterFiles(cfg, start, files[..i], env)
      {
        assert files[..i + 1][..i] == files[..i];
        HandleFile(files[i], env);
        i := i + 1;
      }
      assert files[..i] == files;
      completed := outputExists;
      if !completed {
        return;
      }
      Rotate();
      manifest := Some(Manifest(catalog));
    }
  }
}
