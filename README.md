# ADRAD radar-file processing scripts, modelled in Dafny

The two scripts turn raw ADRAD (Texas A&M) radar files into files that display clients can read.

- `processRealtime.py` runs on a schedule. It looks at the ten newest raw files and skips those its ledger `processed.csv` already lists. A single-sweep scan that is higher and later than the scan in the cache file `last_scan.uf` is joined with it. Each scan is classified as volume or survey by its pulse-repetition frequency (PRF) and converted with RadxConvert into `TAMU/TAMU_YYYYMMDD_HHMM`. The file name is then appended to the ledger, which is saved. At the end the output directory is trimmed to its ten largest names, and the manifest `dir.list` is rewritten with one `1 <name>` line per file.
- `processArchive.py` converts every file of `input-archive`, in name order. Each file becomes a UF file and an L2 file under `output-archive/<UF|L2>/YYYYMMDD/<vol|surv>/TAMU_YYYYMMDD_HHMM`. A command-line flag chooses the RadxConvert parameter files. Every converted input is deleted.

The model has these modules:

- `Lexicographic` (lexicographic.dfy): Python's string order and `sorted(...)`. It also holds the `xs[-k:]` slice that gives both the run window and the rotation's survivors.
- `Scans` (scans.dfy): the scan record a py-ART read yields, the timestamp order, the classification at 623.5 Hz and the merge condition.
- `Naming` (naming.dfy): the zero-padded `strftime` fields and the output name, with the proof that names sort and collide exactly as minutes do.
- `Catalog` (catalog.dfy): the retention limit and the manifest text, with a reader for it and the round trip.
- `Realtime` (realtime.dfy): the real-time script. Step functions say what each step does to the state. The class `RealtimePipeline` holds the ledger, the cache, the sorted catalog, the manifest and the conversion log, and its methods are proved equal to those step functions.
- `RealtimeProperties` (realtime_properties.dfy): ledger growth, dedup, the window, idempotent re-runs, the cache contents, and chained merges.
- `Archive` (archive.dfy): the archive script. It covers parameter selection, output paths, the source of each conversion and input consumption. The class `ArchiveConverter` is proved against `AfterArchiveRun`.

py-ART, RadxConvert and the file system are not executed. A scan is a record with these fields:

- the sweep count;
- the PRF, already rounded, or `None` when there is no PRT;
- the first sweep's elevation, in integer tenths of a degree;
- its time.

The py-ART calls `read` and `join_radar` are parameters. Each RadxConvert call is appended to a log as (source, parameters, output directory, output name).

Three behaviours of the code are easy to misread, and the model follows the code in each:

- The cache is not always the latest single-sweep input before any merge. A volume scan's cache is py-ART's export of the radar it wrote, which may be a merged radar (processRealtime.py:34). A survey scan's cache is RadxConvert's conversion of the raw file (processRealtime.py:49). Merges can therefore chain more than two sweeps deep; `RealtimeProperties.MergesChain` shows three.
- A file without PRT still gets a ledger entry in real-time mode: the append at processRealtime.py:86 follows the dispatch whatever it did.
- Archive mode does not consume a file without PRT: the loop skips it (processArchive.py:45) before the deletion (processArchive.py:89), so the file stays.

## Model

| member | source | states |
|---|---|---|
| `Lexicographic.SortNames` | processRealtime.py:59 | `sorted(listdir(...))` yields a strictly ascending listing holding exactly the listed names |
| `Lexicographic.SortedUnique` | processRealtime.py:91 | a strictly ascending sequence is determined by its elements, so the model's sorted listing is the one Python's `sorted` produces |
| `Lexicographic.Insert` | processRealtime.py:42 | writing an output file into the sorted directory adds exactly that name and keeps the listing sorted; a name already present (a scan of the same minute) leaves it unchanged |
| `Lexicographic.Newest` | processRealtime.py:59 | for a positive `k` (both uses take ten), `xs[-k:]` keeps `min(len(xs), k)` elements and they are the tail of `xs` |
| `Lexicographic.NewestKeepsLargest` | processRealtime.py:90-91 | on a sorted listing, every dropped name is below every kept name, and the kept names stay sorted |
| `Scans.Classify` | processRealtime.py:30 | a scan is a volume scan iff its rounded PRF exceeds 623.5 Hz, which for an integer PRF means iff it is at least 624; otherwise it is a survey scan |
| `Scans.ClassifyRadar` | processArchive.py:42-51 | no classification exactly when the scan has no PRT; volume exactly when a PRT is present and the PRF is at least 624 |
| `Scans.MergeStrict` | processRealtime.py:81-83 | equal rounded elevations never merge, in either order; the merge relation is never both ways and is transitive |
| `Scans.MergeEligible` | processRealtime.py:81-83 | a new scan is merged only with a cached scan at a different elevation and a different time, and never with one later than itself |
| `Scans.MinuteOrderCoarsens` | processRealtime.py:83 | minute order implies timestamp order; within one minute neither scan is minute-earlier, whatever the seconds |
| `Naming.PadOrder` | processRealtime.py:37 | zero-padded fields of one width are equal iff their numbers are equal, and sort as their numbers do |
| `Naming.DateOrder` | processArchive.py:59 | the `%Y%m%d` stamp is equal iff the dates are, and sorts in date order |
| `Naming.DateStamp` | processArchive.py:59 | `strftime('%Y%m%d')` is eight decimal digits; `DateOrder` proves it injective and order-preserving |
| `Naming.Clock` | processRealtime.py:37 | `strftime('%H%M')` is four decimal digits; `ClockOrder` proves it injective and order-preserving |
| `Naming.ClockOrder` | processRealtime.py:37 | the `%H%M` stamp is equal iff hour and minute are, and sorts in time-of-day order |
| `Naming.OutputName` | processRealtime.py:45 | the output name is 18 characters, starts `TAMU_` and contains no line break |
| `Naming.NameOrder` | processRealtime.py:37 | two scans get the same `TAMU_YYYYMMDD_HHMM` name iff they fall in the same minute, and names sort exactly in minute order |
| `Catalog.RetainedAreNewest` | processRealtime.py:90-91 | when the catalog holds output names, every file rotation removes is from an earlier minute than every file it keeps, and at most ten remain |
| `Catalog.Manifest` | processRealtime.py:93 | `dir.list` starts with `1 `; an empty catalog yields exactly `1 ` |
| `Catalog.ManifestLines` | processRealtime.py:93 | for a non-empty catalog, splitting `dir.list` at line breaks gives one `1 <entry>` line per entry, in catalog order, with no trailing empty line |
| `Catalog.ManifestRoundTrip` | processRealtime.py:93-95 | reading `dir.list` back yields exactly the catalog entries in order; an empty catalog reads back as one empty entry |
| `Realtime.ConfigFor` | processRealtime.py:13-17 | the output directory is `<argv[1]>/TAMU` when an argument is given, else `output-realtime/TAMU` beside the script |
| `Realtime.AfterWrite` | processRealtime.py:20-55 | without PRT nothing changes; with PRT the cache is replaced, the output directory exists, the catalog gains exactly `TAMU_YYYYMMDD_HHMM` and stays sorted, and the last new conversion writes that name into the output directory; a volume scan caches the written radar and makes one conversion, of `last_scan.uf` with `params_L2_az-offset.txt`; a survey scan caches RadxConvert's UF of the raw file and makes two, the raw file into `last_scan.uf` with `params_UF_az-offset.txt`, then that output with `l2_params.txt`; ledger, mirror and manifest are untouched |
| `Realtime.Dispatched` | processRealtime.py:76-85 | only a single-sweep scan with a cache present is merged, and exactly when it is higher and later than the cached scan; all other scans are written alone |
| `Realtime.AfterFile` | processRealtime.py:69-88 | a name already in the ledger changes nothing; any other name is appended to the ledger and copied to the archive mirror exactly once, whether or not it was converted; the manifest is untouched |
| `Realtime.AfterFiles` | processRealtime.py:69-88 | the loop keeps the catalog sorted and leaves the manifest as it was |
| `Realtime.Published` | processRealtime.py:90-95 | with an output directory, the largest `min(n, 10)` entries remain, every removed entry sorts below every kept one, and `dir.list` is the manifest of exactly the remaining ones; without it the run stops unchanged; ledger, cache and conversions are untouched |
| `Realtime.Window` | processRealtime.py:59 | the run's file window is strictly ascending |
| `Realtime.AfterRun` | processRealtime.py:57-95 | a whole run keeps the catalog sorted |
| `Realtime.RealtimePipeline.constructor` | processRealtime.py:60-65 | the ledger starts as the saved `processed.csv`, with the persisted copy equal to it |
| `Realtime.RealtimePipeline.WriteRadar` | processRealtime.py:20-55 | performs `AfterWrite`: volume scans export the (possibly merged) radar to the cache and convert it with `params_L2_az-offset.txt`; survey scans convert the raw file into the cache with `params_UF_az-offset.txt`, then the cache with `l2_params.txt` |
| `Realtime.RealtimePipeline.HandleFile` | processRealtime.py:69-88 | performs `AfterFile`, and the persisted ledger equals the in-memory ledger after every file |
| `Realtime.RealtimePipeline.Rotate` | processRealtime.py:90-91 | deleting the smallest name while more than ten remain leaves exactly the newest ten (or all, if fewer), and nothing else changes |
| `Realtime.RealtimePipeline.Run` | processRealtime.py:57-95 | the state after the script is `AfterRun` of the state before; `completed` is false exactly when the output directory never came to exist |
| `RealtimeProperties.NewNamesMembers` | processRealtime.py:69-71 | the recorded new names are window names not already in the ledger, and every window name ends up in the ledger or among them |
| `RealtimeProperties.NewNamesNoDup` | processRealtime.py:86 | appending the new names to a duplicate-free ledger keeps it duplicate-free |
| `RealtimeProperties.NewNamesAllNew` | processRealtime.py:69-86 | when the names are distinct and none is in the ledger, all of them are appended, in order |
| `RealtimeProperties.AfterFilesLedger` | processRealtime.py:69-88 | the loop appends exactly the new names, in order, to both the ledger and the archive mirror, and keeps the old ledger as a prefix |
| `RealtimeProperties.AfterFilesSeen` | processRealtime.py:69-71 | a loop over names all in the ledger changes nothing: no dispatch, no cache change, no ledger change |
| `RealtimeProperties.WindowIsNewest` | processRealtime.py:59 | the window is the last `min(n, 10)` names of the sorted listing, and every other listed name sorts below all of it |
| `RealtimeProperties.RunLedger` | processRealtime.py:69-88 | after a run the ledger is the old ledger followed by the window's new names, once each in ascending order, and the mirror gets the same names; every window name is in the ledger; a duplicate-free ledger stays so; if all window names are new, the ledger gains exactly the window |
| `RealtimeProperties.RunIgnoresOlder` | processRealtime.py:59 | a listed name outside the window is neither added to the ledger nor copied to the archive mirror |
| `RealtimeProperties.RunIdempotent` | processRealtime.py:57-95 | running again over the same input leaves the ledger, cache, catalog, manifest, mirror and conversions exactly as one run left them |
| `RealtimeProperties.CacheAfterFile` | processRealtime.py:27-49 | a file with no sweep, or whose radar has no PRT, leaves cache, catalog and conversions alone; otherwise the cache becomes the exported written radar (volume) or the conversion of the raw file (survey) |
| `RealtimeProperties.MergesChain` | processRealtime.py:34 | with an empty ledger and no cache, three rising, later single-sweep volume scans leave a three-sweep radar in the cache when `join_radar` keeps the leading scan's fields, so merges chain more than two deep |
| `Archive.SelectParams` | processArchive.py:21-26 | the azimuth-corrected pair iff the first argument is `--correct-az`; the default pair in every other case, including no argument |
| `Archive.FormatDir` | processArchive.py:59-60 | the output folder is the output root, then the format, then an eight-character date, then `vol` exactly for a volume scan and `surv` exactly for a survey scan |
| `Archive.OutputPath` | processArchive.py:74-75 | the output file sits directly in the folder of its format, date and scan type |
| `Archive.NameMatchesDateFolder` | processArchive.py:59 | an output file's 18-character `TAMU_` name carries the same date as the date folder above it |
| `Archive.PathsDifferOnlyInFormat` | processArchive.py:59-60 | a scan's UF and L2 paths differ only in the format component, and the type component is `vol` iff the scan is a volume scan |
| `Archive.PathDeterminism` | processArchive.py:74-75 | two output paths are equal iff format, scan type and minute agree |
| `Archive.FileConversions` | processArchive.py:55-87 | two conversions, UF then L2, with the selected parameter files, written to the UF and L2 output paths; a volume scan's both read `tmp_save`; a survey scan's UF reads the raw input and its L2 reads the UF output |
| `Archive.Remove` | processArchive.py:89 | deleting a file leaves exactly the other names of the listing |
| `Archive.AfterArchiveFile` | processArchive.py:32-90 | a file without PRT changes nothing, so it is not deleted; otherwise its two conversions are appended and it is removed from the input directory; `tmp_save` is never left behind |
| `Archive.AfterArchiveFiles` | processArchive.py:31-32 | the loop never creates `tmp_save` and leaves both directories' existence as it was |
| `Archive.AfterArchiveRun` | processArchive.py:16-29 | a missing input directory is created and nothing else changes; otherwise the output directory exists afterwards |
| `Archive.Plan` | processArchive.py:31-87 | the conversions of a file list, file by file: two for each file with PRT, none for the rest, so never more than two per file |
| `Archive.PlanComplete` | processArchive.py:42-45 | every file contributes its two conversions exactly when every file has PRT |
| `Archive.ArchiveFilesConversions` | processArchive.py:31-87 | the loop's conversions are exactly those of `Plan`, file by file in the given order |
| `Archive.ArchiveFilesConsume` | processArchive.py:42-89 | after the loop, a file remains iff it was not visited or it had no PRT |
| `Archive.ArchiveRunEffect` | processArchive.py:16-89 | a run deletes exactly the input files that have PRT and keeps the rest; its conversions are those of all input files in ascending name order; with no input directory it converts and deletes nothing |
| `Archive.ArchiveConverter.constructor` | processArchive.py:13-14 | the run starts from the given directories, with no `tmp_save` and no conversions |
| `Archive.ArchiveConverter.ConvertFile` | processArchive.py:33-90 | performs `AfterArchiveFile`: writes `tmp_save` for a volume scan and removes it after both conversions, and deletes the input file |
| `Archive.ArchiveConverter.Run` | processArchive.py:12-32 | the state after the script is `AfterArchiveRun` of the state before, with files visited once each in ascending name order |

## Left out

- py-ART (`pyart.io.read`, `write_uf`, `join_radar`, `datetime_from_radar`) is foreign code. Reading and joining are parameters. A UF file written by py-ART or RadxConvert is assumed to read back with the scan fields the model tracks unchanged.
- The PRF (`1/np.mean(prt)`) and the elevation rounding are floating-point numerics. The model takes the already-rounded integers.
- RadxConvert, `copyfile`, `mkdir` and `remove` are I/O. A conversion is a logged record. Each conversion is assumed to succeed and to write exactly its `-outname` into `-outdir`, so a failed conversion and the missing cache or output it would cause are not modelled.
- Directory creation is tracked only as whether each output directory exists. The date/type subdirectories of archive mode are implied by the logged output directories.
- `processed.csv` is read and written through pandas. The model treats that round trip as the identity. Names that pandas would read back as numbers are not modelled.
- Crashes other than the missing real-time output directory are not modelled. These include a missing `input-realtime` or `input-archive` mirror directory in real-time mode, an unreadable file, and a cached scan with no sweep.
- `print` logging and the script's `exit()` message are left out. The globals `file` and `radarScanDT` used in `write_radar_object_to_GR2A` are explicit parameters.
- `strftime('%Y')` for years before 1000 differs between platforms. The model always zero-pads the year to four digits.
- Concurrent runs racing on the ledger or the cache file are not handled by the scripts and are not modelled.
