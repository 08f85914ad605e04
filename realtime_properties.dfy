/**
 * What a real-time run guarantees, stated over the step functions of
 * module Realtime: the ledger grows by exactly the new names of the window,
 * stays free of duplicates and never loses an entry; names outside the
 * window are neither read nor recorded; the cache is replaced by every
 * dispatched scan; a second run over the same input changes nothing.
 */
module RealtimeProperties {
  import opened Wrappers
  import opened Lexicographic
  import opened Scans
  import opened Catalog
  import opened Realtime

  predicate NoDup(s: seq<string>) {
    forall i, j :: 0 <= i < j < |s| ==> s[i] != s[j]
  }

  /** The names of `xs` that are not in `seen`, each at its first occurrence, in order. */
  function NewNames(seen: seq<string>, xs: seq<string>): seq<string>
    decreases |xs|
  {
    if |xs| == 0 then []
    else
      var pre := NewNames(seen, xs[..|xs| - 1]);
      var x := xs[|xs| - 1];
      if x in seen || x in pre then pre else pre + [x]
  }

  lemma {:induction false} NewNamesMembers(seen: seq<string>, xs: seq<string>)
    ensures forall y :: y in NewNames(seen, xs) ==> y in xs && y !in seen
    ensures forall x :: x in xs ==> x in seen || x in NewNames(seen, xs)
    decreases |xs|
  {
    if |xs| > 0 {
      NewNamesMembers(seen, xs[..|xs| - 1]);
      assert xs == xs[..|xs| - 1] + [xs[|xs| - 1]];
    }
  }

  lemma {:induction false} NewNamesNoDup(seen: seq<string>, xs: seq<string>)
    requires NoDup(seen)
    ensures NoDup(seen + NewNames(seen, xs))
    decreases |xs|
  {
    if |xs| > 0 {
      var init := xs[..|xs| - 1];
      var x := xs[|xs| - 1];
      NewNamesNoDup(seen, init);
      var pre := NewNames(seen, init);
      if !(x in seen || x in pre) {
        var all := seen + pre + [x];
        assert seen + NewNames(seen, xs) == all;
        forall i, j | 0 <= i < j < |all|
          ensures all[i] != all[j]
        {
          if j < |all| - 1 {
            assert all[i] == (seen + pre)[i] && all[j] == (seen + pre)[j];
          } else {
            assert all[i] in seen + pre;
          }
        }
      }
    }
  }

  /** When every name is new and none repeats, all of them are recorded, in order. */
  lemma {:induction false} NewNamesAllNew(seen: seq<string>, xs: seq<string>)
    requires NoDup(xs) && forall x :: x in xs ==> x !in seen
    ensures NewNames(seen, xs) == xs
    decreases |xs|
  {
    if |xs| > 0 {
      var init := xs[..|xs| - 1];
      assert NoDup(init);
      NewNamesAllNew(seen, init);
      assert xs[|xs| - 1] !in init;
      assert xs == init + [xs[|xs| - 1]];
    }
  }

  /** Running the loop over `files` records exactly their new names, in the ledger and in the archive mirror. */
  lemma {:induction false} AfterFilesLedger(cfg: Config, s: Snapshot, files: seq<string>, env: PyArt)
    requires StrictlySorted(s.catalog)
    ensures AfterFiles(cfg, s, files, env).ledger == s.ledger + NewNames(s.ledger, files)
    ensures AfterFiles(cfg, s, files, env).mirrored == s.mirrored + NewNames(s.ledger, files)
    decreases |files|
  {
    if |files| > 0 {
      var init := files[..|files| - 1];
      AfterFilesLedger(cfg, s, init, env);
      var x := files[|files| - 1];
      var mid := AfterFiles(cfg, s, init, env);
      assert x in mid.ledger <==> x in s.ledger || x in NewNames(s.ledger, init);
    }
  }

  /** A loop over names all in the ledger does nothing at all. */
  lemma {:induction false} AfterFilesSeen(cfg: Config, s: Snapshot, files: seq<string>, env: PyArt)
    requires StrictlySorted(s.catalog)
    requires forall f :: f in files ==> f in s.ledger
    ensures AfterFiles(cfg, s, files, env) == s
    decreases |files|
  {
    if |files| > 0 {
      AfterFilesSeen(cfg, s, files[..|files| - 1], env);
      assert files[|files| - 1] in files;
    }
  }

  /** The window is the last `min(n, 10)` names of the sorted listing; any other listed name sorts below all of it. */
  lemma WindowIsNewest(listing: seq<string>)
    ensures var w := Window(listing);
            var sorted := SortNames(listing);
            && |w| == (if |sorted| < WindowSize then |sorted| else WindowSize)
            && w == sorted[|sorted| - |w|..]
            && forall x, y :: x in listing && x !in w && y in w ==> Below(x, y)
  {
    NewestKeepsLargest(SortNames(listing), WindowSize);
  }

  /**
   * The ledger after a run: the old ledger, unchanged, followed by each name
   * of the window that it did not hold, once each and in ascending order;
   * the archive mirror receives the same names. Every window name ends up
   * in the ledger, a duplicate-free ledger stays so, and when all window
   * names are new the ledger gains exactly the window.
   */
  lemma RunLedger(cfg: Config, s: Snapshot, listing: seq<string>, env: PyArt)
    requires StrictlySorted(s.catalog)
    ensures var r := AfterRun(cfg, s, listing, env);
            var w := Window(listing);
            && r.ledger == s.ledger + NewNames(s.ledger, w)
            && r.mirrored == s.mirrored + NewNames(s.ledger, w)
            && (forall x :: x in w ==> x in r.ledger)
            && (NoDup(s.ledger) ==> NoDup(r.ledger))
            && ((forall x :: x in w ==> x !in s.ledger) ==> r.ledger == s.ledger + w)
  {
    var w := Window(listing);
    AfterFilesLedger(cfg, s.(manifest := None), w, env);
    NewNamesMembers(s.ledger, w);
    if NoDup(s.ledger) {
      NewNamesNoDup(s.ledger, w);
    }
    if forall x :: x in w ==> x !in s.ledger {
      forall i, j | 0 <= i < j < |w|
        ensures w[i] != w[j]
      {
        SortedDistinct(w, i, j);
      }
      NewNamesAllNew(s.ledger, w);
    }
  }

  /** A listed name outside the window is neither recorded in the ledger nor copied to the mirror by the run. */
  lemma RunIgnoresOlder(cfg: Config, s: Snapshot, listing: seq<string>, env: PyArt, x: string)
    requires StrictlySorted(s.catalog)
    requires x in listing && x !in Window(listing)
    ensures var r := AfterRun(cfg, s, listing, env);
            (x in r.ledger <==> x in s.ledger) && (x in r.mirrored <==> x in s.mirrored)
  {
    var w := Window(listing);
    AfterFilesLedger(cfg, s.(manifest := None), w, env);
    NewNamesMembers(s.ledger, w);
  }

  /** Running twice over the same input directory is the same as running once. */
  lemma RunIdempotent(cfg: Config, s: Snapshot, listing: seq<string>, env: PyArt)
    requires StrictlySorted(s.catalog)
    ensures AfterRun(cfg, AfterRun(cfg, s, listing, env), listing, env) == AfterRun(cfg, s, listing, env)
  {
    var w := Window(listing);
    var s0 := s.(manifest := None);
    var s1 := AfterFiles(cfg, s0, w, env);
    AfterFilesLedger(cfg, s0, w, env);
    NewNamesMembers(s.ledger, w);
    var r1 := Published(s1);
    assert r1 == AfterRun(cfg, s, listing, env);
    var t0 := r1.(manifest := None);
    AfterFilesSeen(cfg, t0, w, env);
    if s1.outputExists {
      assert Newest(r1.catalog, RetentionLimit) == r1.catalog;
    }
  }

  /**
   * What one new file does to the cache: nothing when it has no sweep or
   * the radar to write has no PRT; otherwise the cache is replaced, by
   * py-ART's export of the radar actually written (a merged one included)
   * for a volume scan, and by the conversion of the raw input file for a
   * survey scan.
   */
  lemma CacheAfterFile(cfg: Config, s: Snapshot, file: string, env: PyArt)
    requires StrictlySorted(s.catalog)
    requires file !in s.ledger
    ensures var rdr := env.read(file);
            var d := Dispatched(rdr, s.cache, env.join);
            var r := AfterFile(cfg, s, file, env);
            && (rdr.nsweeps == 0 || d.prf.None? ==>
                  r.cache == s.cache && r.catalog == s.catalog && r.conversions == s.conversions)
            && (rdr.nsweeps > 0 && d.prf.Some? && Classify(d.prf.value) == Volume ==>
                  r.cache == Some(PyArtUf(d)))
            && (rdr.nsweeps > 0 && d.prf.Some? && Classify(d.prf.value) == Survey ==>
                  r.cache == Some(RadxUf(InputPath(cfg, file), SurveyUfParams, rdr)))
  {
  }

  /** `join_radar(a, b)` as far as the model sees it: the sweeps of both, led by `a`'s. */
  function JoinLeading(a: Radar, b: Radar): Radar {
    Radar(a.nsweeps + b.nsweeps, a.prf, a.elevation, a.time)
  }

  function Sweep(elevation: int, second: nat): Radar {
    Radar(1, Some(1000), elevation, Timestamp(2022, 4, 1, 0, 0, second, 0))
  }

  /**
   * Three rising single-sweep volume scans in a row, with `join_radar`
   * keeping the leading scan's PRF, elevation and time: the second is
   * joined with the first, the cache then holds that two-sweep radar, and
   * the third is joined with it, so merges chain more than two sweeps deep.
   */
  lemma MergesChain(cfg: Config, s: Snapshot, env: PyArt)
    requires StrictlySorted(s.catalog) && s.ledger == [] && s.cache == None
    requires env.read("a") == Sweep(5, 0) && env.read("b") == Sweep(10, 1) && env.read("c") == Sweep(15, 2)
    requires forall x, y :: env.join(x, y) == JoinLeading(x, y)
    ensures var r := AfterFiles(cfg, s, ["a", "b", "c"], env);
            r.cache.Some? && r.cache.value.radar.nsweeps == 3
  {
    var files := ["a", "b", "c"];
    assert files[..2] == ["a", "b"] && files[..2][..1] == ["a"] && files[..2][..1][..0] == [];
    var s1 := AfterFile(cfg, s, "a", env);
    assert AfterFiles(cfg, s, ["a"], env) == s1;
    CacheAfterFile(cfg, s, "a", env);
    assert s1.cache == Some(PyArtUf(Sweep(5, 0)));
    var s2 := AfterFile(cfg, s1, "b", env);
    assert AfterFiles(cfg, s, ["a", "b"], env) == s2;
    var ab := JoinLeading(Sweep(10, 1), Sweep(5, 0));
    assert Dispatched(Sweep(10, 1), s1.cache, env.join) == ab;
    CacheAfterFile(cfg, s1, "b", env);
    assert s2.cache == Some(PyArtUf(ab));
    var s3 := AfterFile(cfg, s2, "c", env);
    assert AfterFiles(cfg, s, files, env) == s3;
    assert Dispatched(Sweep(15, 2), s2.cache, env.join) == JoinLeading(Sweep(15, 2), ab);
    CacheAfterFile(cfg, s2, "c", env);
  }
}
