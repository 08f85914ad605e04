/**
 * The real-time output catalog's retention bound and the `dir.list`
 * manifest read by the visualisation client: one line `1 <name>` per
 * catalog entry.
 */
module Catalog {
  import opened Wrappers
  import opened Lexicographic
  import opened Scans
  import opened Naming

  /** How many converted files the real-time output directory keeps. */
  const RetentionLimit: nat := 10

  /**
   * What the rotation loop leaves of a sorted listing: the newest
   * `RetentionLimit` entries. Every entry it removes is below every entry it
   * keeps, and when the entries are output names the removed scans are
   * older, minute for minute, than the kept ones.
   */
  lemma RetainedAreNewest(catalog: seq<string>, times: seq<Timestamp>)
    requires StrictlySorted(catalog)
    requires |times| == |catalog|
    requires forall i :: 0 <= i < |catalog| ==> times[i].Valid() && catalog[i] == OutputName(times[i])
    ensures |Newest(catalog, RetentionLimit)| <= RetentionLimit
    ensures forall i, j ::
              0 <= i < |catalog| - RetentionLimit <= j < |catalog| ==> MinuteEarlier(times[i], times[j])
  {
    forall i, j | 0 <= i < |catalog| - RetentionLimit <= j < |catalog|
      ensures MinuteEarlier(times[i], times[j])
    {
      NameOrder(times[i], times[j]);
    }
  }

  /** `sep.join(xs)`. */
  function JoinWith(sep: string, xs: seq<string>): string
    decreases |xs|
  {
    if |xs| == 0 then ""
    else if |xs| == 1 then xs[0]
    else xs[0] + sep + JoinWith(sep, xs[1..])
  }

  /** `"1 " + "\n1 ".join(entries)`: the contents written to `dir.list`. */
  function Manifest(entries: seq<string>): (m: string)
    ensures |m| >= 2 && m[..2] == "1 "
    ensures entries == [] ==> m == "1 "
  {
    "1 " + JoinWith("\n1 ", entries)
  }

  /** `s.split("\n")`. */
  function Lines(s: string): (r: seq<string>)
    ensures |r| >= 1
    decreases |s|
  {
    if |s| == 0 then [""]
    else
      var rest := Lines(s[1..]);
      if s[0] == '\n' then [""] + rest
      else [[s[0]] + rest[0]] + rest[1..]
  }

  /** A reader of `dir.list`: every line must start with the weight `1 `; the rest is the entry. */
  function ParseManifest(m: string): Option<seq<string>> {
    StripWeights(Lines(m))
  }

  function StripWeights(lines: seq<string>): (r: Option<seq<string>>)
    ensures r.Some? ==> |r.value| == |lines|
    decreases |lines|
  {
    if |lines| == 0 then Some([])
    else if |lines[0]| < 2 || lines[0][..2] != "1 " then None
    else
      match StripWeights(lines[1..])
      case None => None
      case Some(rest) => Some([lines[0][2..]] + rest)
  }

  predicate NoNewlines(entries: seq<string>) {
    forall i :: 0 <= i < |entries| ==> '\n' !in entries[i]
  }

  function Weighted(entries: seq<string>): (r: seq<string>)
    ensures |r| == |entries|
    ensures forall i :: 0 <= i < |r| ==> r[i] == "1 " + entries[i]
  {
    seq(|entries|, i requires 0 <= i < |entries| => "1 " + entries[i])
  }

  lemma {:induction false} LinesSingle(a: string)
    requires '\n' !in a
    ensures Lines(a) == [a]
    decreases |a|
  {
    if |a| > 0 {
      LinesSingle(a[1..]);
      assert a == [a[0]] + a[1..];
    }
  }

  lemma {:induction false} LinesSplit(a: string, b: string)
    requires '\n' !in a
    ensures Lines(a + "\n" + b) == [a] + Lines(b)
    decreases |a|
  {
    var s := a + "\n" + b;
    if |a| == 0 {
      assert s[1..] == b;
    } else {
      assert s[1..] == a[1..] + "\n" + b;
      LinesSplit(a[1..], b);
      assert a == [a[0]] + a[1..];
    }
  }

  /** The manifest has one line per entry, each the entry behind the weight `1 `. */
  lemma {:induction false} ManifestLines(entries: seq<string>)
    requires entries != [] && NoNewlines(entries)
    ensures Lines(Manifest(entries)) == Weighted(entries)
    decreases |entries|
  {
    if |entries| == 1 {
      LinesSingle("1 " + entries[0]);
    } else {
      var rest := entries[1..];
      assert Manifest(entries) == ("1 " + entries[0]) + "\n" + Manifest(rest);
      LinesSplit("1 " + entries[0], Manifest(rest));
      ManifestLines(rest);
    }
  }

  lemma {:induction false} StripWeighted(entries: seq<string>)
    ensures StripWeights(Weighted(entries)) == Some(entries)
    decreases |entries|
  {
    if |entries| > 0 {
      var lines := Weighted(entries);
      StripWeighted(entries[1..]);
      assert lines[1..] == Weighted(entries[1..]);
      assert lines[0] == "1 " + entries[0];
      assert lines[0][..2] == "1 " && lines[0][2..] == entries[0];
      assert entries == [entries[0]] + entries[1..];
    }
  }

  /**
   * Reading `dir.list` back gives exactly the catalog entries, in order, for
   * any non-empty catalog whose names hold no line break. An empty catalog
   * gives the single line `1 `, read back as one empty entry.
   */
  lemma ManifestRoundTrip(entries: seq<string>)
    requires NoNewlines(entries)
    ensures entries != [] ==> ParseManifest(Manifest(entries)) == Some(entries)
    ensures entries == [] ==> ParseManifest(Manifest(entries)) == Some([""])
  {
    if entries != [] {
      ManifestLines(entries);
      StripWeighted(entries);
    } else {
      assert Manifest(entries) == "1 ";
      LinesSingle("1 ");
      var lines := ["1 "];
      assert lines[1..] == [];
      assert StripWeights(lines[1..]) == Some([]);
      assert lines[0][..2] == "1 " && lines[0][2..] == "";
      assert [lines[0][2..]] + [] == [""];
    }
  }
}
