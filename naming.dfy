/**
 * The output names `TAMU_YYYYMMDD_HHMM` that both scripts derive from a
 * scan's time with `strftime`, and why sorting them by name sorts them by
 * minute.
 */
module Naming {
  import opened Scans
  import opened Lexicographic

  function Pow10(w: nat): nat {
    if w == 0 then 1 else 10 * Pow10(w - 1)
  }

  function Digit(d: nat): char
    requires d < 10
  {
    (48 + d) as char
  }

  /** `n` in decimal, zero-padded to `w` digits, as `strftime` writes a field. */
  function Pad(n: nat, w: nat): (r: string)
    ensures |r| == w
    ensures forall i :: 0 <= i < |r| ==> '0' <= r[i] <= '9'
  {
    if w == 0 then "" else Pad(n / 10, w - 1) + [Digit(n % 10)]
  }

  /** Zero-padded fields of one width compare as their numbers do. */
  lemma {:induction false} PadOrder(m: nat, n: nat, w: nat)
    requires m < Pow10(w) && n < Pow10(w)
    ensures Pad(m, w) == Pad(n, w) <==> m == n
    ensures Below(Pad(m, w), Pad(n, w)) <==> m < n
  {
    if w == 0 {
      BelowIrreflexive("");
    } else {
      var dm, dn := [Digit(m % 10)], [Digit(n % 10)];
      PadOrder(m / 10, n / 10, w - 1);
      BelowConcat(Pad(m / 10, w - 1), dm, Pad(n / 10, w - 1), dn);
      assert Below(dm, dn) <==> m % 10 < n % 10 by {
        assert dm[1..] == [] && dn[1..] == [];
        BelowIrreflexive([]);
      }
    }
  }

  /** `strftime('%Y%m%d')`. */
  function DateStamp(t: Timestamp): (r: string)
    ensures |r| == 8
    ensures forall i :: 0 <= i < |r| ==> '0' <= r[i] <= '9'
  {
    Pad(t.year, 4) + Pad(t.month, 2) + Pad(t.day, 2)
  }

  /** `f"TAMU_{strftime('%Y%m%d')}_{strftime('%H%M')}"`. */
  function OutputName(t: Timestamp): (r: string)
    ensures |r| == 18 && r[..5] == "TAMU_"
    ensures '\n' !in r
  {
    "TAMU_" + DateStamp(t) + "_" + Clock(t)
  }

  predicate SameDate(a: Timestamp, b: Timestamp) {
    a.year == b.year && a.month == b.month && a.day == b.day
  }

  predicate DateEarlier(a: Timestamp, b: Timestamp) {
    if a.year != b.year then a.year < b.year
    else if a.month != b.month then a.month < b.month
    else a.day < b.day
  }

  /** `strftime('%H%M')`. */
  function Clock(t: Timestamp): (r: string)
    ensures |r| == 4
    ensures forall i :: 0 <= i < |r| ==> '0' <= r[i] <= '9'
  {
    Pad(t.hour, 2) + Pad(t.minute, 2)
  }

  lemma DateOrder(a: Timestamp, b: Timestamp)
    requires a.Valid() && b.Valid()
    ensures DateStamp(a) == DateStamp(b) <==> SameDate(a, b)
    ensures Below(DateStamp(a), DateStamp(b)) <==> DateEarlier(a, b)
  {
    assert Pow10(2) == 100 && Pow10(4) == 10000;
    PadOrder(a.year, b.year, 4);
    PadOrder(a.month, b.month, 2);
    PadOrder(a.day, b.day, 2);
    BelowConcat(Pad(a.year, 4), Pad(a.month, 2), Pad(b.year, 4), Pad(b.month, 2));
    BelowConcat(Pad(a.year, 4) + Pad(a.month, 2), Pad(a.day, 2),
                Pad(b.year, 4) + Pad(b.month, 2), Pad(b.day, 2));
  }

  lemma ClockOrder(a: Timestamp, b: Timestamp)
    requires a.Valid() && b.Valid()
    ensures Clock(a) == Clock(b) <==> a.hour == b.hour && a.minute == b.minute
    ensures Below(Clock(a), Clock(b)) <==>
              if a.hour != b.hour then a.hour < b.hour else a.minute < b.minute
  {
    assert Pow10(2) == 100;
    PadOrder(a.hour, b.hour, 2);
    PadOrder(a.minute, b.minute, 2);
    BelowConcat(Pad(a.hour, 2), Pad(a.minute, 2), Pad(b.hour, 2), Pad(b.minute, 2));
  }

  /**
   * Two scans get the same output name exactly when they fall in the same
   * minute (so scans of one minute overwrite each other), and names sort
   * exactly as the minutes do.
   */
  lemma NameOrder(a: Timestamp, b: Timestamp)
    requires a.Valid() && b.Valid()
    ensures OutputName(a) == OutputName(b) <==> SameMinute(a, b)
    ensures Below(OutputName(a), OutputName(b)) <==> MinuteEarlier(a, b)
  {
    DateOrder(a, b);
    ClockOrder(a, b);
    var da, db := DateStamp(a), DateStamp(b);
    BelowConcat("TAMU_", da, "TAMU_", db);
    BelowConcat("TAMU_" + da, "_", "TAMU_" + db, "_");
    BelowIrreflexive("_");
    BelowConcat("TAMU_" + da + "_", Clock(a), "TAMU_" + db + "_", Clock(b));
    assert OutputName(a) == "TAMU_" + da + "_" + Clock(a);
    assert OutputName(b) == "TAMU_" + db + "_" + Clock(b);
  }
}
