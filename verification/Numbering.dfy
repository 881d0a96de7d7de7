/** Printed reference numbers: distinct for distinct serials, and never one that is already there. */
module Numbering {
  import opened Wrappers

  function Digit(d: nat): char
    requires d < 10
  {
    '0' + d as char
  }

  /** A number in decimal. */
  function Digits(n: nat): (s: string)
    ensures s != ""
  {
    if n < 10 then [Digit(n)] else Digits(n / 10) + [Digit(n % 10)]
  }

  function Zeros(k: nat): string { if k == 0 then "" else Zeros(k - 1) + "0" }

  /** A number in decimal, padded with zeros to at least four places. */
  function Padded(n: nat): string {
    var s := Digits(n);
    if |s| >= 4 then s else Zeros(4 - |s|) + s
  }

  /** The value of a decimal numeral. */
  function Value(s: string): nat {
    if s == "" then 0
    else
      var c := s[|s| - 1];
      Value(s[..|s| - 1]) * 10 + (if '0' <= c <= '9' then (c - '0') as nat else 0)
  }

  lemma {:induction false} DigitsHaveValue(n: nat)
    ensures Value(Digits(n)) == n
  {
    if n < 10 {
      assert [Digit(n)][..0] == "";
    } else {
      DigitsHaveValue(n / 10);
      var s := Digits(n / 10) + [Digit(n % 10)];
      assert s[..|s| - 1] == Digits(n / 10);
    }
  }

  lemma {:induction false} ZerosAddNothing(k: nat, s: string)
    ensures Value(Zeros(k) + s) == Value(s)
  {
    if s != "" {
      var n := |s| - 1;
      ZerosAddNothing(k, s[..n]);
      assert (Zeros(k) + s)[..|Zeros(k)| + n] == Zeros(k) + s[..n];
    } else if k > 0 {
      ZerosAddNothing(k - 1, "");
      assert Zeros(k - 1) + "" == Zeros(k - 1);
      assert Zeros(k) + "" == Zeros(k - 1) + "0";
      assert (Zeros(k - 1) + "0")[..|Zeros(k - 1)|] == Zeros(k - 1);
    } else {
      assert Zeros(0) + s == s;
    }
  }

  /** Padding never loses the number, not even past 9999. */
  lemma PaddedHasValue(n: nat)
    ensures Value(Padded(n)) == n
  {
    DigitsHaveValue(n);
    var s := Digits(n);
    if |s| < 4 {
      ZerosAddNothing(4 - |s|, s);
    }
  }

  // ---- printing and splitting ----

  /** `f"{prefix}-{year}-{n:04d}"`. */
  function Printed(prefix: string, year: nat, n: nat): string {
    prefix + "-" + Digits(year) + "-" + Padded(n)
  }

  /** `str.split("-")`. */
  function Split(s: string): (r: seq<string>)
    ensures |r| > 0
  {
    if s == "" then [""]
    else
      var c, before := s[|s| - 1], Split(s[..|s| - 1]);
      if c == '-' then before + [""] else before[..|before| - 1] + [before[|before| - 1] + [c]]
  }

  /** One more character on the last part, or a new part. */
  function Extend(parts: seq<string>, c: char): seq<string>
    requires |parts| > 0
  {
    if c == '-' then parts + [""] else parts[..|parts| - 1] + [parts[|parts| - 1] + [c]]
  }

  lemma SplitAppend(s: string, c: char)
    ensures Split(s + [c]) == Extend(Split(s), c)
  {
  }

  lemma ExtendLater(a: seq<string>, b: seq<string>, c: char)
    requires |b| > 0
    ensures Extend(a + b, c) == a + Extend(b, c)
  {
  }

  lemma {:induction false} SplitAtDash(a: string, b: string)
    ensures Split(a + "-" + b) == Split(a) + Split(b)
  {
    if b == "" {
      assert a + "-" + b == a + ['-'];
      SplitAppend(a, '-');
    } else {
      var n := |b| - 1;
      SplitAtDash(a, b[..n]);
      SplitAppend(a + "-" + b[..n], b[n]);
      SplitAppend(b[..n], b[n]);
      ExtendLater(Split(a), Split(b[..n]), b[n]);
      assert a + "-" + b == (a + "-" + b[..n]) + [b[n]];
      assert b == b[..n] + [b[n]];
    }
  }

  lemma {:induction false} DashFreeIsWhole(s: string)
    requires '-' !in s
    ensures Split(s) == [s]
  {
    if s != "" {
      var n := |s| - 1;
      DashFreeIsWhole(s[..n]);
      assert s[..n] + [s[n]] == s;
    }
  }

  lemma {:induction false} DigitsAreDashFree(n: nat)
    ensures '-' !in Digits(n)
  {
    if n >= 10 {
      DigitsAreDashFree(n / 10);
    }
  }

  lemma {:induction false} ZerosAreDashFree(k: nat)
    ensures '-' !in Zeros(k)
  {
    if k > 0 {
      ZerosAreDashFree(k - 1);
    }
  }

  lemma PaddedIsDashFree(n: nat)
    ensures '-' !in Padded(n)
  {
    DigitsAreDashFree(n);
    if |Digits(n)| < 4 {
      ZerosAreDashFree(4 - |Digits(n)|);
    }
  }

  /** The parts of a printed number. */
  lemma PrintedParts(prefix: string, year: nat, n: nat)
    ensures Split(Printed(prefix, year, n)) == Split(prefix) + [Digits(year), Padded(n)]
  {
    SplitAtDash(prefix + "-" + Digits(year), Padded(n));
    SplitAtDash(prefix, Digits(year));
    DigitsAreDashFree(year);
    PaddedIsDashFree(n);
    DashFreeIsWhole(Digits(year));
    DashFreeIsWhole(Padded(n));
    assert Printed(prefix, year, n) == (prefix + "-" + Digits(year)) + "-" + Padded(n);
  }

  /** Printed numbers of one prefix are pairwise distinct: the year and the serial can be read back. */
  lemma PrintedIsInjective(prefix: string, y: nat, m: nat, z: nat, n: nat)
    requires Printed(prefix, y, m) == Printed(prefix, z, n)
    ensures y == z && m == n
  {
    PrintedParts(prefix, y, m);
    PrintedParts(prefix, z, n);
    var a, b := Split(prefix) + [Digits(y), Padded(m)], Split(prefix) + [Digits(z), Padded(n)];
    assert a[|Split(prefix)|] == Digits(y) && b[|Split(prefix)|] == Digits(z);
    assert a[|Split(prefix)| + 1] == Padded(m) && b[|Split(prefix)| + 1] == Padded(n);
    DigitsHaveValue(y);
    DigitsHaveValue(z);
    PaddedHasValue(m);
    PaddedHasValue(n);
  }

  // ---- the earlier engine: parse, take the maximum, add one ----

  /** A reading of numerals that agrees with padded numbers; it may read or reject anything else. */
  ghost predicate ReadsPadded(parse: string -> Option<int>) {
    forall n: nat :: parse(Padded(n)) == Some(n)
  }

  /** The number in a reference's third part, 0 when there is none or it does not parse. */
  function Serial(parse: string -> Option<int>, ref: string): int {
    var parts := Split(ref);
    if |parts| > 2 && parse(parts[2]).Some? then parse(parts[2]).value else 0
  }

  function Top(parse: string -> Option<int>, refs: seq<string>): (t: nat)
    ensures forall i :: 0 <= i < |refs| ==> Serial(parse, refs[i]) <= t
  {
    if refs == [] then 0
    else
      var n := |refs| - 1;
      var t, s := Top(parse, refs[..n]), Serial(parse, refs[n]);
      assert forall i :: 0 <= i < n ==> refs[i] == refs[..n][i];
      if s > t then s else t
  }

  const LEGACY_YEAR: nat := 2026

  /** `next_number` of the earlier engine. */
  method LegacyNextNumber(parse: string -> Option<int>, prefix: string, refs: seq<string>) returns (ref: string)
    ensures ref == Printed(prefix, LEGACY_YEAR, Top(parse, refs) + 1)
  {
    var top: nat := 0;
    for i := 0 to |refs|
      invariant top == Top(parse, refs[..i])
    {
      assert refs[..i + 1][..i] == refs[..i];
      var parts := Split(refs[i]);
      if |parts| > 2 {
        var n := parse(parts[2]);
        if n.Some? && n.value > top { top := n.value; }
      }
    }
    assert refs[..|refs|] == refs;
    ref := Printed(prefix, LEGACY_YEAR, top + 1);
  }

  /** The third part of a printed number with a dash-free prefix is its serial. */
  lemma SerialOfPrinted(parse: string -> Option<int>, prefix: string, n: nat)
    requires ReadsPadded(parse) && '-' !in prefix
    ensures Serial(parse, Printed(prefix, LEGACY_YEAR, n)) == n
  {
    PrintedParts(prefix, LEGACY_YEAR, n);
    DashFreeIsWhole(prefix);
  }

  lemma {:induction false} DashedHasParts(prefix: string)
    requires '-' in prefix
    ensures |Split(prefix)| >= 2
  {
    var n := |prefix| - 1;
    if prefix[n] != '-' {
      assert prefix == prefix[..n] + [prefix[n]];
      DashedHasParts(prefix[..n]);
    }
  }

  /** With a dash in the prefix the third part is the same whatever the serial. */
  lemma DashedSerialIsFixed(parse: string -> Option<int>, prefix: string, m: nat, n: nat)
    requires '-' in prefix
    ensures Serial(parse, Printed(prefix, LEGACY_YEAR, m)) == Serial(parse, Printed(prefix, LEGACY_YEAR, n))
  {
    PrintedParts(prefix, LEGACY_YEAR, m);
    PrintedParts(prefix, LEGACY_YEAR, n);
    DashedHasParts(prefix);
  }

  /** The earlier engine never issues a reference that exists, whatever references do exist, malformed
      ones included, if and only if the prefix holds no dash. */
  lemma LegacyNumberIsNew(parse: string -> Option<int>, prefix: string)
    requires ReadsPadded(parse)
    ensures (forall refs: seq<string> :: Printed(prefix, LEGACY_YEAR, Top(parse, refs) + 1) !in refs) <==> '-' !in prefix
  {
    if '-' !in prefix {
      forall refs: seq<string> ensures Printed(prefix, LEGACY_YEAR, Top(parse, refs) + 1) !in refs {
        SerialOfPrinted(parse, prefix, Top(parse, refs) + 1);
      }
    } else {
      var s := Serial(parse, Printed(prefix, LEGACY_YEAR, 0));
      var top: nat := if s > 0 then s else 0;
      var refs := [Printed(prefix, LEGACY_YEAR, top + 1)];
      DashedSerialIsFixed(parse, prefix, 0, top + 1);
      assert refs[..0] == [];
      assert Top(parse, refs) == top;
      assert refs[0] in refs;
    }
  }

  /** The prefixes the engine itself passes hold no dash, so what it issues is always new. */
  lemma IssuedNumbersAreNew(parse: string -> Option<int>, prefix: string, refs: seq<string>)
    requires ReadsPadded(parse) && (prefix == "INS" || prefix == "INV")
    ensures Printed(prefix, LEGACY_YEAR, Top(parse, refs) + 1) !in refs
  {
    LegacyNumberIsNew(parse, prefix);
  }
}
