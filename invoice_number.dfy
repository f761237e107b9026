/**
 * Per-year sequential invoice numbers `INV-<year>-<nnn>` (src/lib/invoice-number.ts,
 * inlined again in the POST handler of src/app/api/invoices/route.ts). The store
 * lookup is an input: the invoice numbers already stored. The year is the
 * caller's local year.
 */
module InvoiceNumbers {
  import opened Common

  /** `INV-${currentYear}-` */
  function YearPrefix(year: nat): (p: string)
    ensures |p| >= 6 && p[..4] == "INV-" && p[|p| - 1] == '-'
  {
    "INV-" + NatToString(year) + "-"
  }

  /* ---------- The trailing-number match `/-(\d+)$/` ---------- */

  /** The length of the longest all-digit suffix of `s`. */
  function DigitSuffixLength(s: string): (n: nat)
    ensures n <= |s| && forall i :: |s| - n <= i < |s| ==> IsDigit(s[i])
    ensures n < |s| ==> !IsDigit(s[|s| - n - 1])
  {
    if s == [] || !IsDigit(s[|s| - 1]) then 0
    else
      var n := DigitSuffixLength(s[..|s| - 1]);
      assert forall i :: |s| - 1 - n <= i < |s| - 1 ==> s[..|s| - 1][i] == s[i];
      n + 1
  }

  /** The all-digit suffix as a string. */
  lemma DigitSuffixDigits(s: string)
    ensures AllDigits(s[|s| - DigitSuffixLength(s)..])
  {
    var k := DigitSuffixLength(s);
    var d := s[|s| - k..];
    assert forall i :: 0 <= i < |d| ==> d[i] == s[|s| - k + i];
  }

  /**
   * `s.match(/-(\d+)$/)` followed by `parseInt(match[1], 10)`: the value of the
   * digits after the last '-', when they are non-empty and run to the end.
   */
  function TrailingNumber(s: string): (r: Option<nat>)
    ensures r.Some? ==> var d := s[|s| - DigitSuffixLength(s)..];
      d != [] && |d| < |s| && s[|s| - |d| - 1] == '-' && r.value == DigitsValue(d)
  {
    var k := DigitSuffixLength(s);
    DigitSuffixDigits(s);
    if 1 <= k < |s| && s[|s| - k - 1] == '-' then Some(DigitsValue(s[|s| - k..])) else None
  }

  /** A string ending in '-' followed by digits has exactly those digits as its trailing number. */
  lemma TrailingNumberAfterDash(p: string, digits: string)
    requires p != [] && p[|p| - 1] == '-'
    requires digits != [] && AllDigits(digits)
    ensures TrailingNumber(p + digits) == Some(DigitsValue(digits))
  {
    var s := p + digits;
    var k := DigitSuffixLength(s);
    assert s[|s| - |digits|..] == digits;
  }

  /** A string that does not end in '-' plus digits has no trailing number. */
  lemma NoTrailingNumber(s: string)
    requires s == [] || !IsDigit(s[|s| - 1])
    ensures TrailingNumber(s).None?
  {
  }

  /** The number built from the selected stored number: its trailing number plus one, or 1 when there is none. */
  function NextFromSelected(prefix: string, selected: Option<string>): (r: string)
    ensures StartsWith(r, prefix)
  {
    var next := match selected
      case Some(s) => (match TrailingNumber(s) case Some(v) => v + 1 case None => 1)
      case None => 1;
    assert (prefix + Pad3(next))[..|prefix|] == prefix;
    prefix + Pad3(next)
  }

  /* ---------- The store's string order ---------- */

  /** Binary string order, as the store sorts `invoice.number`. */
  predicate StrLess(a: string, b: string) {
    if a == [] then b != []
    else if b == [] then false
    else if a[0] != b[0] then a[0] < b[0]
    else StrLess(a[1..], b[1..])
  }

  lemma {:induction false} StrLessIrreflexive(a: string)
    ensures !StrLess(a, a)
  {
    if a != [] {
      StrLessIrreflexive(a[1..]);
    }
  }

  lemma {:induction false} StrLessTotal(a: string, b: string)
    ensures a == b || StrLess(a, b) || StrLess(b, a)
  {
    if a != [] && b != [] && a[0] == b[0] {
      StrLessTotal(a[1..], b[1..]);
      assert a[1..] == b[1..] ==> a == [a[0]] + a[1..] == [b[0]] + b[1..] == b;
    }
  }

  lemma {:induction false} StrLessTransitive(a: string, b: string, c: string)
    requires StrLess(a, b) && StrLess(b, c)
    ensures StrLess(a, c)
  {
    if a != [] && b != [] && c != [] && a[0] == b[0] && b[0] == c[0] {
      StrLessTransitive(a[1..], b[1..], c[1..]);
    }
  }

  /** "Not less than" is transitive, so a running maximum stays a maximum. */
  lemma NotLessTransitive(a: string, b: string, c: string)
    requires !StrLess(a, b) && !StrLess(b, c)
    ensures !StrLess(a, c)
  {
    StrLessTotal(a, b);
    StrLessTotal(b, c);
    if StrLess(a, c) && a != b && b != c {
      StrLessTransitive(c, b, a);
      StrLessTransitive(a, c, a);
      StrLessIrreflexive(a);
    }
  }

  /** A shared prefix does not change the order. */
  lemma {:induction false} StrLessPrefix(p: string, a: string, b: string)
    ensures StrLess(p + a, p + b) == StrLess(a, b)
  {
    if p != [] {
      assert (p + a)[0] == (p + b)[0] == p[0];
      assert (p + a)[1..] == p[1..] + a;
      assert (p + b)[1..] == p[1..] + b;
      assert StrLess(p + a, p + b) == StrLess(p[1..] + a, p[1..] + b);
      StrLessPrefix(p[1..], a, b);
    } else {
      assert p + a == a && p + b == b;
    }
  }

  /**
   * `findOne({'invoice.number': {$regex: '^' + prefix}}).sort({'invoice.number': -1})`:
   * the greatest stored number with the prefix in string order.
   */
  function GreatestWithPrefix(numbers: seq<string>, prefix: string): (r: Option<string>)
    ensures r.Some? ==> r.value in numbers && StartsWith(r.value, prefix)
    ensures r.Some? ==> forall i :: 0 <= i < |numbers| && StartsWith(numbers[i], prefix) ==> !StrLess(r.value, numbers[i])
    ensures r.None? ==> forall i :: 0 <= i < |numbers| ==> !StartsWith(numbers[i], prefix)
  {
    if numbers == [] then None
    else
      var rest := GreatestWithPrefix(numbers[1..], prefix);
      if !StartsWith(numbers[0], prefix) then rest
      else match rest
        case None =>
          StrLessIrreflexive(numbers[0]);
          Some(numbers[0])
        case Some(g) =>
          if StrLess(numbers[0], g) then
            StrLessTotal(numbers[0], g);
            StrLessIrreflexive(g);
            assert !StrLess(g, numbers[0]) by {
              if StrLess(g, numbers[0]) {
                StrLessTransitive(g, numbers[0], g);
              }
            }
            Some(g)
          else
            StrLessIrreflexive(numbers[0]);
            forall i | 1 <= i < |numbers| && StartsWith(numbers[i], prefix)
              ensures !StrLess(numbers[0], numbers[i])
            {
              assert numbers[i] == numbers[1..][i - 1];
              NotLessTransitive(numbers[0], g, numbers[i]);
            }
            Some(numbers[0])
  }

  /* ---------- The generator as written ---------- */

  /** `getNextInvoiceNumber()` as written: it continues from the string-greatest number of the year. */
  function NextInvoiceNumberAsWritten(year: nat, numbers: seq<string>): (r: string)
    ensures StartsWith(r, YearPrefix(year))
  {
    NextFromSelected(YearPrefix(year), GreatestWithPrefix(numbers, YearPrefix(year)))
  }

  lemma Value999()
    ensures AllDigits("999") && DigitsValue("999") == 999
  {
    assert "999"[..2] == "99";
    assert "99"[..1] == "9";
    assert "9"[..0] == "";
  }

  lemma NatToString1000()
    ensures NatToString(1000) == "1000"
  {
    assert NatToString(1) == "1";
    assert NatToString(10) == "10";
    assert NatToString(100) == "100";
  }

  /**
   * Once `INV-<year>-999` and `INV-<year>-1000` both exist, "999" still sorts last,
   * so the generator as written produces `INV-<year>-1000` again: a duplicate.
   */
  lemma AsWrittenRepeatsAfter999(year: nat)
    ensures var p := YearPrefix(year);
      NextInvoiceNumberAsWritten(year, [p + "999", p + "1000"]) == p + "1000"
  {
    var p := YearPrefix(year);
    var numbers := [p + "999", p + "1000"];
    StrLessPrefix(p, "1000", "999");
    assert "1000"[0] == '1' && "999"[0] == '9';
    assert StrLess("1000", "999");
    assert StartsWith(numbers[0], p) && StartsWith(numbers[1], p);
    assert numbers[1..] == [p + "1000"];
    assert GreatestWithPrefix(numbers[1..], p) == Some(p + "1000");
    assert GreatestWithPrefix(numbers, p) == Some(p + "999");
    Value999();
    TrailingNumberAfterDash(p, "999");
    NatToString1000();
    assert Pad3(1000) == "1000";
  }

  /** The same lookup falls back to 001 when the string-greatest number has no trailing digits. */
  lemma AsWrittenRestartsAfterNonNumeric(year: nat)
    ensures var p := YearPrefix(year);
      NextInvoiceNumberAsWritten(year, [p + "001", p + "x"]) == p + "001"
  {
    var p := YearPrefix(year);
    var numbers := [p + "001", p + "x"];
    StrLessPrefix(p, "001", "x");
    assert "001"[0] == '0' && "x"[0] == 'x';
    assert StrLess("001", "x");
    assert StartsWith(numbers[0], p) && StartsWith(numbers[1], p);
    assert numbers[1..] == [p + "x"];
    assert GreatestWithPrefix(numbers, p) == Some(p + "x");
    NoTrailingNumber(p + "x");
    assert NatToString(1) == "1";
    assert Pad3(1) == "001";
  }

  /* ---------- The corrected generator ---------- */

  /** The largest trailing number among the numbers with the prefix; 0 when there is none. */
  function MaxSuffix(numbers: seq<string>, prefix: string): (r: nat)
    ensures forall i :: 0 <= i < |numbers| && StartsWith(numbers[i], prefix) && TrailingNumber(numbers[i]).Some? ==>
      TrailingNumber(numbers[i]).value <= r
    ensures r == 0 || exists i :: 0 <= i < |numbers| && StartsWith(numbers[i], prefix) && TrailingNumber(numbers[i]) == Some(r)
  {
    if numbers == [] then 0
    else
      var rest := MaxSuffix(numbers[1..], prefix);
      var here := if StartsWith(numbers[0], prefix) then TrailingNumber(numbers[0]) else None;
      assert forall i :: 1 <= i < |numbers| ==> numbers[i] == numbers[1..][i - 1];
      if here.Some? && here.value > rest then here.value else rest
  }

  /** The next number of the year: one more than the numerically largest suffix, padded to three digits. */
  function NextInvoiceNumber(year: nat, numbers: seq<string>): (r: string)
    ensures StartsWith(r, YearPrefix(year))
  {
    var p := YearPrefix(year);
    assert (p + Pad3(MaxSuffix(numbers, p) + 1))[..|p|] == p;
    p + Pad3(MaxSuffix(numbers, p) + 1)
  }

  /** The corrected generator is the same continuation step, applied to the numerically largest number. */
  lemma NextInvoiceNumberContinues(year: nat, numbers: seq<string>)
    ensures var p := YearPrefix(year);
      NextInvoiceNumber(year, numbers) == NextFromSelected(p, Some(p + NatToString(MaxSuffix(numbers, p))))
  {
    var p := YearPrefix(year);
    var m := MaxSuffix(numbers, p);
    TrailingNumberAfterDash(p, NatToString(m));
    NatToStringValue(m);
    assert TrailingNumber(p + NatToString(m)) == Some(m);
  }

  /** The corrected number never collides with a stored number. */
  lemma NextInvoiceNumberFresh(year: nat, numbers: seq<string>)
    ensures NextInvoiceNumber(year, numbers) !in numbers
  {
    var p := YearPrefix(year);
    var m := MaxSuffix(numbers, p);
    var r := NextInvoiceNumber(year, numbers);
    assert r == p + Pad3(m + 1);
    PaddedSuffix(p, m + 1);
    forall i | 0 <= i < |numbers| && StartsWith(numbers[i], p)
      ensures numbers[i] != r
    {
      assert TrailingNumber(numbers[i]).Some? ==> TrailingNumber(numbers[i]).value <= m;
    }
  }

  /** A prefix ending in '-' followed by a padded number has that number as its trailing number. */
  lemma PaddedSuffix(p: string, n: nat)
    requires p != [] && p[|p| - 1] == '-'
    ensures TrailingNumber(p + Pad3(n)) == Some(n)
  {
    TrailingNumberAfterDash(p, Pad3(n));
  }

  /** With no number of the year stored yet, the year starts at 001. */
  lemma NextInvoiceNumberFirst(year: nat, numbers: seq<string>)
    requires forall i :: 0 <= i < |numbers| ==> !StartsWith(numbers[i], YearPrefix(year))
    ensures NextInvoiceNumber(year, numbers) == YearPrefix(year) + "001"
  {
    assert NatToString(1) == "1";
  }

  /** Padding never truncates: the suffix after 999 is "1000". */
  lemma NextAfter999(year: nat)
    ensures NextInvoiceNumber(year, [YearPrefix(year) + "999"]) == YearPrefix(year) + "1000"
  {
    var p := YearPrefix(year);
    Value999();
    TrailingNumberAfterDash(p, "999");
    assert StartsWith([p + "999"][0], p);
    NatToString1000();
  }

  /* ---------- Where the two agree ---------- */

  lemma ThreeDigitsValue(s: string)
    requires |s| == 3 && AllDigits(s)
    ensures DigitsValue(s) == DigitValue(s[0]) * 100 + DigitValue(s[1]) * 10 + DigitValue(s[2])
  {
    var s2 := s[..2];
    var s1 := s2[..1];
    assert s1[..0] == [];
    assert DigitsValue(s1) == DigitValue(s[0]);
    assert DigitsValue(s2) == DigitValue(s[0]) * 10 + DigitValue(s[1]);
  }

  lemma ThreeDigitsOrder(a: string, b: string)
    requires |a| == 3 && |b| == 3 && AllDigits(a) && AllDigits(b)
    ensures StrLess(a, b) <==> DigitsValue(a) < DigitsValue(b)
  {
    ThreeDigitsValue(a);
    ThreeDigitsValue(b);
    var a1, b1 := a[1..], b[1..];
    var a2, b2 := a1[1..], b1[1..];
    assert a1[0] == a[1] && b1[0] == b[1] && a2[0] == a[2] && b2[0] == b[2];
    assert a2[1..] == [] && b2[1..] == [];
    if a[0] != b[0] {
      assert StrLess(a, b) == (a[0] < b[0]);
    } else if a[1] != b[1] {
      assert StrLess(a, b) == StrLess(a1, b1) == (a[1] < b[1]);
    } else {
      assert StrLess(a, b) == StrLess(a1, b1) == StrLess(a2, b2) == (a[2] < b[2]);
    }
  }

  lemma PrefixSplit(s: string, p: string)
    requires StartsWith(s, p)
    ensures s == p + s[|p|..]
  {
  }

  /** Among three-digit suffixes the string-greatest number carries the largest suffix. */
  lemma GreatestCarriesMaxSuffix(numbers: seq<string>, p: string, top: string)
    requires p != [] && p[|p| - 1] == '-'
    requires forall i :: 0 <= i < |numbers| && StartsWith(numbers[i], p) ==>
      |numbers[i]| == |p| + 3 && AllDigits(numbers[i][|p|..])
    requires top in numbers && StartsWith(top, p)
    requires forall i :: 0 <= i < |numbers| && StartsWith(numbers[i], p) ==> !StrLess(top, numbers[i])
    ensures TrailingNumber(top) == Some(MaxSuffix(numbers, p))
  {
    var m := MaxSuffix(numbers, p);
    var gi :| 0 <= gi < |numbers| && numbers[gi] == top;
    var d := top[|p|..];
    PrefixSplit(top, p);
    TrailingNumberAfterDash(p, d);
    var v := DigitsValue(d);
    assert TrailingNumber(top) == Some(v);
    assert v <= m;
    if m != 0 {
      var i :| 0 <= i < |numbers| && StartsWith(numbers[i], p) && TrailingNumber(numbers[i]) == Some(m);
      MaxSuffixWitness(numbers, p, top, numbers[i], m);
    }
    assert v == m;
  }

  lemma MaxSuffixWitness(numbers: seq<string>, p: string, top: string, other: string, m: nat)
    requires p != [] && p[|p| - 1] == '-'
    requires StartsWith(top, p) && |top| == |p| + 3 && AllDigits(top[|p|..])
    requires StartsWith(other, p) && |other| == |p| + 3 && AllDigits(other[|p|..])
    requires TrailingNumber(other) == Some(m) && !StrLess(top, other)
    ensures TrailingNumber(top).Some? && TrailingNumber(top).value >= m
  {
    var d, e := top[|p|..], other[|p|..];
    PrefixSplit(top, p);
    PrefixSplit(other, p);
    TrailingNumberAfterDash(p, d);
    TrailingNumberAfterDash(p, e);
    StrLessPrefix(p, d, e);
    ThreeDigitsOrder(d, e);
  }

  /**
   * While every stored number of the year has exactly three digits after the prefix,
   * string order is numeric order, and the generator as written gives the corrected number.
   */
  lemma AsWrittenAgreesWhileThreeDigits(year: nat, numbers: seq<string>)
    requires forall i :: 0 <= i < |numbers| && StartsWith(numbers[i], YearPrefix(year)) ==>
      |numbers[i]| == |YearPrefix(year)| + 3 && AllDigits(numbers[i][|YearPrefix(year)|..])
    ensures NextInvoiceNumberAsWritten(year, numbers) == NextInvoiceNumber(year, numbers)
  {
    var p := YearPrefix(year);
    match GreatestWithPrefix(numbers, p)
    case None =>
    case Some(top) =>
      GreatestCarriesMaxSuffix(numbers, p, top);
  }
}
