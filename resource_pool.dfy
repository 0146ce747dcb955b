/**
 * The resource-pool panel: the quota strings are turned into chart values by
 * `parseValue`, which reads the leading number of a string and scales it by
 * the unit the string mentions (Gi to Mi, cores to millicores).
 */
module ResourcePool {
  import opened Options
  import opened Text

  predicate IsDigit(c: char) {
    '0' <= c <= '9'
  }

  /**
   * The ASCII white space `parseFloat` skips before the number; the
   * Unicode spaces it also skips (no-break space, byte-order mark, line and
   * paragraph separators, the other space separators) are not modelled.
   */
  predicate IsSpace(c: char) {
    c == ' ' || c == '\t' || c == '\n' || c == '\r' || c == '\U{B}' || c == '\U{C}'
  }

  function DigitValue(c: char): (d: nat)
    requires IsDigit(c)
    ensures d < 10
  {
    c as int - '0' as int
  }

  function DigitChar(d: nat): (c: char)
    requires d < 10
    ensures IsDigit(c) && DigitValue(c) == d
  {
    ('0' as int + d) as char
  }

  predicate AllDigits(s: string) {
    forall i :: 0 <= i < |s| ==> IsDigit(s[i])
  }

  /** The value of a string of decimal digits, most significant first. */
  function DigitsValue(s: string): nat
    requires AllDigits(s)
  {
    if s == [] then 0 else 10 * DigitsValue(s[..|s| - 1]) + DigitValue(s[|s| - 1])
  }

  /** The decimal numeral of `n`, without leading zeros. */
  function Decimal(n: nat): (s: string)
    ensures |s| >= 1 && AllDigits(s)
    ensures DigitsValue(s) == n
    ensures |s| > 1 ==> s[0] != '0'
  {
    if n < 10 then [DigitChar(n)]
    else
      var s := Decimal(n / 10) + [DigitChar(n % 10)];
      assert s[..|s| - 1] == Decimal(n / 10);
      s
  }

  /** `s` with its leading white space removed. */
  function SkipSpaces(s: string): (r: string)
    ensures |r| <= |s| && r == s[|s| - |r|..]
    ensures r == [] || !IsSpace(r[0])
    ensures forall i :: 0 <= i < |s| - |r| ==> IsSpace(s[i])
  {
    if s != [] && IsSpace(s[0]) then SkipSpaces(s[1..]) else s
  }

  /** The length of the run of digits that starts `s`. */
  function DigitRun(s: string): (k: nat)
    ensures k <= |s| && AllDigits(s[..k])
    ensures k < |s| ==> !IsDigit(s[k])
  {
    if s != [] && IsDigit(s[0]) then
      var k := 1 + DigitRun(s[1..]);
      assert s[..k] == [s[0]] + s[1..][..k - 1];
      k
    else 0
  }

  /**
   * `parseFloat` restricted to natural numbers: after leading white space, the
   * value of the longest digit run, or no number (`NaN`) when there is none.
   */
  function ParseNumber(s: string): (r: Option<nat>)
    ensures r.None? <==> SkipSpaces(s) == [] || !IsDigit(SkipSpaces(s)[0])
  {
    var t := SkipSpaces(s);
    var k := DigitRun(t);
    if k == 0 then None else Some(DigitsValue(t[..k]))
  }

  /** `parseValue`: the leading number scaled by the first unit, tried in the order Gi, Mi, cores. */
  function ParseValue(value: string): (r: nat)
    ensures ParseNumber(value).None? ==> r == 0
    ensures ParseNumber(value).Some? && Includes(value, "Gi") ==> r == ParseNumber(value).value * 1024
    ensures ParseNumber(value).Some? && !Includes(value, "Gi") && Includes(value, "Mi") ==>
              r == ParseNumber(value).value
    ensures ParseNumber(value).Some? && !Includes(value, "Gi") && !Includes(value, "Mi") && Includes(value, "cores") ==>
              r == ParseNumber(value).value * 1000
    ensures ParseNumber(value).Some? && !Includes(value, "Gi") && !Includes(value, "Mi") && !Includes(value, "cores") ==>
              r == ParseNumber(value).value
  {
    match ParseNumber(value)
    case None => 0
    case Some(n) =>
      if Includes(value, "Gi") then n * 1024
      else if Includes(value, "Mi") then n
      else if Includes(value, "cores") then n * 1000
      else n
  }

  /** A numeral followed by a non-digit is read up to its last digit. */
  lemma {:induction false} DigitRunOfNumeral(ds: string, rest: string)
    requires AllDigits(ds)
    requires rest == [] || !IsDigit(rest[0])
    ensures DigitRun(ds + rest) == |ds|
    decreases |ds|
  {
    if ds == [] {
      assert ds + rest == rest;
    } else {
      assert (ds + rest)[1..] == ds[1..] + rest;
      DigitRunOfNumeral(ds[1..], rest);
    }
  }

  /** `parseFloat` reads back a decimal numeral followed by anything that is not a digit. */
  lemma NumeralParses(n: nat, rest: string)
    requires rest == [] || !IsDigit(rest[0])
    ensures ParseNumber(Decimal(n) + rest) == Some(n)
  {
    var s := Decimal(n) + rest;
    assert !IsSpace(s[0]);
    assert SkipSpaces(s) == s;
    DigitRunOfNumeral(Decimal(n), rest);
    assert s[..|Decimal(n)|] == Decimal(n);
  }

  /** A string whose first visible character is not a digit charts as 0. */
  lemma NoNumberIsZero(value: string)
    requires SkipSpaces(value) == [] || !IsDigit(SkipSpaces(value)[0])
    ensures ParseValue(value) == 0
  {
  }

  /** The quota of the overview page. */
  datatype ResourceQuota = ResourceQuota(cpu: string, memory: string, storage: string)

  const Quota := ResourceQuota("10 cores", "32Gi", "500Gi")

  /** The overview charts CPU at 10000 millicores, memory at 32768 Mi and storage at 512000 Mi. */
  lemma QuotaChartValues()
    ensures ParseValue(Quota.cpu) == 10000
    ensures ParseValue(Quota.memory) == 32768
    ensures ParseValue(Quota.storage) == 512000
  {
    CoresValue();
    MemoryValue();
    StorageValue();
  }

  lemma CoresValue()
    ensures ParseValue("10 cores") == 10000
  {
    assert Decimal(10) == "10";
    CoresValueOf(10, "10 cores");
  }

  /** A numeral followed by " cores" charts as that many millicores times 1000. */
  lemma CoresValueOf(n: nat, value: string)
    requires value == Decimal(n) + " cores"
    ensures ParseValue(value) == n * 1000
  {
    NumeralParses(n, " cores");
    CoresHasNoOtherUnit(n, value);
    AbsentCharNotIncluded(value, "Gi", 0);
    AbsentCharNotIncluded(value, "Mi", 0);
    CoresIncluded(n, value);
  }

  lemma CoresIncluded(n: nat, value: string)
    requires value == Decimal(n) + " cores"
    ensures Includes(value, "cores")
  {
    InfixIncluded(Decimal(n) + " ", "cores", "");
    assert Decimal(n) + " " + "cores" + "" == value;
  }

  lemma CoresHasNoOtherUnit(n: nat, value: string)
    requires value == Decimal(n) + " cores"
    ensures 'G' !in value && 'M' !in value
  {
    forall i | 0 <= i < |value|
      ensures value[i] != 'G' && value[i] != 'M'
    {
      if i >= |Decimal(n)| {
        assert value[i] == " cores"[i - |Decimal(n)|];
      }
    }
  }

  lemma MemoryValue()
    ensures ParseValue("32Gi") == 32768
  {
    assert Decimal(32) == "32";
    GiValue(32, "32Gi");
  }

  lemma StorageValue()
    ensures ParseValue("500Gi") == 512000
  {
    assert Decimal(500) == "500";
    GiValue(500, "500Gi");
  }

  /** A numeral directly followed by "Gi" charts as that many Mi times 1024. */
  lemma GiValue(n: nat, value: string)
    requires value == Decimal(n) + "Gi"
    ensures ParseValue(value) == n * 1024
  {
    NumeralParses(n, "Gi");
    InfixIncluded(Decimal(n), "Gi", "");
    assert Decimal(n) + "Gi" + "" == value;
  }

  /** The views the panel body shows. */
  datatype PoolView = OverviewView | NodesView | NoPoolView

  /** The overview and the node table each render only when the sub-menu string equals their name exactly. */
  function Render(activeSubMenu: string): (v: PoolView)
    ensures v.OverviewView? <==> activeSubMenu == "Overview"
    ensures v.NodesView? <==> activeSubMenu == "Nodes"
  {
    if activeSubMenu == "Overview" then OverviewView
    else if activeSubMenu == "Nodes" then NodesView
    else NoPoolView
  }
}
