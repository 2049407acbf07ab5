/** The job parser's text heuristics: salary parsing, experience-level
    classification and the check for missing fields. */
module JobParser {
  import opened Text
  import opened Collections

  // ------------------------------------------------------------------ salary

  /** `(min_salary, max_salary, currency)`, each possibly `None`. */
  datatype Salary = Salary(min: Option<int>, max: Option<int>, currency: Option<string>)

  /** Pound sign or `GBP` first, then dollar sign or `USD`, then euro sign or
      `EUR`; the codes are matched in any case. */
  function CurrencyOf(s: string): (r: Option<string>)
    ensures r == Some("GBP") <==> '£' in s || Contains(Upper(s), "GBP")
    ensures r == Some("USD") <==> !('£' in s || Contains(Upper(s), "GBP")) && ('$' in s || Contains(Upper(s), "USD"))
    ensures r.None? <==> !('£' in s || Contains(Upper(s), "GBP") || '$' in s || Contains(Upper(s), "USD")
                            || '€' in s || Contains(Upper(s), "EUR"))
  {
    if '£' in s || Contains(Upper(s), "GBP") then Some("GBP")
    else if '$' in s || Contains(Upper(s), "USD") then Some("USD")
    else if '€' in s || Contains(Upper(s), "EUR") then Some("EUR")
    else None
  }

  predicate IsNumChar(c: char) {
    IsDigit(c) || c == ','
  }

  /** Position `p` begins a maximal run of digits and commas in `s[from..]`:
      a number character whose left neighbour, unless `p` is `from`, is not one. */
  predicate IsRunStart(s: string, from: nat, p: nat) {
    from <= p < |s| && IsNumChar(s[p]) && (p == from || !IsNumChar(s[p - 1]))
  }

  /** The positions at or after `p` where a run of `s[from..]` begins: every
      such position, each once, in increasing order. */
  function RunStarts(s: string, from: nat, p: nat): (r: seq<nat>)
    requires p <= |s|
    ensures forall k | 0 <= k < |r| :: p <= r[k] && IsRunStart(s, from, r[k])
    ensures forall k, l | 0 <= k < l < |r| :: r[k] < r[l]
    ensures forall q | p <= q < |s| && IsRunStart(s, from, q) :: q in r
    decreases |s| - p
  {
    if p == |s| then []
    else if IsRunStart(s, from, p) then [p] + RunStarts(s, from, p + 1)
    else RunStarts(s, from, p + 1)
  }

  lemma {:induction false} RunStartsAgree(s: string, f1: nat, f2: nat, p: nat)
    requires p <= |s|
    requires forall q | p <= q < |s| :: IsRunStart(s, f1, q) == IsRunStart(s, f2, q)
    ensures RunStarts(s, f1, p) == RunStarts(s, f2, p)
    decreases |s| - p
  {
    if p < |s| {
      RunStartsAgree(s, f1, f2, p + 1);
    }
  }

  lemma {:induction false} RunStartsSkip(s: string, from: nat, p: nat, q: nat)
    requires p <= q <= |s|
    requires forall j | p <= j < q :: !IsRunStart(s, from, j)
    ensures RunStarts(s, from, p) == RunStarts(s, from, q)
    decreases q - p
  {
    if p < q {
      RunStartsSkip(s, from, p + 1, q);
    }
  }

  /** `re.findall(r'[\d,]+', s[from:])`: the maximal runs of digits and commas,
      left to right. */
  function NumberRuns(s: string, from: nat): (r: seq<string>)
    requires from <= |s|
    ensures forall k | 0 <= k < |r| :: r[k] != [] && forall j | 0 <= j < |r[k]| :: IsNumChar(r[k][j])
    decreases |s| - from
  {
    if from == |s| then []
    else if IsNumChar(s[from]) then
      var e := RunEnd(s, from, true);
      [s[from..e]] + NumberRuns(s, e)
    else NumberRuns(s, from + 1)
  }

  /** The runs found are exactly the maximal runs of `s[from..]`: one for each
      run start, in increasing order of start, each reaching to the end of its
      run, and nothing else. */
  lemma {:induction false} NumberRunsExact(s: string, from: nat)
    requires from <= |s|
    ensures var r, starts := NumberRuns(s, from), RunStarts(s, from, from);
            && |r| == |starts|
            && forall k | 0 <= k < |r| :: r[k] == s[starts[k]..RunEnd(s, starts[k], true)]
    decreases |s| - from
  {
    if from < |s| {
      if IsNumChar(s[from]) {
        var e := RunEnd(s, from, true);
        RunStartsSkip(s, from, from + 1, e);
        RunStartsAgree(s, from, e, e);
        NumberRunsExact(s, e);
      } else {
        RunStartsAgree(s, from, from + 1, from + 1);
        NumberRunsExact(s, from + 1);
      }
    }
  }

  lemma {:induction false} ReplaceChars(s: string, pat: string, rep: string)
    requires pat != []
    ensures forall c | c in ReplaceAll(s, pat, rep) :: c in s || c in rep
    decreases |s|
  {
    if s != [] {
      if StartsWith(s, pat) {
        ReplaceChars(s[|pat|..], pat, rep);
        assert forall c | c in s[|pat|..] :: c in s;
      } else {
        ReplaceChars(s[1..], pat, rep);
        assert forall c | c in s[1..] :: c in s;
      }
    }
  }

  /** `int(run.replace(',', ''))`: `None` stands for the `ValueError` that
      `int('')` raises on a run made only of commas. */
  function RunValue(run: string): (r: Option<nat>)
    requires forall j | 0 <= j < |run| :: IsNumChar(run[j])
  {
    var digits := ReplaceAll(run, ",", "");
    DropCommasDigits(run);
    if digits == [] then None else Some(DigitsValue(digits))
  }

  lemma DropCommasDigits(run: string)
    requires forall j | 0 <= j < |run| :: IsNumChar(run[j])
    ensures forall j | 0 <= j < |ReplaceAll(run, ",", "")| :: IsDigit(ReplaceAll(run, ",", "")[j])
  {
    var digits := ReplaceAll(run, ",", "");
    ReplaceChars(run, ",", "");
    ReplaceCharRemoves(run, ',', "");
    forall j | 0 <= j < |digits| ensures IsDigit(digits[j]) {
      assert digits[j] in digits;
      var k :| 0 <= k < |run| && run[k] == digits[j];
    }
  }

  /** A run yields a value exactly when it holds a digit. */
  lemma {:induction false} RunValueDefined(run: string)
    requires forall j | 0 <= j < |run| :: IsNumChar(run[j])
    ensures RunValue(run).Some? <==> HasDigit(run)
    decreases |run|
  {
    if run != [] {
      var rest := run[1..];
      RunValueDefined(rest);
      assert StartsWith(run, ",") <==> run[0] == ',';
      if run[0] == ',' {
        assert ReplaceAll(run, ",", "") == ReplaceAll(rest, ",", "");
        assert HasDigit(run) <==> HasDigit(rest) by {
          if HasDigit(run) {
            var i :| 0 <= i < |run| && IsDigit(run[i]);
            assert rest[i - 1] == run[i];
          }
          if HasDigit(rest) {
            var i :| 0 <= i < |rest| && IsDigit(rest[i]);
            assert run[i + 1] == rest[i];
          }
        }
      } else {
        assert ReplaceAll(run, ",", "") == [run[0]] + ReplaceAll(rest, ",", "");
        assert IsDigit(run[0]);
      }
    }
  }

  /** `'k'` anywhere in the lower-cased string multiplies every number by 1000. */
  predicate Kilo(s: string) {
    Contains(Lower(s), "k")
  }

  /** An hourly rate is turned into a yearly one at 40 hours for 52 weeks. */
  predicate Hourly(s: string) {
    var l := Lower(s);
    Contains(l, "/hour") || Contains(l, "per hour") || Contains(l, "/hr") || Contains(l, "hourly")
  }

  function Scaled(v: nat, kilo: bool, hourly: bool): nat {
    var k := if kilo then v * 1000 else v;
    if hourly then k * 40 * 52 else k
  }

  function MinOf(xs: seq<int>): (m: int)
    requires xs != []
    ensures m in xs && forall x | x in xs :: m <= x
  {
    if |xs| == 1 then xs[0]
    else var rest := MinOf(xs[1..]); assert xs == [xs[0]] + xs[1..]; if xs[0] <= rest then xs[0] else rest
  }

  function MaxOf(xs: seq<int>): (m: int)
    requires xs != []
    ensures m in xs && forall x | x in xs :: x <= m
  {
    if |xs| == 1 then xs[0]
    else var rest := MaxOf(xs[1..]); assert xs == [xs[0]] + xs[1..]; if xs[0] >= rest then xs[0] else rest
  }

  /** The values of the runs, or `None` when a run has no digit. */
  function RunValues(runs: seq<string>, kilo: bool): (r: Option<seq<nat>>)
    requires forall k | 0 <= k < |runs| :: forall j | 0 <= j < |runs[k]| :: IsNumChar(runs[k][j])
    ensures r.Some? ==> |r.value| == |runs|
    ensures r.Some? <==> forall k | 0 <= k < |runs| :: RunValue(runs[k]).Some?
    ensures r.Some? ==> forall k | 0 <= k < |runs| :: r.value[k] == Scaled(RunValue(runs[k]).value, kilo, false)
  {
    if runs == [] then Some([])
    else
      var init := RunValues(runs[..|runs| - 1], kilo);
      var last := RunValue(runs[|runs| - 1]);
      assert forall k | 0 <= k < |runs| - 1 :: runs[..|runs| - 1][k] == runs[k];
      if init.None? || last.None? then None
      else Some(init.value + [Scaled(last.value, kilo, false)])
  }

  /** The whole of `parse_salary`: `ValueError` on a comma-only run, otherwise
      the smallest and largest values and the currency. */
  function SalaryOf(s: string): Result<Salary> {
    if s == [] then Ok(Salary(None, None, None))
    else
      var currency := CurrencyOf(s);
      var runs := NumberRuns(s, 0);
      if runs == [] then Ok(Salary(None, None, currency))
      else
        var values := RunValues(runs, Kilo(s));
        if values.None? then Err("ValueError")
        else
          var yearly := seq(|values.value|, i requires 0 <= i < |values.value| => Scaled(values.value[i], false, Hourly(s)));
          Ok(Salary(Some(MinOf(yearly)), Some(MaxOf(yearly)), currency))
  }

  method ParseSalary(s: string) returns (r: Result<Salary>)
    ensures r == SalaryOf(s)
  {
    if s == [] {
      return Ok(Salary(None, None, None));
    }
    var currency := CurrencyOf(s);
    var numbers := NumberRuns(s, 0);
    if numbers == [] {
      return Ok(Salary(None, None, currency));
    }
    var values := ConvertRuns(numbers, Kilo(s));
    if values.None? {
      return Err("ValueError");
    }
    var hourly := Hourly(s);
    var yearly := seq(|values.value|, i requires 0 <= i < |values.value| => Scaled(values.value[i], false, hourly));
    r := Ok(Salary(Some(MinOf(yearly)), Some(MaxOf(yearly)), currency));
  }

  /** The conversion loop: each run loses its commas and is read as an
      integer, scaled by 1000 under `kilo`; the first comma-only run stops it. */
  method ConvertRuns(numbers: seq<string>, kilo: bool) returns (values: Option<seq<nat>>)
    requires forall k | 0 <= k < |numbers| :: forall j | 0 <= j < |numbers[k]| :: IsNumChar(numbers[k][j])
    ensures values == RunValues(numbers, kilo)
  {
    var acc: seq<nat> := [];
    for i := 0 to |numbers|
      invariant RunValues(numbers[..i], kilo) == Some(acc)
    {
      assert numbers[..i + 1][..i] == numbers[..i];
      var num := RunValue(numbers[i]);
      if num.None? {
        assert RunValues(numbers[..i + 1], kilo).None?;
        RunValuesPrefix(numbers, kilo, i + 1);
        return None;
      }
      acc := acc + [Scaled(num.value, kilo, false)];
    }
    assert numbers[..|numbers|] == numbers;
    values := Some(acc);
  }

  lemma RunValuesPrefix(runs: seq<string>, kilo: bool, n: nat)
    requires n <= |runs|
    requires forall k | 0 <= k < |runs| :: forall j | 0 <= j < |runs[k]| :: IsNumChar(runs[k][j])
    requires RunValues(runs[..n], kilo).None?
    ensures RunValues(runs, kilo).None?
  {
    var k :| 0 <= k < n && RunValue(runs[..n][k]).None?;
    assert runs[k] == runs[..n][k];
  }

  /** A successful parse with numbers gives both bounds: every run has a
      value, the smallest and the largest of the runs' values (scaled by 1000
      under `k`, by 40 * 52 when hourly) are the bounds, and the currency is
      the one detected. */
  lemma SalaryBounds(s: string)
    requires SalaryOf(s).Ok? && SalaryOf(s).value.min.Some?
    ensures var v := SalaryOf(s).value;
            && v.max.Some? && v.min.value <= v.max.value
            && v.currency == CurrencyOf(s)
    ensures var v := SalaryOf(s).value; var runs := NumberRuns(s, 0);
            && runs != []
            && (forall k | 0 <= k < |runs| ::
                  && RunValue(runs[k]).Some?
                  && v.min.value <= Scaled(RunValue(runs[k]).value, Kilo(s), Hourly(s)) <= v.max.value)
            && (exists k | 0 <= k < |runs| ::
                  RunValue(runs[k]).Some? && v.min.value == Scaled(RunValue(runs[k]).value, Kilo(s), Hourly(s)))
            && (exists k | 0 <= k < |runs| ::
                  RunValue(runs[k]).Some? && v.max.value == Scaled(RunValue(runs[k]).value, Kilo(s), Hourly(s)))
  {
    var runs := NumberRuns(s, 0);
    var values := RunValues(runs, Kilo(s)).value;
    var yearly := seq(|values|, i requires 0 <= i < |values| => Scaled(values[i], false, Hourly(s)));
    var v := SalaryOf(s).value;
    assert v.min == Some(MinOf(yearly)) && v.max == Some(MaxOf(yearly));
    forall k | 0 <= k < |runs|
      ensures v.min.value <= Scaled(RunValue(runs[k]).value, Kilo(s), Hourly(s)) <= v.max.value
    {
      assert yearly[k] in yearly;
    }
    var lo :| 0 <= lo < |yearly| && yearly[lo] == MinOf(yearly);
    var hi :| 0 <= hi < |yearly| && yearly[hi] == MaxOf(yearly);
    assert v.min.value == Scaled(RunValue(runs[lo]).value, Kilo(s), Hourly(s));
    assert v.max.value == Scaled(RunValue(runs[hi]).value, Kilo(s), Hourly(s));
  }

  /** `parse_salary` raises `ValueError` exactly when one of the runs has no
      digit, that is, is made only of commas. */
  lemma SalaryErrors(s: string)
    ensures SalaryOf(s).Err? <==>
            exists k | 0 <= k < |NumberRuns(s, 0)| :: !HasDigit(NumberRuns(s, 0)[k])
  {
    var runs := NumberRuns(s, 0);
    forall k | 0 <= k < |runs| ensures RunValue(runs[k]).Some? <==> HasDigit(runs[k]) {
      RunValueDefined(runs[k]);
    }
    if s == [] {
      assert runs == [];
    } else if runs != [] {
      assert SalaryOf(s).Err? <==> RunValues(runs, Kilo(s)).None?;
    }
  }

  /** An empty string gives three `None`s, a string without digits or commas
      gives only the currency. */
  lemma {:induction false} SalaryWithoutNumbers(s: string)
    requires forall i | 0 <= i < |s| :: !IsNumChar(s[i])
    ensures SalaryOf(s) == Ok(Salary(None, None, if s == [] then None else CurrencyOf(s)))
  {
    NoRuns(s, 0);
  }

  lemma {:induction false} NoRuns(s: string, from: nat)
    requires from <= |s|
    requires forall i | from <= i < |s| :: !IsNumChar(s[i])
    ensures NumberRuns(s, from) == []
    decreases |s| - from
  {
    if from < |s| {
      NoRuns(s, from + 1);
    }
  }

  /** A comma standing alone between non-number characters, as in `"a, b"`,
      is a run of its own, and `int('')` on it raises `ValueError`. */
  lemma LoneCommaRaises(s: string, i: nat)
    requires i < |s| && s[i] == ','
    requires i == 0 || !IsNumChar(s[i - 1])
    requires i + 1 == |s| || !IsNumChar(s[i + 1])
    ensures SalaryOf(s) == Err("ValueError")
  {
    var runs := NumberRuns(s, 0);
    var k := RunStartsAt(s, 0, i);
    assert runs[k] == s[i..RunEnd(s, i, true)];
    assert RunEnd(s, i, true) == i + 1;
    assert runs[k] == [','];
    assert ReplaceAll([','], ",", "") == [];
    assert RunValue(runs[k]).None?;
  }

  /** A position where a run starts (its left neighbour is not a number
      character) yields a run of `NumberRuns` beginning there. */
  lemma {:induction false} RunStartsAt(s: string, from: nat, i: nat) returns (k: nat)
    requires from <= i < |s| && IsNumChar(s[i])
    requires i == from || !IsNumChar(s[i - 1])
    ensures k < |NumberRuns(s, from)| && NumberRuns(s, from)[k] == s[i..RunEnd(s, i, true)]
    decreases |s| - from
  {
    if from == i {
      k := 0;
    } else if IsNumChar(s[from]) {
      var e := RunEnd(s, from, true);
      assert e <= i by {
        assert !IsNumChar(s[i - 1]);
      }
      var k' := RunStartsAt(s, e, i);
      k := k' + 1;
    } else {
      k := RunStartsAt(s, from + 1, i);
    }
  }

  /** With `k` in the string, a lone number `n` gives `n * 1000` for both
      bounds, and `n * 1000 * 40 * 52` when the rate is hourly. */
  lemma KiloSingle(s: string, n: nat)
    requires Kilo(s)
    requires NumberRuns(s, 0) == [Digits(n)]
    ensures SalaryOf(s).Ok? && SalaryOf(s).value.min == SalaryOf(s).value.max
    ensures SalaryOf(s).value.min == Some(if Hourly(s) then n * 1000 * 40 * 52 else n * 1000)
  {
    DigitsRoundTrip(n);
    var runs := NumberRuns(s, 0);
    assert ReplaceAll(runs[0], ",", "") == runs[0] by {
      CharAbsent(runs[0], ',');
      ReplaceAbsent(runs[0], ",", "");
    }
    assert RunValue(runs[0]) == Some(n);
    assert s != [];
    var values := RunValues(runs, true);
    assert values.Some? && |values.value| == 1 && values.value[0] == n * 1000;
    var yearly := seq(1, i requires 0 <= i < 1 => Scaled(values.value[i], false, Hourly(s)));
    assert yearly == [if Hourly(s) then n * 1000 * 40 * 52 else n * 1000];
    assert SalaryOf(s) == Ok(Salary(Some(MinOf(yearly)), Some(MaxOf(yearly)), CurrencyOf(s)));
  }

  /** The decimal digits of `n`, most significant first. */
  function Digits(n: nat): (r: string)
    ensures r != [] && forall j | 0 <= j < |r| :: IsDigit(r[j])
  {
    if n < 10 then [('0' as int + n) as char] else Digits(n / 10) + [('0' as int + n % 10) as char]
  }

  lemma {:induction false} DigitsRoundTrip(n: nat)
    ensures DigitsValue(Digits(n)) == n
    ensures ',' !in Digits(n)
  {
    if n >= 10 {
      DigitsRoundTrip(n / 10);
      var d := Digits(n);
      assert d[..|d| - 1] == Digits(n / 10);
    }
  }

  // -------------------------------------------------------- experience level

  predicate ContainsAnyOf(t: string, words: seq<string>) {
    exists k | 0 <= k < |words| :: Contains(t, words[k])
  }

  /** The first position at or after `p` that is not whitespace. */
  function SkipSpace(t: string, p: nat): (q: nat)
    requires p <= |t|
    ensures p <= q <= |t| && (q == |t| || !IsSpace(t[q]))
    ensures forall j | p <= j < q :: IsSpace(t[j])
    decreases |t| - p
  {
    if p < |t| && IsSpace(t[p]) then SkipSpace(t, p + 1) else p
  }

  /** Whether `\+?\s*years?\s*(?:of)?\s*experience` matches at `p`. Each optional
      part is taken whenever present: dropping it could never let the rest match,
      so the regex engine's backtracking changes nothing. */
  predicate YearsTail(t: string, p: nat)
    requires p <= |t|
  {
    var q0 := if p < |t| && t[p] == '+' then p + 1 else p;
    var q1 := SkipSpace(t, q0);
    OccursAt(t, "year", q1) &&
      var q2 := q1 + 4;
      var q3 := if q2 < |t| && t[q2] == 's' then q2 + 1 else q2;
      var q4 := SkipSpace(t, q3);
      var q5 := if OccursAt(t, "of", q4) then q4 + 2 else q4;
      OccursAt(t, "experience", SkipSpace(t, q5))
  }

  /** The regex `(\d+)\+?\s*years?...` matches starting at `i`: the greedy digit
      run from `i` is followed by the rest of the pattern. */
  predicate MatchAt(t: string, i: nat)
    requires i < |t|
  {
    IsDigit(t[i]) && YearsTail(t, RunEnd(t, i, false))
  }

  lemma {:induction false} RunEndInside(t: string, from: nat, i: nat)
    requires from <= |t| && from <= i <= RunEnd(t, from, false)
    ensures RunEnd(t, i, false) == RunEnd(t, from, false)
    decreases i - from
  {
    if from < i {
      RunEndInside(t, from + 1, i);
    }
  }

  /** `int()` of the greedy digit run starting at `i`. */
  function NumberAt(t: string, i: nat): nat
    requires i <= |t|
  {
    var e := RunEnd(t, i, false);
    assert forall j | 0 <= j < |t[i..e]| :: IsDigit(t[i..e][j]) by {
      forall j | 0 <= j < |t[i..e]| ensures IsDigit(t[i..e][j]) {
        assert t[i..e][j] == t[i + j];
      }
    }
    DigitsValue(t[i..e])
  }

  /** `re.search` for the years pattern from `from`: the number in the first match. */
  function FirstYears(t: string, from: nat): (r: Option<nat>)
    requires from <= |t|
    decreases |t| - from
  {
    if from == |t| then None
    else if IsDigit(t[from]) then
      var e := RunEnd(t, from, false);
      if YearsTail(t, e) then Some(NumberAt(t, from)) else FirstYears(t, e)
    else FirstYears(t, from + 1)
  }

  /** The scan finds the leftmost match: `None` when nothing matches, otherwise
      the number at the first position where the pattern matches. Starting the
      scan only at the beginnings of digit runs loses nothing, because a start
      inside a run sees the same tail. */
  lemma {:induction false} FirstYearsCorrect(t: string, from: nat)
    requires from <= |t|
    requires from == 0 || from == |t| || !IsDigit(t[from - 1]) || !IsDigit(t[from])
    ensures FirstYears(t, from).None? ==> forall i | from <= i < |t| :: !MatchAt(t, i)
    ensures FirstYears(t, from).Some? ==> exists i | from <= i < |t| ::
              && MatchAt(t, i) && FirstYears(t, from).value == NumberAt(t, i)
              && forall j | from <= j < i :: !MatchAt(t, j)
    decreases |t| - from
  {
    if from == |t| {
    } else if IsDigit(t[from]) {
      var e := RunEnd(t, from, false);
      if YearsTail(t, e) {
        assert MatchAt(t, from);
      } else {
        FirstYearsCorrect(t, e);
        RunFails(t, from, e);
      }
    } else {
      FirstYearsCorrect(t, from + 1);
      assert !MatchAt(t, from);
    }
  }

  /** Inside a digit run whose tail fails, no start position matches. */
  lemma RunFails(t: string, from: nat, e: nat)
    requires from < |t| && IsDigit(t[from]) && e == RunEnd(t, from, false)
    requires !YearsTail(t, e)
    ensures forall j | from <= j < e :: !MatchAt(t, j)
  {
    forall j | from <= j < e ensures !MatchAt(t, j) {
      RunEndInside(t, from, j);
    }
  }

  /** Bucketing a number of years. */
  function YearsLevel(years: nat): string {
    if years <= 2 then "junior" else if years <= 5 then "mid" else if years <= 8 then "senior" else "staff"
  }

  /** Explicit level words first, in the order junior, staff, principal,
      senior, mid; then the first "N years experience"; otherwise mid. */
  function LevelWord(t: string): Option<string> {
    if ContainsAnyOf(t, ["junior", "entry level", "graduate", "early career"]) then Some("junior")
    else if ContainsAnyOf(t, ["staff engineer", "staff software"]) then Some("staff")
    else if ContainsAnyOf(t, ["principal", "distinguished"]) then Some("principal")
    else if ContainsAnyOf(t, ["senior", "sr.", "lead"]) then Some("senior")
    else if ContainsAnyOf(t, ["mid-level", "intermediate", "mid level"]) then Some("mid")
    else None
  }

  function ExperienceLevel(text: string): (r: string)
    ensures r in {"junior", "mid", "senior", "staff", "principal"}
  {
    var t := Lower(text);
    match LevelWord(t)
      case Some(level) => level
      case None =>
        match FirstYears(t, 0)
          case Some(years) => YearsLevel(years)
          case None => "mid"
  }

  function Seniority(level: string): nat {
    if level == "junior" then 0 else if level == "mid" then 1 else if level == "senior" then 2 else 3
  }

  /** More years never give a more junior bucket. */
  lemma YearsLevelMonotone(y1: nat, y2: nat)
    requires y1 <= y2
    ensures Seniority(YearsLevel(y1)) <= Seniority(YearsLevel(y2))
  {
  }

  /** An explicit level word decides the level whatever number of years the
      text states; a junior word gives junior whatever else occurs; principal
      comes only from a word, never from a number of years. */
  lemma LevelPrecedence(text: string)
    ensures LevelWord(Lower(text)).Some? ==> ExperienceLevel(text) == LevelWord(Lower(text)).value
    ensures ContainsAnyOf(Lower(text), ["junior", "entry level", "graduate", "early career"]) ==>
              ExperienceLevel(text) == "junior"
    ensures ExperienceLevel(text) == "principal" <==>
              && !ContainsAnyOf(Lower(text), ["junior", "entry level", "graduate", "early career"])
              && !ContainsAnyOf(Lower(text), ["staff engineer", "staff software"])
              && ContainsAnyOf(Lower(text), ["principal", "distinguished"])
  {
  }

  /** Without any level word and without a years match, the level is mid. */
  lemma LevelDefault(text: string)
    requires LevelWord(Lower(text)).None?
    requires forall i | 0 <= i < |Lower(text)| :: !MatchAt(Lower(text), i)
    ensures ExperienceLevel(text) == "mid"
  {
    FirstYearsCorrect(Lower(text), 0);
  }

  /** Without any level word, the number of years at the first match decides
      the level. */
  lemma LevelFromYears(text: string, i: nat)
    requires LevelWord(Lower(text)).None?
    requires i < |Lower(text)| && MatchAt(Lower(text), i)
    requires forall j | 0 <= j < i :: !MatchAt(Lower(text), j)
    ensures ExperienceLevel(text) == YearsLevel(NumberAt(Lower(text), i))
  {
    var t := Lower(text);
    FirstYearsCorrect(t, 0);
    var i' :| 0 <= i' < |t| && MatchAt(t, i') && FirstYears(t, 0).value == NumberAt(t, i')
              && forall j | 0 <= j < i' :: !MatchAt(t, j);
    FirstMatchUnique(t, i, i');
  }

  lemma FirstMatchUnique(t: string, i: nat, i': nat)
    requires i < |t| && MatchAt(t, i) && forall j | 0 <= j < i :: !MatchAt(t, j)
    requires i' < |t| && MatchAt(t, i') && forall j | 0 <= j < i' :: !MatchAt(t, j)
    ensures i == i'
  {
  }

  // ---------------------------------------------------------- missing fields

  const IMPORTANT_FIELDS: seq<string> := ["role", "company", "location"]

  /** A field is missing when the job data lacks it or holds an empty value. */
  predicate Missing(data: map<string, string>, field: string) {
    field !in data || data[field] == ""
  }

  /** The important fields that are missing, in the order role, company, location. */
  method GetMissingFields(data: map<string, string>) returns (missing: seq<string>)
    ensures missing == Filter(IMPORTANT_FIELDS, (f: string) => Missing(data, f))
    ensures forall f :: f in missing <==> f in IMPORTANT_FIELDS && Missing(data, f)
  {
    missing := [];
    for k := 0 to |IMPORTANT_FIELDS|
      invariant missing == Filter(IMPORTANT_FIELDS[..k], (f: string) => Missing(data, f))
    {
      FilterSnoc(IMPORTANT_FIELDS[..k], IMPORTANT_FIELDS[k], (f: string) => Missing(data, f));
      assert IMPORTANT_FIELDS[..k + 1] == IMPORTANT_FIELDS[..k] + [IMPORTANT_FIELDS[k]];
      if Missing(data, IMPORTANT_FIELDS[k]) {
        missing := missing + [IMPORTANT_FIELDS[k]];
      }
    }
    assert IMPORTANT_FIELDS[..|IMPORTANT_FIELDS|] == IMPORTANT_FIELDS;
  }
}
