/**
 * The log-tail telemetry that `src/lambdas/invoker/index.mjs` and
 * `bench/index.mjs` both read out of a Lambda invocation: the first match
 * of a pattern `(?<=(M))[\d.]+(?=(U))` (a run of digits and dots right
 * after a marker `M` and right before a unit `U`), turned into a number
 * with `Number`, and the check that the invocation did not fail.
 */
module Telemetry {
  import opened Wrappers
  import opened Js
  import opened Ordering

  /** The markers and units of `maxMemRe` and of `initDurationRe` (`coldstartRe`). */
  const MemoryMarker := "Max Memory Used: "
  const MemoryUnit := " MB"
  const InitMarker := "Init Duration: "
  const InitUnit := " ms"

  // ---------------------------------------------------------------------
  // The pattern

  /** `[\d.]`. */
  predicate IsNumeral(c: char) {
    '0' <= c <= '9' || c == '.'
  }

  predicate AllNumerals(s: string) {
    forall i :: 0 <= i < |s| ==> IsNumeral(s[i])
  }

  /** The length of the longest run of `[\d.]` in `text` that starts at `p`. */
  function RunLength(text: string, p: nat): (n: nat)
    requires p <= |text|
    ensures p + n <= |text|
    ensures AllNumerals(text[p..p + n])
    ensures p + n == |text| || !IsNumeral(text[p + n])
    decreases |text| - p
  {
    if p < |text| && IsNumeral(text[p]) then
      var n := RunLength(text, p + 1);
      assert text[p..p + 1 + n] == [text[p]] + text[p + 1..p + 1 + n];
      1 + n
    else 0
  }

  /** `text` holds `marker` right before position `p`: the lookbehind holds at `p`. */
  predicate Behind(text: string, p: nat, marker: string) {
    |marker| <= p <= |text| && text[p - |marker|..p] == marker
  }

  /** `text` holds `unit` from position `q` on: the lookahead holds at `q`. */
  predicate Ahead(text: string, q: nat, unit: string) {
    q + |unit| <= |text| && text[q..q + |unit|] == unit
  }

  /**
   * The greedy `[\d.]+` starting at `p` backtracking from length `n`: the
   * largest length up to `n` after which the lookahead holds, 0 if none.
   */
  function Backtrack(text: string, p: nat, n: nat, unit: string): (k: nat)
    requires p + n <= |text|
    ensures k <= n
    ensures k > 0 ==> Ahead(text, p + k, unit)
    ensures forall q :: p + k < q <= p + n ==> !Ahead(text, q, unit)
  {
    if n == 0 then 0
    else if Ahead(text, p + n, unit) then n
    else Backtrack(text, p, n - 1, unit)
  }

  /** The length of the match that starts at `p`, 0 when none starts there. */
  function MatchLength(text: string, p: nat, marker: string, unit: string): nat
    requires p <= |text|
  {
    if Behind(text, p, marker) then Backtrack(text, p, RunLength(text, p), unit) else 0
  }

  /** The first match that starts at `p` or later, if any. */
  function Scan(text: string, marker: string, unit: string, p: nat): Option<string>
    requires p <= |text|
    decreases |text| - p
  {
    var n := MatchLength(text, p, marker, unit);
    if n > 0 then Some(text[p..p + n])
    else if p == |text| then None
    else Scan(text, marker, unit, p + 1)
  }

  /**
   * `text.match(re)`: `None` for `null`, `Some(s)` when `s` is the first
   * element of the array of matches.
   */
  function FirstMatch(text: string, marker: string, unit: string): Option<string> {
    Scan(text, marker, unit, 0)
  }

  /**
   * What a match is, for a unit that starts with neither a digit nor a dot
   * (as `" MB"` and `" ms"` do): the marker right before, a non-empty
   * maximal run of digits and dots, and the unit right after.
   */
  predicate Matches(text: string, p: nat, marker: string, unit: string)
    requires p <= |text|
  {
    Behind(text, p, marker) && RunLength(text, p) > 0 && Ahead(text, p + RunLength(text, p), unit)
  }

  predicate PlainUnit(unit: string) {
    unit != [] && !IsNumeral(unit[0])
  }

  /** With such a unit the regex never backtracks into the run: it matches the whole run or nothing. */
  lemma MatchLengthIsRun(text: string, p: nat, marker: string, unit: string)
    requires p <= |text| && PlainUnit(unit)
    ensures MatchLength(text, p, marker, unit) > 0 <==> Matches(text, p, marker, unit)
    ensures MatchLength(text, p, marker, unit) > 0 ==> MatchLength(text, p, marker, unit) == RunLength(text, p)
  {
    if Behind(text, p, marker) {
      var n := RunLength(text, p);
      var k := Backtrack(text, p, n, unit);
      if 0 < k < n {
        RunHolds(text, p, n, k);
        AheadStarts(text, p + k, unit);
        assert false;
      }
    }
  }

  lemma RunHolds(text: string, p: nat, n: nat, k: nat)
    requires p + n <= |text| && AllNumerals(text[p..p + n]) && k < n
    ensures IsNumeral(text[p + k])
  {
    assert text[p..p + n][k] == text[p + k];
  }

  lemma AheadStarts(text: string, q: nat, unit: string)
    requires unit != [] && Ahead(text, q, unit)
    ensures text[q] == unit[0]
  {
    assert text[q..q + |unit|][0] == text[q];
  }

  /** The pattern matches nowhere from `a` up to, not including, `b`. */
  predicate NoMatchBetween(text: string, marker: string, unit: string, a: nat, b: nat)
    requires b <= |text|
  {
    forall r :: a <= r < b ==> !Matches(text, r, marker, unit)
  }

  /** The scan from `p` comes back empty exactly when nothing matches at `p` or later. */
  lemma {:induction false} ScanNone(text: string, marker: string, unit: string, p: nat)
    requires p <= |text| && PlainUnit(unit)
    ensures Scan(text, marker, unit, p).None? <==> forall q :: p <= q <= |text| ==> !Matches(text, q, marker, unit)
    decreases |text| - p
  {
    MatchLengthIsRun(text, p, marker, unit);
    if p < |text| {
      ScanNone(text, marker, unit, p + 1);
    }
  }

  /** The scan from `p` yields the whole run at the first position at or after `p` where the pattern matches. */
  lemma ScanAt(text: string, marker: string, unit: string, p: nat, q: nat)
    requires PlainUnit(unit) && p <= q <= |text| && Matches(text, q, marker, unit)
    requires NoMatchBetween(text, marker, unit, p, q)
    ensures Scan(text, marker, unit, p) == Some(text[q..q + RunLength(text, q)])
  {
    ScanSkips(text, marker, unit, p, q);
    ScanHere(text, marker, unit, q);
  }

  /** Where the pattern matches, the scan stops and yields the whole run. */
  lemma ScanHere(text: string, marker: string, unit: string, q: nat)
    requires PlainUnit(unit) && q <= |text| && Matches(text, q, marker, unit)
    ensures Scan(text, marker, unit, q) == Some(text[q..q + RunLength(text, q)])
  {
    MatchLengthIsRun(text, q, marker, unit);
  }

  /** Where the pattern matches at or after `p`, there is a first such position. */
  lemma {:induction false} FirstMatching(text: string, marker: string, unit: string, p: nat) returns (q: nat)
    requires p <= |text| && exists r :: p <= r <= |text| && Matches(text, r, marker, unit)
    ensures p <= q <= |text| && Matches(text, q, marker, unit)
    ensures NoMatchBetween(text, marker, unit, p, q)
    decreases |text| - p
  {
    if Matches(text, p, marker, unit) {
      q := p;
    } else {
      var r :| p <= r <= |text| && Matches(text, r, marker, unit);
      assert r != p;
      q := FirstMatching(text, marker, unit, p + 1);
    }
  }

  /**
   * `text.match(re)[0]` is the leftmost match: it is `null` exactly when
   * the pattern matches nowhere, and otherwise the whole run of digits and
   * dots at the first position where it matches.
   */
  lemma FirstMatchIsLeftmost(text: string, marker: string, unit: string)
    requires PlainUnit(unit)
    ensures FirstMatch(text, marker, unit).None? <==> forall q :: 0 <= q <= |text| ==> !Matches(text, q, marker, unit)
    ensures FirstMatch(text, marker, unit).Some? ==> exists q :: (
      && 0 <= q <= |text| && LeftmostMatch(text, marker, unit, q)
      && FirstMatch(text, marker, unit).value == text[q..q + RunLength(text, q)])
  {
    ScanNone(text, marker, unit, 0);
    if FirstMatch(text, marker, unit).Some? {
      var q := FirstMatching(text, marker, unit, 0);
      ScanAt(text, marker, unit, 0, q);
      assert 0 <= q <= |text| && LeftmostMatch(text, marker, unit, q)
        && FirstMatch(text, marker, unit).value == text[q..q + RunLength(text, q)];
    }
  }

  /** The pattern matches at `q` and nowhere before it. */
  predicate LeftmostMatch(text: string, marker: string, unit: string, q: nat)
    requires q <= |text|
  {
    Matches(text, q, marker, unit) && NoMatchBetween(text, marker, unit, 0, q)
  }

  /** A match is a non-empty run of digits and dots. */
  lemma FirstMatchIsNumerals(text: string, marker: string, unit: string)
    requires PlainUnit(unit) && FirstMatch(text, marker, unit).Some?
    ensures FirstMatch(text, marker, unit).value != [] && AllNumerals(FirstMatch(text, marker, unit).value)
  {
    FirstMatchIsLeftmost(text, marker, unit);
  }

  /**
   * A tail that holds `marker`, then a run `digits` of digits and dots,
   * then `unit`, with no match starting before the digits, yields `digits`.
   */
  lemma ReadsMarkedValue(text: string, p: nat, marker: string, digits: string, unit: string)
    requires PlainUnit(unit) && digits != [] && AllNumerals(digits)
    requires Behind(text, p, marker) && p + |digits| <= |text| && text[p..p + |digits|] == digits
    requires Ahead(text, p + |digits|, unit)
    requires forall q :: 0 <= q < p ==> !Matches(text, q, marker, unit)
    ensures FirstMatch(text, marker, unit) == Some(digits)
  {
    AheadStarts(text, p + |digits|, unit);
    RunOf(text, p, digits);
    ScanSkips(text, marker, unit, 0, p);
    MatchLengthIsRun(text, p, marker, unit);
  }

  /** The scan passes over positions where nothing matches. */
  lemma {:induction false} ScanSkips(text: string, marker: string, unit: string, k: nat, p: nat)
    requires PlainUnit(unit) && k <= p <= |text|
    requires NoMatchBetween(text, marker, unit, k, p)
    ensures Scan(text, marker, unit, k) == Scan(text, marker, unit, p)
    decreases p - k
  {
    if k < p {
      MatchLengthIsRun(text, k, marker, unit);
      ScanSkips(text, marker, unit, k + 1, p);
    }
  }

  /** The run at `p` is exactly `digits` when a non-numeral follows them. */
  lemma RunOf(text: string, p: nat, digits: string)
    requires p + |digits| < |text| && text[p..p + |digits|] == digits && AllNumerals(digits)
    requires !IsNumeral(text[p + |digits|])
    ensures RunLength(text, p) == |digits|
  {
    var n := RunLength(text, p);
    if n < |digits| {
      RunHolds(text, p, |digits|, n);
      assert false;
    } else if n > |digits| {
      RunHolds(text, p, n, |digits|);
      assert false;
    }
  }

  // ---------------------------------------------------------------------
  // `Number(text)` on a run of digits and dots

  predicate IsDigit(c: char) {
    '0' <= c <= '9'
  }

  /** The value of a string of decimal digits. */
  function DigitsValue(s: string): nat
    requires forall i :: 0 <= i < |s| ==> IsDigit(s[i])
  {
    if s == [] then 0
    else
      assert IsDigit(s[|s| - 1]);
      DigitsValue(s[..|s| - 1]) * 10 + (s[|s| - 1] as int - '0' as int)
  }

  function Pow10(k: nat): (r: nat)
    ensures r > 0
  {
    if k == 0 then 1 else 10 * Pow10(k - 1)
  }

  /** How many dots `s` holds. */
  function Dots(s: string): (n: nat)
    ensures n <= |s|
    ensures n == 0 <==> forall i :: 0 <= i < |s| ==> s[i] != '.'
  {
    if s == [] then 0 else (if s[0] == '.' then 1 else 0) + Dots(s[1..])
  }

  /** The position of the first dot of `s`, `|s|` when it has none. */
  function DotIndex(s: string): (i: nat)
    ensures i <= |s|
    ensures forall j :: 0 <= j < i ==> s[j] != '.'
    ensures i < |s| ==> s[i] == '.'
  {
    if s == [] || s[0] == '.' then 0 else 1 + DotIndex(s[1..])
  }

  /**
   * `Number(s)` for a run `s` of digits and dots: `NaN` unless it has at
   * most one dot and at least one digit, and otherwise the decimal number
   * it writes (the digits before the dot, then those after it).
   */
  function NumberOf(s: string): (v: Value)
    requires AllNumerals(s)
    ensures v.NaN? || v.Num?
    ensures v.NaN? <==> Dots(s) > 1 || Dots(s) == |s|
  {
    if Dots(s) > 1 || Dots(s) == |s| then NaN
    else
      var i := DotIndex(s);
      var whole := s[..i];
      var fraction := if i < |s| then s[i + 1..] else [];
      assert i < |s| ==> Dots(s) == 1 + Dots(s[i + 1..]) by {
        if i < |s| { DotsAfterFirst(s); }
      }
      assert forall j :: 0 <= j < |fraction| ==> fraction[j] == s[i + 1 + j];
      Num((DigitsValue(whole) * Pow10(|fraction|) + DigitsValue(fraction)) as real / Pow10(|fraction|) as real)
  }

  /** Every dot but the first lies after it. */
  lemma {:induction false} DotsAfterFirst(s: string)
    requires DotIndex(s) < |s|
    ensures Dots(s) == 1 + Dots(s[DotIndex(s) + 1..])
  {
    if s[0] != '.' {
      DotsAfterFirst(s[1..]);
      assert s[1..][DotIndex(s[1..]) + 1..] == s[DotIndex(s) + 1..];
    }
  }

  /** Reading back the decimal digits of a natural number gives that number. */
  lemma {:induction false} DigitsOfNatString(n: nat)
    ensures forall i :: 0 <= i < |NatString(n)| ==> IsDigit(NatString(n)[i])
    ensures DigitsValue(NatString(n)) == n
    decreases n
  {
    if n >= 10 {
      DigitsOfNatString(n / 10);
      var s := NatString(n);
      assert s[..|s| - 1] == NatString(n / 10);
    }
  }

  /** `Number(String(n))` is `n` for a whole number of megabytes or milliseconds. */
  lemma NumberOfNatString(n: nat)
    ensures AllNumerals(NatString(n)) && NumberOf(NatString(n)) == Num(n as real)
  {
    DigitsOfNatString(n);
    var s := NatString(n);
    assert Dots(s) == 0;
    assert DotIndex(s) == |s| && s[..|s|] == s;
  }

  /** A run with two dots is not a number. */
  lemma TwoDotsIsNaN()
    ensures AllNumerals("1.2.3") && NumberOf("1.2.3") == NaN
  {
    assert Dots("1.2.3") == Dots("1.2.") == Dots("1.2") + 1;
    assert Dots("1.2") == Dots("1.") == 1;
  }

  /**
   * `Number(text.match(re)[0])` when the pattern matches somewhere in
   * `text`, `None` when `match` gives `null`.
   */
  function ReadNumber(text: string, marker: string, unit: string): (v: Option<Value>)
    requires PlainUnit(unit)
    ensures v.Some? <==> exists q :: 0 <= q <= |text| && Matches(text, q, marker, unit)
    ensures v.Some? ==> v.value.Num? || v.value.NaN?
  {
    FirstMatchIsLeftmost(text, marker, unit);
    match FirstMatch(text, marker, unit)
    case None => None
    case Some(s) =>
      FirstMatchIsNumerals(text, marker, unit);
      Some(NumberOf(s))
  }

  /**
   * A log tail that writes a whole number `n` between the marker and the
   * unit, with no match starting earlier, reads back as `n`.
   */
  lemma ReadsWholeNumber(text: string, p: nat, marker: string, n: nat, unit: string)
    requires PlainUnit(unit) && Behind(text, p, marker)
    requires p + |NatString(n)| <= |text| && text[p..p + |NatString(n)|] == NatString(n)
    requires Ahead(text, p + |NatString(n)|, unit)
    requires forall q :: 0 <= q < p ==> !Matches(text, q, marker, unit)
    ensures ReadNumber(text, marker, unit) == Some(Num(n as real))
  {
    NumberOfNatString(n);
    ReadsMarkedValue(text, p, marker, NatString(n), unit);
  }

  /** Both units of the handlers start with a space. */
  lemma UnitsArePlain()
    ensures PlainUnit(MemoryUnit) && PlainUnit(InitUnit)
  {
  }

  // ---------------------------------------------------------------------
  // The invocation

  /** What `aws.Lambda.Invoke({ ..., LogType: 'Tail' })` resolves to. */
  datatype Invocation = Invocation(payload: Value, functionError: Value, logResult: string)

  /** The message of `Error('Invoke failed:', name)`: the second argument is an options bag, not part of the message. */
  const InvokeFailed := "Invoke failed:"

  /** `invoke.Payload.errorType || invoke.FunctionError`, which throws when `Payload` is `undefined` or `null`. */
  function Failed(inv: Invocation): (r: Result<bool>)
    ensures r.Failure? <==> inv.payload == Undefined || inv.payload == Null
    ensures r.Success? ==> (r.value <==> Truthy(Get(inv.payload, "errorType").value) || Truthy(inv.functionError))
  {
    var errorType :- Get(inv.payload, "errorType");
    Success(Truthy(errorType) || Truthy(inv.functionError))
  }
}
