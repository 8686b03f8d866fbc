/** Money as the price record holds it: integer micro-dollars, with their decimal text,
    and read out of a platform's floats. Floats are reals here; a value is rounded to the nearest
    integer, a half going up, which for the amounts below is away from zero. */
module Money {
  import opened Wrappers
  import opened Text
  import opened Json

  const MICROS_LIMIT := U64_LIMIT

  // ---- Text ----

  function TrimZeros(s: string): (r: string)
    ensures r <= s
  {
    if s != [] && s[|s| - 1] == '0' then TrimZeros(s[..|s| - 1]) else s
  }

  /** Whole dollars, and the fraction without trailing zeros if there is one. */
  function FormatUsd(micros: nat): string {
    var whole, fraction := micros / 1_000_000, micros % 1_000_000;
    if fraction == 0 then NatText(whole) else NatText(whole) + "." + TrimZeros(Padded(fraction, 6))
  }

  function RightPadded(s: string, width: nat): (r: string)
    requires |s| <= width
    ensures |r| == width && s <= r
    ensures AllDigits(s) ==> AllDigits(r)
    decreases width - |s|
  {
    if |s| == width then s else RightPadded(s + "0", width)
  }

  /** Decimal text read as micro-dollars: at most six places, all digits, and an amount that fits. */
  function ParseUsd(text: string): Option<nat> {
    var parts := SplitOnce(text, '.');
    var whole := if parts.Some? then parts.value.0 else text;
    var fraction := if parts.Some? then parts.value.1 else "";
    if text == "" || '.' in fraction || whole == "" || (parts.Some? && fraction == "")
       || !AllDigits(whole) || !AllDigits(fraction) || |fraction| > 6
    then None
    else MicrosOf(whole, fraction)
  }

  /** The digits before the point are dollars, and those after it, with zeros after them, micro-dollars. */
  function MicrosOf(whole: string, fraction: string): Option<nat>
    requires AllDigits(whole) && AllDigits(fraction) && |fraction| <= 6
  {
    var micros := Spelled(whole) * 1_000_000 + Spelled(RightPadded(fraction, 6));
    if micros < MICROS_LIMIT then Some(micros) else None
  }

  lemma {:induction false} TrimmedPadsBack(s: string)
    ensures RightPadded(TrimZeros(s), |s|) == s
    decreases |s|
  {
    if s != [] && s[|s| - 1] == '0' {
      var shorter := s[..|s| - 1];
      TrimmedPadsBack(shorter);
      PadOneMore(TrimZeros(shorter), |shorter|);
      assert s == shorter + "0";
    }
  }

  lemma {:induction false} PadOneMore(s: string, width: nat)
    requires |s| <= width
    ensures RightPadded(s, width + 1) == RightPadded(s, width) + "0"
    decreases width - |s|
  {
    if |s| < width {
      PadOneMore(s + "0", width);
    }
  }

  lemma {:induction false} TrimmedToNothing(s: string)
    requires TrimZeros(s) == ""
    ensures AllZeros(s)
  {
    if s != [] {
      TrimmedToNothing(s[..|s| - 1]);
    }
  }

  /** What is printed reads back as the same amount, for every amount the record can hold. */
  lemma UsdRoundTrip(micros: nat)
    requires micros < MICROS_LIMIT
    ensures ParseUsd(FormatUsd(micros)) == Some(micros)
  {
    var whole, fraction := micros / 1_000_000, micros % 1_000_000;
    NatTextSpells(whole);
    assert '.' !in NatText(whole);
    if fraction == 0 {
      hide ParseUsd, Spelled, RightPadded, NatText;
      DollarsParse(NatText(whole));
    } else {
      var shown := ShownFraction(fraction);
      hide ParseUsd, Spelled, RightPadded, TrimZeros, Padded, NatText;
      FractionsParse(NatText(whole), shown, FormatUsd(micros));
      MicrosAre(NatText(whole), shown);
    }
  }

  lemma ShownFraction(fraction: nat) returns (shown: string)
    requires 0 < fraction < 1_000_000
    ensures shown == TrimZeros(Padded(fraction, 6)) && shown != "" && |shown| <= 6
    ensures AllDigits(shown) && '.' !in shown && Spelled(RightPadded(shown, 6)) == fraction
  {
    var digits := Padded(fraction, 6);
    shown := TrimZeros(digits);
    SixDigits();
    PaddedSpells(fraction, 6);
    TrimmedPadsBack(digits);
    if shown == "" {
      TrimmedToNothing(digits);
      ZerosSpellNothing(digits);
    }
  }

  lemma SixDigits()
    ensures Pow10(6) == 1_000_000
  {
    assert Pow10(2) == 100 && Pow10(4) == 10_000;
  }

  predicate AllZeros(s: string) { forall i :: 0 <= i < |s| ==> s[i] == '0' }

  lemma {:induction false} PaddingZeros(s: string, width: nat)
    requires |s| <= width && AllZeros(s)
    ensures AllZeros(RightPadded(s, width))
    decreases width - |s|
  {
    if |s| < width {
      PaddingZeros(s + "0", width);
    }
  }

  lemma {:induction false} ZerosSpellNothing(s: string)
    requires AllZeros(s)
    ensures AllDigits(s) && Spelled(s) == 0
  {
    if s != [] {
      ZerosSpellNothing(s[..|s| - 1]);
    }
  }

  /** Two amounts print alike only when they are one amount: the record's comparison of amounts as
      text is a comparison of amounts. */
  lemma SameTextSameAmount(a: nat, b: nat)
    requires a < MICROS_LIMIT && b < MICROS_LIMIT && FormatUsd(a) == FormatUsd(b)
    ensures a == b
  {
    UsdRoundTrip(a);
    UsdRoundTrip(b);
  }

  // ---- Floats into micro-dollars ----

  /** Rounded to the nearest integer. */
  function Rounded(x: real): (n: nat)
    requires x >= 0.0
    ensures x - 0.5 < n as real <= x + 0.5
  {
    (x + 0.5).Floor
  }

  /** A product of amounts that are not negative. */
  function Times(a: real, b: real): (p: real)
    requires a >= 0.0 && b >= 0.0
    ensures p >= 0.0
  {
    a * b
  }

  lemma TimesGrows(a: real, b: real, k: real)
    requires 0.0 <= a <= b && k >= 0.0
    ensures Times(a, k) <= Times(b, k) && Times(k, a) <= Times(k, b)
  {
    assert (b - a) * k >= 0.0;
  }

  /** A scaled amount, unless it is negative or too large to hold. */
  function Micros(stated: real, scale: real): (r: Option<nat>)
    requires scale > 0.0
    ensures r.Some? ==> r.value < MICROS_LIMIT
  {
    if stated < 0.0 then None
    else
      var micros := Rounded(Times(stated, scale));
      if micros < MICROS_LIMIT then Some(micros) else None
  }

  /** Cents per token, as micro-dollars per million tokens. */
  const CENTS_PER_TOKEN := 10_000_000_000.0
  const CENTS := 10_000.0

  function MicrosFromCentsPerToken(cents: real): Option<nat> { Micros(cents, CENTS_PER_TOKEN) }

  /** Cents as micro-dollars. */
  function MicroUsd(cents: real): Option<nat> { Micros(cents, CENTS) }

  /** A list amount with a fraction taken off, rounded. */
  function Billed(micros: nat, discount: real): nat
    requires 0.0 <= discount < 1.0
  {
    Rounded(Times(micros as real, 1.0 - discount))
  }

  /** The input amount times a stated ratio, if there is one and it fits. */
  function OfInput(input: nat, rate: Option<real>): (r: Option<nat>)
    ensures r.Some? ==> r.value < MICROS_LIMIT
  {
    if rate.None? then None else if rate.value < 0.0 then None
    else
      var micros := Rounded(Times(input as real, rate.value));
      if micros < MICROS_LIMIT then Some(micros) else None
  }

  function Distance(a: real, b: real): (d: real)
    ensures d >= 0.0
  {
    if a <= b then b - a else a - b
  }

  lemma ScaledDistance(a: real, b: real, k: real)
    requires a >= 0.0 && b >= 0.0 && k >= 0.0
    ensures Distance(Times(a, k), Times(b, k)) == Times(Distance(a, b), k)
  {
    TimesGrows(if a <= b then a else b, if a <= b then b else a, k);
    assert b * k - a * k == (b - a) * k;
  }

  /** A stated amount is at most half a micro-dollar from what it is rounded to. */
  lemma MicrosAreClose(stated: real, scale: real)
    requires scale > 0.0 && Micros(stated, scale).Some?
    ensures stated >= 0.0 && Distance(Micros(stated, scale).value as real, Times(stated, scale)) <= 0.5
  {
    hide Times;
  }

  /** A billed amount is within one micro-dollar of the exact discounted rate, though it is rounded
      twice; never above the list amount; and a discount of zero changes nothing. */
  lemma BilledIsClose(cents: real, discount: real)
    requires MicrosFromCentsPerToken(cents).Some? && 0.0 <= discount < 1.0
    ensures var list := MicrosFromCentsPerToken(cents).value;
            && cents >= 0.0
            && Distance(Billed(list, discount) as real, Times(Times(cents, CENTS_PER_TOKEN), 1.0 - discount)) <= 1.0
            && Billed(list, discount) <= list
            && (discount == 0.0 ==> Billed(list, discount) == list)
  {
    MicrosAreClose(cents, CENTS_PER_TOKEN);
    var list := MicrosFromCentsPerToken(cents).value as real;
    var exact, kept := Times(cents, CENTS_PER_TOKEN), 1.0 - discount;
    ScaledDistance(list, exact, kept);
    TimesGrows(Distance(list, exact), 0.5, kept);
    TimesGrows(kept, 1.0, list);
    TimesGrows(kept, 1.0, 0.5);
    assert Times(list, 1.0) == list && Times(0.5, 1.0) == 0.5 && Times(0.5, kept) <= 0.5;
    hide Times, Micros;
    assert Distance(Billed(MicrosFromCentsPerToken(cents).value, discount) as real, Times(list, kept)) <= 0.5;
  }

  // ---- Which text is an amount ----

  /** Digits are the dollars they spell; after a point, one to six more are the fraction they spell with zeros
      after them; where the amount can be held. */
  lemma DollarsParse(whole: string)
    requires whole != "" && AllDigits(whole)
    ensures ParseUsd(whole) ==
            if Spelled(whole) * 1_000_000 < U64_LIMIT then Some(Spelled(whole) * 1_000_000) else None
  {
    assert '.' !in whole;
    PaddingZeros("", 6);
    ZerosSpellNothing(RightPadded("", 6));
    hide Spelled, RightPadded, SplitOnce;
  }

  lemma FractionsParse(whole: string, fraction: string, text: string)
    requires whole != "" && AllDigits(whole) && 1 <= |fraction| <= 6 && AllDigits(fraction)
    requires text == whole + "." + fraction
    ensures ParseUsd(text) == MicrosOf(whole, fraction)
  {
    hide MicrosOf, SplitOnce;
    assert '.' !in whole && '.' !in fraction;
    SplitOnceIs(text, '.', whole, fraction);
    hide AllDigits;
  }

  lemma MicrosAre(whole: string, fraction: string)
    requires AllDigits(whole) && AllDigits(fraction) && |fraction| <= 6
    ensures MicrosOf(whole, fraction) ==
            var micros := Spelled(whole) * 1_000_000 + Spelled(RightPadded(fraction, 6));
            if micros < U64_LIMIT then Some(micros) else None
  {
    hide Spelled, RightPadded;
  }

  /** And no other text is one. */
  lemma OnlyAmountsParse(text: string) returns (whole: string, fraction: string)
    requires ParseUsd(text).Some?
    ensures whole != "" && AllDigits(whole)
    ensures text == whole || (text == whole + "." + fraction && 1 <= |fraction| <= 6 && AllDigits(fraction))
  {
    hide Spelled, RightPadded;
    var parts := SplitOnce(text, '.');
    whole, fraction := text, "";
    if parts.Some? {
      whole, fraction := parts.value.0, parts.value.1;
    }
  }

  /** The units an amount is converted from: a cent is ten thousand micro-dollars, and a cent per token ten
      thousand million of them per million tokens. */
  lemma UnitsAre(cents: real)
    requires cents >= 0.0
    ensures MicroUsd(cents).Some? <==> (cents * 10_000.0 + 0.5).Floor < U64_LIMIT
    ensures MicroUsd(cents).Some? ==> MicroUsd(cents).value == (cents * 10_000.0 + 0.5).Floor
    ensures MicrosFromCentsPerToken(cents).Some? <==> (cents * 10_000_000_000.0 + 0.5).Floor < U64_LIMIT
    ensures MicrosFromCentsPerToken(cents).Some? ==>
              MicrosFromCentsPerToken(cents).value == (cents * 10_000_000_000.0 + 0.5).Floor
  {
  }
}
