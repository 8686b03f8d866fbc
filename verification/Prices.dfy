/** A platform's price document into rows of the price record. */
module Prices {
  import opened Wrappers
  import opened Json
  import opened Money
  import opened PriceLog

  const DEEPINFRA_MODELS := "https://api.deepinfra.com/models/list"
  const UNIT_USD_PER_MTOK := "usd_per_mtok"

  /** Why an entry became no row. */
  datatype Why =
    | NoModelName
    | NoPricing
    | NoType
    | OtherType(kind: string)
    | NotANumber(key: string)
    | NotAnAmount(key: string)
    | NotAFractionOff(discount: real)

  datatype Skip = Skip(name: string, why: Why)

  /** A platform's amount in cents per token, as list micro-dollars. */
  function Amount(pricing: Json, key: string): Result<nat, Why> {
    match AsReal(Get(pricing, key))
    case None => Err(NotANumber(key))
    case Some(stated) =>
      match MicrosFromCentsPerToken(stated)
      case None => Err(NotAnAmount(key))
      case Some(micros) => Ok(micros)
  }

  /** What the platform bills: the list amount, less the discount if one is stated. */
  function Charged(list: nat, discount: Option<real>): nat
    requires discount.Some? ==> 0.0 <= discount.value < 1.0
  {
    if discount.None? then list else Billed(list, discount.value)
  }

  function CacheAmount(pricing: Json, key: string, input: nat): Option<string> {
    match OfInput(input, AsReal(Get(pricing, key)))
    case None => None
    case Some(micros) => Some(FormatUsd(micros))
  }

  /** The row of a priced entry. */
  function RowOf(name: string, pricing: Json, input: nat, output: nat, now: string): PriceRow {
    PriceRow("deepinfra", name,
             Price(FormatUsd(input), FormatUsd(output),
                   CacheAmount(pricing, "rate_per_input_token_cached", input),
                   CacheAmount(pricing, "rate_per_input_token_cache_write", input),
                   None),
             UNIT_USD_PER_MTOK, now, DEEPINFRA_MODELS)
  }

  /** One entry, read. */
  function ReadEntry(index: nat, entry: Json, now: string): Result<PriceRow, Skip> {
    match AsStr(Get(entry, "model_name"))
    case None => Err(Skip("<entry " + NatText(index) + ">", NoModelName))
    case Some(name) =>
      match ReadPricing(name, entry, now)
      case Ok(row) => Ok(row)
      case Err(why) => Err(Skip(name, why))
  }

  function ReadPricing(name: string, entry: Json, now: string): Result<PriceRow, Why> {
    match Get(entry, "pricing")
    case None => Err(NoPricing)
    case Some(pricing) =>
      match AsStr(Get(pricing, "type"))
      case None => Err(NoType)
      case Some(kind) =>
        if kind != "tokens" then Err(OtherType(kind))
        else ReadAmounts(name, pricing, now)
  }

  function ReadAmounts(name: string, pricing: Json, now: string): Result<PriceRow, Why> {
    match (Amount(pricing, "cents_per_input_token"), Amount(pricing, "cents_per_output_token"))
    case (Err(why), _) => Err(why)
    case (Ok(_), Err(why)) => Err(why)
    case (Ok(input), Ok(output)) =>
      var discount := AsReal(Get(pricing, "discount"));
      if discount.Some? && !(0.0 <= discount.value < 1.0) then Err(NotAFractionOff(discount.value))
      else Ok(RowOf(name, pricing, Charged(input, discount), Charged(output, discount), now))
  }

  /** The rows of the entries that are priced, in the platform's order. */
  function Rows(entries: seq<Json>, now: string): seq<PriceRow> {
    if entries == [] then []
    else
      var n := |entries| - 1;
      Rows(entries[..n], now) + match ReadEntry(n, entries[n], now) case Ok(row) => [row] case Err(_) => []
  }

  /** The entries that are not, each under its name. */
  function Skips(entries: seq<Json>, now: string): seq<Skip> {
    if entries == [] then []
    else
      var n := |entries| - 1;
      Skips(entries[..n], now) + match ReadEntry(n, entries[n], now) case Ok(_) => [] case Err(skip) => [skip]
  }

  /** The document into rows and what was skipped. No entry is dropped and none is reported twice. */
  method DeepinfraRows(document: Json, now: string) returns (rows: seq<PriceRow>, skipped: seq<Skip>)
    ensures var entries := if document.Arr? then document.items else [];
            && rows == Rows(entries, now) && skipped == Skips(entries, now)
            && |rows| + |skipped| == |entries|
  {
    rows, skipped := [], [];
    var entries := if document.Arr? then document.items else [];
    var index := 0;
    while index < |entries|
      invariant 0 <= index <= |entries|
      invariant rows == Rows(entries[..index], now) && skipped == Skips(entries[..index], now)
      invariant |rows| + |skipped| == index
    {
      var entry := entries[index];
      assert entries[..index + 1][..index] == entries[..index];
      index := index + 1;
      var name := AsStr(Get(entry, "model_name"));
      if name.None? {
        skipped := skipped + [Skip("<entry " + NatText(index - 1) + ">", NoModelName)];
        continue;
      }
      var pricing := Get(entry, "pricing");
      if pricing.None? {
        skipped := skipped + [Skip(name.value, NoPricing)];
        continue;
      }
      var kind := AsStr(Get(pricing.value, "type"));
      if kind.None? {
        skipped := skipped + [Skip(name.value, NoType)];
        continue;
      }
      if kind.value != "tokens" {
        skipped := skipped + [Skip(name.value, OtherType(kind.value))];
        continue;
      }
      var input := Amount(pricing.value, "cents_per_input_token");
      if input.Err? {
        skipped := skipped + [Skip(name.value, input.error)];
        continue;
      }
      var output := Amount(pricing.value, "cents_per_output_token");
      if output.Err? {
        skipped := skipped + [Skip(name.value, output.error)];
        continue;
      }
      var discount := AsReal(Get(pricing.value, "discount"));
      if discount.Some? && !(0.0 <= discount.value < 1.0) {
        skipped := skipped + [Skip(name.value, NotAFractionOff(discount.value))];
        continue;
      }
      rows :=
        rows + [RowOf(name.value, pricing.value, Charged(input.value, discount), Charged(output.value, discount), now)];
    }
    assert entries[..index] == entries;
  }

  // ---- What a row means ----

  /** A rate in cents per token, less the fraction off, in micro-dollars per million tokens. */
  function ExactRate(cents: real, discount: Option<real>): (rate: real)
    requires cents >= 0.0 && (discount.Some? ==> 0.0 <= discount.value < 1.0)
    ensures rate >= 0.0
  {
    var list := Times(cents, CENTS_PER_TOKEN);
    if discount.None? then list else Times(list, 1.0 - discount.value)
  }

  /** A rate the record can hold. */
  predicate Holdable(stated: Option<real>) {
    stated.Some? && stated.value >= 0.0 && Rounded(Times(stated.value, CENTS_PER_TOKEN)) < MICROS_LIMIT
  }

  /** A discount that is stated and is not a fraction off. */
  predicate Guessed(discount: Option<real>) {
    discount.Some? && !(0.0 <= discount.value < 1.0)
  }

  /** Exactly which entries become rows, and which model each is of. */
  lemma PricedExactly(index: nat, entry: Json, now: string)
    ensures ReadEntry(index, entry, now).Ok? <==>
            && AsStr(Get(entry, "model_name")).Some? && Get(entry, "pricing").Some?
            && var pricing := Get(entry, "pricing").value;
            && AsStr(Get(pricing, "type")) == Some("tokens")
            && Holdable(AsReal(Get(pricing, "cents_per_input_token")))
            && Holdable(AsReal(Get(pricing, "cents_per_output_token")))
            && !Guessed(AsReal(Get(pricing, "discount")))
    ensures ReadEntry(index, entry, now).Ok? ==>
            && var row := ReadEntry(index, entry, now).value;
            && Some(row.model) == AsStr(Get(entry, "model_name"))
            && row.provider == "deepinfra" && row.asOf == now && row.unit == "usd_per_mtok"
            && row.source == "https://api.deepinfra.com/models/list" && row.price.reasoning == None
  {
    hide Times, Rounded, FormatUsd, OfInput, Billed;
  }

  /** A row's cache amounts are each of its own ratio, of the input amount the row holds. */
  lemma CacheAmountsAreOfTheirRatios(index: nat, entry: Json, now: string)
    requires ReadEntry(index, entry, now).Ok?
    ensures Get(entry, "pricing").Some?
    ensures var price, pricing := ReadEntry(index, entry, now).value.price, Get(entry, "pricing").value;
            && ParseUsd(price.input).Some?
            && var input := ParseUsd(price.input).value;
            && price.cacheRead == CacheAmount(pricing, "rate_per_input_token_cached", input)
            && price.cacheWrite == CacheAmount(pricing, "rate_per_input_token_cache_write", input)
  {
    hide Times, Rounded, FormatUsd, ParseUsd, OfInput, Billed;
    PricedExactly(index, entry, now);
    var pricing := Get(entry, "pricing").value;
    var cents, discount := AsReal(Get(pricing, "cents_per_input_token")).value, AsReal(Get(pricing, "discount"));
    ChargedIsClose(cents, discount);
    UsdRoundTrip(Charged(MicrosFromCentsPerToken(cents).value, discount));
  }

  lemma ChargedIsClose(cents: real, discount: Option<real>)
    requires MicrosFromCentsPerToken(cents).Some? && !Guessed(discount)
    ensures cents >= 0.0
    ensures var list := MicrosFromCentsPerToken(cents).value;
            && Charged(list, discount) <= list
            && Distance(Charged(list, discount) as real, ExactRate(cents, discount)) <= 1.0
            && (discount.None? || discount == Some(0.0) ==> Charged(list, discount) == list)
  {
    hide Times, Micros, Billed;
    MicrosAreClose(cents, CENTS_PER_TOKEN);
    if discount.Some? {
      BilledIsClose(cents, discount.value);
    }
  }

  /** The text of an amount, read back, is an amount within `bound` of an exact rate. */
  ghost predicate Reads(text: string, exact: real, bound: real) {
    ParseUsd(text).Some? && Distance(ParseUsd(text).value as real, exact) <= bound
  }

  /** What a priced entry's row holds, read back out of the record: input and output within one
      micro-dollar of the exact discounted rates. */
  lemma RowIsClose(index: nat, entry: Json, now: string)
    requires ReadEntry(index, entry, now).Ok?
    ensures var pricing := Get(entry, "pricing");
            && pricing.Some?
            && var input, output := AsReal(Get(pricing.value, "cents_per_input_token")),
               AsReal(Get(pricing.value, "cents_per_output_token"));
            var discount, row := AsReal(Get(pricing.value, "discount")), ReadEntry(index, entry, now).value;
            && Holdable(input) && Holdable(output) && !Guessed(discount)
            && Reads(row.price.input, ExactRate(input.value, discount), 1.0)
            && Reads(row.price.output, ExactRate(output.value, discount), 1.0)
  {
    hide Times, Rounded, FormatUsd, ParseUsd, Distance, OfInput, ExactRate, Billed;
    PricedExactly(index, entry, now);
    var pricing := Get(entry, "pricing").value;
    var input, output := AsReal(Get(pricing, "cents_per_input_token")).value,
        AsReal(Get(pricing, "cents_per_output_token")).value;
    var discount := AsReal(Get(pricing, "discount"));
    AmountReads(input, discount);
    AmountReads(output, discount);
  }

  lemma AmountReads(cents: real, discount: Option<real>)
    requires MicrosFromCentsPerToken(cents).Some? && !Guessed(discount)
    ensures cents >= 0.0
    ensures Reads(FormatUsd(Charged(MicrosFromCentsPerToken(cents).value, discount)), ExactRate(cents, discount), 1.0)
  {
    hide Times, FormatUsd, ParseUsd, Distance, ExactRate;
    ChargedIsClose(cents, discount);
    UsdRoundTrip(Charged(MicrosFromCentsPerToken(cents).value, discount));
  }

  /** A cache amount is in the row if and only if the platform states a ratio that is not negative and
      the product can be held; it is then within the ratio plus one half of the exact product. */
  lemma CacheIsClose(pricing: Json, key: string, cents: real, discount: Option<real>)
    requires MicrosFromCentsPerToken(cents).Some? && !Guessed(discount)
    ensures var input := Charged(MicrosFromCentsPerToken(cents).value, discount);
            var rate := AsReal(Get(pricing, key));
            && (CacheAmount(pricing, key, input).Some? <==>
                  && rate.Some? && rate.value >= 0.0 && Rounded(Times(input as real, rate.value)) < MICROS_LIMIT)
            && cents >= 0.0
            && (CacheAmount(pricing, key, input).Some? ==>
                  && rate.Some? && rate.value >= 0.0
                  && Reads(CacheAmount(pricing, key, input).value, Times(ExactRate(cents, discount), rate.value),
                           rate.value + 0.5))
  {
    hide Times, FormatUsd, ParseUsd, ExactRate, Micros, Charged;
    ChargedIsClose(cents, discount);
    var input := Charged(MicrosFromCentsPerToken(cents).value, discount);
    var rate := AsReal(Get(pricing, key));
    if CacheAmount(pricing, key, input).Some? {
      var amount := OfInput(input, rate).value;
      UsdRoundTrip(amount);
      CloseTimes(input as real, ExactRate(cents, discount), rate.value);
    }
  }

  /** What is within one of a rate, times a ratio, is within the ratio of the product. */
  lemma CloseTimes(a: real, b: real, ratio: real)
    requires a >= 0.0 && b >= 0.0 && ratio >= 0.0 && Distance(a, b) <= 1.0
    ensures Distance(Times(a, ratio), Times(b, ratio)) <= ratio
  {
    ScaledDistance(a, b, ratio);
    TimesGrows(Distance(a, b), 1.0, ratio);
    assert Times(1.0, ratio) == ratio;
  }
}
