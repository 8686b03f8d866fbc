/** A platform's own bill for one month: the document's lines, kept by model, and their checked sum. */
module Bill {
  import opened Wrappers
  import opened Json
  import opened Money

  /** The first thing a line does not state. */
  datatype Field = ModelName | PricingType | Units | Rate | Cost

  datatype Refusal = NoMonth | Missing(index: nat, field: Field) | TooMuch

  datatype Line = Line(model: string, bucket: string, units: nat, ratePerMillionUnits: string, amount: string)

  /** A line with its amount in micro-dollars. */
  datatype Item = Item(micros: nat, line: Line)

  datatype Bill = Bill(period: string, lines: seq<Line>, total: string)

  // ---- Reading ----

  function Entries(j: Json, key: string): seq<Json> {
    match Get(j, key)
    case Some(Arr(items)) => items
    case _ => []
  }

  /** The first month of the period asked for. */
  function MonthOf(months: seq<Json>, period: string): Option<Json> {
    if months == [] then None
    else if AsStr(Get(months[0], "period")) == Some(period) then Some(months[0])
    else MonthOf(months[1..], period)
  }

  /** The month billed is the first that states the period asked for, if one does. */
  lemma {:induction false} MonthIsTheOneAskedFor(months: seq<Json>, period: string)
    ensures match MonthOf(months, period)
            case Some(month) =>
              exists i :: 0 <= i < |months| && months[i] == month && IsFor(month, period)
                && forall j :: 0 <= j < i ==> !IsFor(months[j], period)
            case None => forall i :: 0 <= i < |months| ==> !IsFor(months[i], period)
  {
    if months != [] {
      MonthIsTheOneAskedFor(months[1..], period);
      if !IsFor(months[0], period) {
        assert forall i :: 0 < i < |months| ==> months[i] == months[1..][i - 1];
        if MonthOf(months[1..], period).Some? {
          var i :| 0 <= i < |months| - 1 && months[1..][i] == MonthOf(months[1..], period).value
            && IsFor(months[1..][i], period) && forall j :: 0 <= j < i ==> !IsFor(months[1..][j], period);
          assert months[i + 1] == months[1..][i];
        }
      }
    }
  }

  ghost predicate IsFor(month: Json, period: string) {
    month.Obj? && "period" in month.fields && month.fields["period"] == Str(period)
  }

  /** An amount under a key, in cents or a multiple of cents. */
  function MicrosAt(entry: Json, key: string, times: real): (r: Option<nat>)
    requires times > 0.0
    ensures r.Some? ==> r.value < MICROS_LIMIT
  {
    match AsReal(Get(entry, key))
    case None => None
    case Some(cents) => if cents < 0.0 then None else MicroUsd(Times(cents, times))
  }

  function UnitsOf(entry: Json): Option<nat> {
    match Get(entry, "units")
    case None => None
    case Some(units) => AsU64(units)
  }

  /** A rate is printed for a million units. */
  const MILLION := 1_000_000.0

  /** One line; the first field it does not state refuses it. */
  function ReadItem(entry: Json): (r: Result<Item, Field>)
    ensures r.Ok? ==> r.value.micros < MICROS_LIMIT && ParseUsd(r.value.line.amount) == Some(r.value.micros)
  {
    var name := AsStr(Walk(entry, ["model", "model_name"]));
    var bucket := AsStr(Get(entry, "pricing_type"));
    var units := UnitsOf(entry);
    var rate := MicrosAt(entry, "rate", MILLION);
    var amount := MicrosAt(entry, "cost", 1.0);
    if name.None? then Err(ModelName)
    else if bucket.None? then Err(PricingType)
    else if units.None? then Err(Units)
    else if rate.None? then Err(Rate)
    else if amount.None? then Err(Cost)
    else
      UsdRoundTrip(amount.value);
      Ok(Item(amount.value,
              Line(name.value, bucket.value, units.value, FormatUsd(rate.value), FormatUsd(amount.value))))
  }

  /** All lines, or the refusal of the first that does not read. */
  function ReadItems(entries: seq<Json>): (r: Result<seq<Item>, Refusal>)
    ensures r.Ok? ==> |r.value| == |entries|
  {
    if entries == [] then Ok([])
    else
      var n := |entries| - 1;
      match ReadItems(entries[..n])
      case Err(refusal) => Err(refusal)
      case Ok(items) =>
        match ReadItem(entries[n])
        case Err(field) => Err(Missing(n, field))
        case Ok(item) => Ok(items + [item])
  }

  /** The lines of one model, or all of them. */
  function Kept(items: seq<Item>, model: Option<string>): (r: seq<Item>)
    ensures |r| <= |items|
  {
    if items == [] then []
    else
      var n := |items| - 1;
      Kept(items[..n], model) + if model.None? || items[n].line.model == model.value then [items[n]] else []
  }

  function Total(items: seq<Item>): nat {
    if items == [] then 0 else Total(items[..|items| - 1]) + items[|items| - 1].micros
  }

  function Lines(items: seq<Item>): (lines: seq<Line>)
    ensures |lines| == |items| && forall i :: 0 <= i < |items| ==> lines[i] == items[i].line
  {
    seq(|items|, i requires 0 <= i < |items| => items[i].line)
  }

  /** The bill, as a function of the document. */
  function BillOf(document: Json, period: string, model: Option<string>): Result<Bill, Refusal> {
    match MonthOf(Entries(document, "months"), period)
    case None => Err(NoMonth)
    case Some(month) =>
      match ReadItems(Entries(month, "items"))
      case Err(refusal) => Err(refusal)
      case Ok(items) =>
        var kept := Kept(items, model);
        if Total(kept) >= MICROS_LIMIT then Err(TooMuch)
        else Ok(Bill(period, Lines(kept), FormatUsd(Total(kept))))
  }

  lemma {:induction false} TotalOfPrefix(items: seq<Item>, i: nat)
    requires i <= |items|
    ensures Total(items[..i]) <= Total(items)
  {
    if i < |items| {
      TotalOfPrefix(items[..|items| - 1], i);
      assert items[..|items| - 1][..i] == items[..i];
    } else {
      assert items[..i] == items;
    }
  }

  lemma {:induction false} ReadItemsOfPrefix(entries: seq<Json>, i: nat)
    requires i <= |entries| && ReadItems(entries[..i]).Err?
    ensures ReadItems(entries) == ReadItems(entries[..i])
  {
    if i < |entries| {
      assert entries[..|entries| - 1][..i] == entries[..i];
      ReadItemsOfPrefix(entries[..|entries| - 1], i);
    } else {
      assert entries[..i] == entries;
    }
  }

  /** Read line by line; the first that does not read refuses them all. */
  method ReadLines(entries: seq<Json>) returns (r: Result<seq<Item>, Refusal>)
    ensures r == ReadItems(entries)
  {
    hide ReadItem;
    var items := [];
    var i := 0;
    while i < |entries|
      invariant 0 <= i <= |entries| && ReadItems(entries[..i]) == Ok(items)
    {
      assert entries[..i + 1][..i] == entries[..i];
      var item := ReadItem(entries[i]);
      if item.Err? {
        ReadItemsOfPrefix(entries, i + 1);
        return Err(Missing(i, item.error));
      }
      items := items + [item.value];
      i := i + 1;
    }
    assert entries[..i] == entries;
    return Ok(items);
  }

  /** Summed with a check at every step, which refuses exactly when the whole sum does not fit. */
  method CheckedSum(items: seq<Item>) returns (r: Option<nat>)
    ensures r == if Total(items) < MICROS_LIMIT then Some(Total(items)) else None
  {
    var total, i := 0, 0;
    while i < |items|
      invariant 0 <= i <= |items| && total == Total(items[..i]) < MICROS_LIMIT
    {
      assert items[..i + 1][..i] == items[..i];
      TotalOfPrefix(items, i + 1);
      if total + items[i].micros >= MICROS_LIMIT {
        return None;
      }
      total := total + items[i].micros;
      i := i + 1;
    }
    assert items[..i] == items;
    return Some(total);
  }

  /** Kept to the lines of one model, in place and in order. */
  method Retain(items: seq<Item>, model: Option<string>) returns (kept: seq<Item>)
    ensures kept == Kept(items, model)
  {
    kept := [];
    var i := 0;
    while i < |items|
      invariant 0 <= i <= |items| && kept == Kept(items[..i], model)
    {
      assert items[..i + 1][..i] == items[..i];
      if model.None? || items[i].line.model == model.value {
        kept := kept + [items[i]];
      }
      i := i + 1;
    }
    assert items[..i] == items;
  }

  method DeepinfraBilled(document: Json, period: string, model: Option<string>) returns (r: Result<Bill, Refusal>)
    ensures r == BillOf(document, period, model)
  {
    hide MonthOf, ReadItems, Kept, Total, Lines, FormatUsd;
    var month := MonthOf(Entries(document, "months"), period);
    if month.None? {
      return Err(NoMonth);
    }
    var items := ReadLines(Entries(month.value, "items"));
    if items.Err? {
      return Err(items.error);
    }
    var kept := Retain(items.value, model);
    var total := CheckedSum(kept);
    if total.None? {
      return Err(TooMuch);
    }
    return Ok(Bill(period, Lines(kept), FormatUsd(total.value)));
  }

  // ---- What a bill says ----

  /** A month is billed if and only if it is there, every one of its lines reads, and what is kept
      sums to an amount that can be held. */
  lemma BilledExactly(document: Json, period: string, model: Option<string>)
    ensures var month := MonthOf(Entries(document, "months"), period);
            BillOf(document, period, model).Ok? <==>
            && month.Some?
            && var entries := Entries(month.value, "items");
            && (forall i :: 0 <= i < |entries| ==> ReadItem(entries[i]).Ok?)
            && ReadItems(entries).Ok?
            && Total(Kept(ReadItems(entries).value, model)) < MICROS_LIMIT
  {
    hide ReadItem, Total, Kept, MonthOf, Lines, FormatUsd;
    var month := MonthOf(Entries(document, "months"), period);
    if month.Some? {
      var entries := Entries(month.value, "items");
      ItemsReadExactly(entries);
    }
  }

  /** Lines are refused by the first that does not read, and by its first missing field. */
  predicate FirstUnread(entries: seq<Json>, index: nat) {
    index < |entries| && ReadItem(entries[index]).Err? && forall i :: 0 <= i < index ==> ReadItem(entries[i]).Ok?
  }

  lemma {:induction false} ItemRead(entries: seq<Json>, i: nat)
    requires ReadItems(entries).Ok? && i < |entries|
    ensures ReadItem(entries[i]) == Ok(ReadItems(entries).value[i])
  {
    hide ReadItem;
    var n := |entries| - 1;
    if i < n {
      ItemRead(entries[..n], i);
    }
  }

  lemma ItemsRead(entries: seq<Json>)
    requires ReadItems(entries).Ok?
    ensures forall i :: 0 <= i < |entries| ==> ReadItem(entries[i]) == Ok(ReadItems(entries).value[i])
  {
    hide ReadItem, ReadItems;
    forall i | 0 <= i < |entries|
      ensures ReadItem(entries[i]) == Ok(ReadItems(entries).value[i])
    {
      ItemRead(entries, i);
    }
  }

  lemma {:induction false} ItemsRefused(entries: seq<Json>)
    requires ReadItems(entries).Err?
    ensures ReadItems(entries).error.Missing? && FirstUnread(entries, ReadItems(entries).error.index)
    ensures ReadItem(entries[ReadItems(entries).error.index]) == Err(ReadItems(entries).error.field)
  {
    hide ReadItem;
    var n := |entries| - 1;
    assert forall i :: 0 <= i < n ==> entries[..n][i] == entries[i];
    if ReadItems(entries[..n]).Err? {
      ItemsRefused(entries[..n]);
    } else {
      ItemsRead(entries[..n]);
    }
  }

  lemma ItemsReadExactly(entries: seq<Json>)
    ensures ReadItems(entries).Ok? <==> forall i :: 0 <= i < |entries| ==> ReadItem(entries[i]).Ok?
    ensures ReadItems(entries).Err? ==>
            && ReadItems(entries).error.Missing?
            && FirstUnread(entries, ReadItems(entries).error.index)
            && ReadItem(entries[ReadItems(entries).error.index]) == Err(ReadItems(entries).error.field)
  {
    hide ReadItem, ReadItems;
    if ReadItems(entries).Ok? {
      ItemsRead(entries);
    } else {
      ItemsRefused(entries);
    }
  }

  /** One malformed line refuses every bill of its month, whatever model it is kept to, and every one
      by the same line. */
  lemma OneBadLineRefusesEveryBill(document: Json, period: string, model: Option<string>, month: Json, index: nat)
    requires MonthOf(Entries(document, "months"), period) == Some(month)
    requires index < |Entries(month, "items")| && ReadItem(Entries(month, "items")[index]).Err?
    ensures var r := BillOf(document, period, model);
            r.Err? && r.error.Missing? && r.error.index <= index && r == BillOf(document, period, None)
  {
    hide ReadItem, MonthOf;
    ItemsReadExactly(Entries(month, "items"));
  }

  lemma {:induction false} KeepingAll(items: seq<Item>)
    ensures Kept(items, None) == items
  {
    if items != [] {
      KeepingAll(items[..|items| - 1]);
    }
  }

  lemma {:induction false} KeepingSumsToLess(items: seq<Item>, model: Option<string>)
    ensures Total(Kept(items, model)) <= Total(items)
  {
    if items != [] {
      var n := |items| - 1;
      KeepingSumsToLess(items[..n], model);
      var kept := Kept(items[..n], model);
      assert Kept(items, model) == kept || Kept(items, model)[..|Kept(items, model)| - 1] == kept;
    }
  }

  /** The lines of one model, in the order of the whole bill. */
  function LinesOf(lines: seq<Line>, model: string): seq<Line> {
    if lines == [] then []
    else
      var n := |lines| - 1;
      LinesOf(lines[..n], model) + if lines[n].model == model then [lines[n]] else []
  }

  lemma {:induction false} KeptLines(items: seq<Item>, model: string)
    ensures Lines(Kept(items, Some(model))) == LinesOf(Lines(items), model)
  {
    if items != [] {
      var n := |items| - 1;
      KeptLines(items[..n], model);
      assert Lines(items)[..n] == Lines(items[..n]);
      var kept := Kept(items[..n], Some(model));
      assert Lines(kept + [items[n]]) == Lines(kept) + [items[n].line];
    }
  }

  /** When the whole bill is accepted, so is the bill of every model, and its lines are those of the
      whole bill that name the model, in order. */
  lemma EveryModelIsBilled(document: Json, period: string, model: string)
    requires BillOf(document, period, None).Ok?
    ensures BillOf(document, period, Some(model)).Ok?
    ensures BillOf(document, period, Some(model)).value.lines
            == LinesOf(BillOf(document, period, None).value.lines, model)
  {
    hide MonthOf, ReadItems, Total, Kept, Lines, LinesOf, FormatUsd;
    var month := MonthOf(Entries(document, "months"), period).value;
    var items := ReadItems(Entries(month, "items")).value;
    KeepingAll(items);
    KeepingSumsToLess(items, Some(model));
    KeptLines(items, model);
  }

  /** The amount a printed total reads back as. */
  function Read(text: string): nat { if ParseUsd(text).Some? then ParseUsd(text).value else 0 }

  function SumOfAmounts(lines: seq<Line>): nat {
    if lines == [] then 0 else SumOfAmounts(lines[..|lines| - 1]) + Read(lines[|lines| - 1].amount)
  }

  /** The sum of the printed totals of the bills of some models. */
  function SumOfBills(document: Json, period: string, models: seq<string>): nat {
    if models == [] then 0
    else
      var n := |models| - 1;
      SumOfBills(document, period, models[..n])
      + match BillOf(document, period, Some(models[n])) case Ok(bill) => Read(bill.total) case Err(_) => 0
  }

  predicate Printed(items: seq<Item>) {
    forall i :: 0 <= i < |items| ==> ParseUsd(items[i].line.amount) == Some(items[i].micros)
  }

  lemma {:induction false} AmountsAddUp(items: seq<Item>)
    requires Printed(items)
    ensures SumOfAmounts(Lines(items)) == Total(items)
  {
    if items != [] {
      var n := |items| - 1;
      AmountsAddUp(items[..n]);
      assert Lines(items)[..n] == Lines(items[..n]);
    }
  }

  lemma {:induction false} KeptArePrinted(items: seq<Item>, model: Option<string>)
    requires Printed(items)
    ensures Printed(Kept(items, model))
  {
    hide ParseUsd;
    if items != [] {
      KeptArePrinted(items[..|items| - 1], model);
    }
  }

  lemma ReadArePrinted(entries: seq<Json>)
    requires ReadItems(entries).Ok?
    ensures Printed(ReadItems(entries).value)
  {
    hide ParseUsd;
    ItemsRead(entries);
    var items := ReadItems(entries).value;
    forall i | 0 <= i < |items|
      ensures ParseUsd(items[i].line.amount) == Some(items[i].micros)
    {
      assert ReadItem(entries[i]) == Ok(items[i]);
    }
  }

  /** The printed total of a bill is exactly the sum of the printed amounts of its lines. */
  lemma TotalIsTheSumOfItsLines(document: Json, period: string, model: Option<string>)
    requires BillOf(document, period, model).Ok?
    ensures var bill := BillOf(document, period, model).value;
            ParseUsd(bill.total) == Some(SumOfAmounts(bill.lines))
  {
    hide MonthOf, ReadItems, Total, Kept, Lines, FormatUsd, ParseUsd, Printed, SumOfAmounts;
    var entries := Entries(MonthOf(Entries(document, "months"), period).value, "items");
    var items := ReadItems(entries).value;
    ReadArePrinted(entries);
    KeptArePrinted(items, model);
    AmountsAddUp(Kept(items, model));
    UsdRoundTrip(Total(Kept(items, model)));
  }

  predicate Distinct(models: seq<string>) {
    forall i, j :: 0 <= i < j < |models| ==> models[i] != models[j]
  }

  /** The amounts of the lines whose model is among some. */
  function SumOver(items: seq<Item>, models: seq<string>): nat {
    if models == [] then 0
    else SumOver(items, models[..|models| - 1]) + Total(Kept(items, Some(models[|models| - 1])))
  }

  /** One more line adds its amount to the sum over distinct models once, if its model is among them. */
  lemma {:induction false} OneMoreLine(items: seq<Item>, item: Item, models: seq<string>)
    requires Distinct(models)
    ensures SumOver(items + [item], models)
            == SumOver(items, models) + if item.line.model in models then item.micros else 0
  {
    if models != [] {
      var n := |models| - 1;
      OneMoreLine(items, item, models[..n]);
      var kept := Kept(items, Some(models[n]));
      assert (items + [item])[..|items|] == items;
      assert (kept + [item])[..|kept|] == kept;
      assert item.line.model in models <==> item.line.model in models[..n] || item.line.model == models[n];
      assert kept + [] == kept;
      if item.line.model == models[n] {
        assert item.line.model !in models[..n];
      }
    }
  }

  lemma {:induction false} NothingToSum(models: seq<string>)
    ensures SumOver([], models) == 0
  {
    if models != [] {
      NothingToSum(models[..|models| - 1]);
    }
  }

  lemma {:induction false} ModelsPartition(items: seq<Item>, models: seq<string>)
    requires Distinct(models) && forall i :: 0 <= i < |items| ==> items[i].line.model in models
    ensures SumOver(items, models) == Total(items)
  {
    if items == [] {
      NothingToSum(models);
    } else {
      var n := |items| - 1;
      ModelsPartition(items[..n], models);
      OneMoreLine(items[..n], items[n], models);
      assert items == items[..n] + [items[n]];
    }
  }

  lemma {:induction false} BillsSum(document: Json, period: string, models: seq<string>, items: seq<Item>)
    requires BillOf(document, period, None).Ok?
    requires MonthOf(Entries(document, "months"), period).Some?
    requires ReadItems(Entries(MonthOf(Entries(document, "months"), period).value, "items")) == Ok(items)
    ensures SumOfBills(document, period, models) == SumOver(items, models)
  {
    hide MonthOf, ReadItems, Total, Kept, Lines, FormatUsd, ParseUsd;
    if models != [] {
      var n := |models| - 1;
      BillsSum(document, period, models[..n], items);
      EveryModelIsBilled(document, period, models[n]);
      UsdRoundTrip(Total(Kept(items, Some(models[n]))));
    }
  }

  /** When the whole bill is accepted, the totals of the bills of its distinct models sum to its own. */
  lemma BillsOfTheModelsSumToTheWhole(document: Json, period: string, models: seq<string>)
    requires BillOf(document, period, None).Ok? && Distinct(models)
    requires forall line :: line in BillOf(document, period, None).value.lines ==> line.model in models
    ensures ParseUsd(BillOf(document, period, None).value.total) == Some(SumOfBills(document, period, models))
  {
    hide MonthOf, ReadItems, Total, Kept, FormatUsd, ParseUsd, SumOver, SumOfBills;
    var items := ReadItems(Entries(MonthOf(Entries(document, "months"), period).value, "items")).value;
    KeepingAll(items);
    BillsSum(document, period, models, items);
    assert forall i :: 0 <= i < |items| ==> Lines(items)[i] in Lines(items);
    ModelsPartition(items, models);
    UsdRoundTrip(Total(items));
  }

  /** The exact cents the lines state. */
  function CentsOf(entries: seq<Json>): real {
    if entries == [] then 0.0
    else
      var n := |entries| - 1;
      CentsOf(entries[..n]) + match AsReal(Get(entries[n], "cost")) case Some(cents) => cents case None => 0.0
  }

  lemma AmountIsClose(entry: Json)
    requires ReadItem(entry).Ok?
    ensures var cents := AsReal(Get(entry, "cost"));
            && cents.Some? && cents.value >= 0.0
            && Distance(ReadItem(entry).value.micros as real, Times(cents.value, CENTS)) <= 0.5
  {
    hide Micros, FormatUsd, ParseUsd, Distance;
    var cents := AsReal(Get(entry, "cost")).value;
    assert cents >= 0.0 && Times(cents, 1.0) == cents;
    MicrosAreClose(cents, CENTS);
  }

  /** A sum of `n` rounded amounts is within half a micro-dollar an amount of the exact cents. */
  predicate Close(sum: nat, cents: real, n: nat) {
    Distance(sum as real, cents * CENTS) <= 0.5 * n as real
  }

  lemma NothingIsClose()
    ensures Close(0, 0.0, 0)
  {
  }

  lemma OneMoreIsClose(sum: nat, exact: real, micros: nat, cents: real, n: nat)
    requires cents >= 0.0 && Close(sum, exact, n) && Distance(micros as real, Times(cents, CENTS)) <= 0.5
    ensures Close(sum + micros, exact + cents, n + 1)
  {
  }

  lemma {:induction false} SumIsClose(entries: seq<Json>)
    requires ReadItems(entries).Ok?
    ensures Close(Total(ReadItems(entries).value), CentsOf(entries), |entries|)
  {
    hide ReadItem, Close, Distance, Times, AsReal, Get;
    if entries == [] {
      NothingIsClose();
    } else {
      var n := |entries| - 1;
      SumIsClose(entries[..n]);
      var before, item := ReadItems(entries[..n]).value, ReadItem(entries[n]).value;
      assert (before + [item])[..n] == before;
      AmountIsClose(entries[n]);
      OneMoreIsClose(Total(before), CentsOf(entries[..n]), item.micros, AsReal(Get(entries[n], "cost")).value, n);
    }
  }

  /** The whole bill is within half a micro-dollar a line of the exact cents its lines state. */
  lemma TheBillIsCloseToItsCents(document: Json, period: string, month: Json)
    requires MonthOf(Entries(document, "months"), period) == Some(month) && BillOf(document, period, None).Ok?
    ensures var entries := Entries(month, "items");
            && ParseUsd(BillOf(document, period, None).value.total).Some?
            && Close(ParseUsd(BillOf(document, period, None).value.total).value, CentsOf(entries), |entries|)
  {
    hide MonthOf, ReadItems, Total, Kept, Lines, FormatUsd, ParseUsd, CentsOf, Distance;
    var entries := Entries(month, "items");
    var items := ReadItems(entries).value;
    KeepingAll(items);
    SumIsClose(entries);
    UsdRoundTrip(Total(items));
  }

  // ---- A line, in its own terms ----

  /** What a line says: every field is there, and the two amounts are numbers of cents that are not below zero
      and can be held, the rate for a million units; each is its cents times ten thousand, to the nearest. */
  ghost predicate LineSays(entry: Json, item: Item, rate: real, cost: real) {
    && entry.Obj? && {"model", "pricing_type", "units", "rate", "cost"} <= entry.fields.Keys
    && entry.fields["model"].Obj? && "model_name" in entry.fields["model"].fields
    && entry.fields["model"].fields["model_name"] == Str(item.line.model)
    && entry.fields["pricing_type"] == Str(item.line.bucket)
    && item.line.units < U64_LIMIT && entry.fields["units"] == Num(Whole(item.line.units))
    && IsNumber(entry.fields["rate"], rate) && IsNumber(entry.fields["cost"], cost)
    && rate >= 0.0 && cost >= 0.0
    && item.micros == (cost * 10_000.0 + 0.5).Floor < U64_LIMIT
    && ParseUsd(item.line.amount) == Some(item.micros)
    && ParseUsd(item.line.ratePerMillionUnits) == Some((rate * 1_000_000.0 * 10_000.0 + 0.5).Floor)
  }

  ghost predicate IsNumber(j: Json, x: real) {
    (exists n :: j == Num(Whole(n)) && n as real == x) || (exists text :: j == Num(Float(x, text)))
  }

  lemma RealIs(j: Json, x: real)
    ensures AsReal(Some(j)) == Some(x) <==> IsNumber(j, x)
  {
    if j.Num? {
      match j.number
      case Whole(n) => assert j == Num(Whole(n));
      case Float(r, text) => assert j == Num(Float(r, text));
    }
  }

  lemma AmountIs(entry: Json, key: string, times: real, cents: real)
    requires times > 0.0 && AsReal(Get(entry, key)) == Some(cents) && MicrosAt(entry, key, times).Some?
    ensures cents >= 0.0 && MicrosAt(entry, key, times) == Some((cents * times * 10_000.0 + 0.5).Floor)
  {
    assert cents >= 0.0;
    assert Times(cents, times) == cents * times;
    assert Times(Times(cents, times), CENTS) == cents * times * 10_000.0;
  }

  /** A line that reads says exactly what its item holds. */
  lemma ItemSaysItsLine(entry: Json, item: Item)
    requires ReadItem(entry) == Ok(item)
    ensures exists rate, cost :: LineSays(entry, item, rate, cost)
  {
    hide Times, MicroUsd, FormatUsd, ParseUsd;
    var rate, cost := AsReal(Get(entry, "rate")).value, AsReal(Get(entry, "cost")).value;
    WalkTwo(entry, "model", "model_name");
    RealIs(entry.fields["rate"], rate);
    RealIs(entry.fields["cost"], cost);
    AmountIs(entry, "rate", MILLION, rate);
    AmountIs(entry, "cost", 1.0, cost);
    UsdRoundTrip(MicrosAt(entry, "rate", MILLION).value);
    UnitsAre(entry, item.line.units);
    assert cost * 1.0 == cost;
    assert item.micros == (cost * 10_000.0 + 0.5).Floor;
    assert ParseUsd(item.line.ratePerMillionUnits) == Some((rate * 1_000_000.0 * 10_000.0 + 0.5).Floor);
    assert LineSays(entry, item, rate, cost);
  }

  lemma WalkTwo(j: Json, outer: string, inner: string)
    requires Walk(j, [outer, inner]).Some?
    ensures j.Obj? && outer in j.fields && j.fields[outer].Obj? && inner in j.fields[outer].fields
    ensures Walk(j, [outer, inner]) == Some(j.fields[outer].fields[inner])
  {
    assert [outer, inner][1..] == [inner] && [inner][1..] == [];
    assert Walk(j.fields[outer], [inner]).Some?;
    assert Walk(j.fields[outer].fields[inner], []) == Some(j.fields[outer].fields[inner]);
  }

  lemma UnitsAre(entry: Json, units: nat)
    requires UnitsOf(entry) == Some(units)
    ensures entry.Obj? && "units" in entry.fields && units < U64_LIMIT && entry.fields["units"] == Num(Whole(units))
  {
  }

  /** And a line that states every field, its amounts not below zero and small enough to hold, reads. */
  lemma AStatedLineReads(entry: Json, item: Item, rate: real, cost: real)
    requires LineSays(entry, item, rate, cost)
    requires (rate * 1_000_000.0 * 10_000.0 + 0.5).Floor < U64_LIMIT
    ensures ReadItem(entry).Ok? && ReadItem(entry).value.line.model == item.line.model
    ensures ReadItem(entry).value.line.bucket == item.line.bucket && ReadItem(entry).value.line.units == item.line.units
    ensures ReadItem(entry).value.micros == item.micros
  {
    hide FormatUsd, ParseUsd, Walk;
    RealIs(entry.fields["rate"], rate);
    RealIs(entry.fields["cost"], cost);
    StatedAmountReads(entry, "rate", MILLION, rate);
    StatedAmountReads(entry, "cost", 1.0, cost);
    assert cost * 1.0 == cost;
    StatedNameReads(entry, item.line.model);
    hide Times, MicroUsd, MicrosAt;
    assert UnitsOf(entry) == Some(item.line.units);
  }

  lemma StatedNameReads(entry: Json, name: string)
    requires entry.Obj? && "model" in entry.fields && entry.fields["model"].Obj?
    requires "model_name" in entry.fields["model"].fields && entry.fields["model"].fields["model_name"] == Str(name)
    ensures AsStr(Walk(entry, ["model", "model_name"])) == Some(name)
  {
    var inner := entry.fields["model"];
    assert ["model", "model_name"][1..] == ["model_name"] && ["model_name"][1..] == [];
    assert Walk(inner.fields["model_name"], []) == Some(inner.fields["model_name"]);
    assert Walk(inner, ["model_name"]) == Some(inner.fields["model_name"]);
  }

  lemma StatedAmountReads(entry: Json, key: string, times: real, cents: real)
    requires times > 0.0 && cents >= 0.0 && AsReal(Get(entry, key)) == Some(cents)
    requires (cents * times * 10_000.0 + 0.5).Floor < U64_LIMIT
    ensures MicrosAt(entry, key, times) == Some((cents * times * 10_000.0 + 0.5).Floor)
  {
    assert Times(cents, times) == cents * times;
    assert Times(Times(cents, times), CENTS) == cents * times * 10_000.0;
  }

  /** The months of a document and the lines of a month are the arrays they hold under those names, and none
      where they hold no array. */
  lemma EntriesAre(fields: map<string, Json>, key: string, items: seq<Json>)
    ensures key in fields && fields[key] == Arr(items) ==> Entries(Obj(fields), key) == items
    ensures !(key in fields && fields[key].Arr?) ==> Entries(Obj(fields), key) == []
  {
  }
}
