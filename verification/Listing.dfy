/** Listings: one document read as machines, and a walk over many pages. */
module Listing {
  import opened Wrappers
  import opened Text
  import opened Json
  import opened Fleets

  /** The field names a platform's rows are read by. */
  datatype Fleet = Fleet(
    id: string,
    stamp: string,
    stampNamespaced: bool,
    stampFromInspect: bool,
    ended: Option<(string, set<string>)>,
    nextPage: Option<string>)

  /** The text at a row's stamp path, past any namespace; empty text is none. */
  function StampOf(row: Json, fleet: Fleet): Option<string> {
    match AsStr(JsonPath(row, fleet.stamp))
    case None => None
    case Some(text) =>
      var own := if fleet.stampNamespaced then AfterLast(text, '/') else text;
      if own == "" then None else Some(own)
  }

  datatype Unreadable = NoRows | NotAFleet | NoneReadable

  predicate CarriesId(row: Json, fleet: Fleet) { Get(row, fleet.id).Some? }

  predicate AnyCarries(rows: seq<Json>, fleet: Fleet) {
    exists row :: row in rows && CarriesId(row, fleet)
  }

  predicate RowEnded(row: Json, fleet: Fleet) {
    fleet.ended.Some? &&
    var status := AsStr(Get(row, fleet.ended.value.0));
    status.Some? && status.value in fleet.ended.value.1
  }

  /** The arrays among an object's values, in key order. */
  function Arrays(fields: map<string, Json>, keys: seq<string>): seq<seq<Json>>
    requires forall key :: key in keys ==> key in fields
  {
    if keys == [] then []
    else (if fields[keys[0]].Arr? then [fields[keys[0]].items] else []) + Arrays(fields, keys[1..])
  }

  function FirstCarrying(arrays: seq<seq<Json>>, fleet: Fleet): Option<seq<Json>> {
    if arrays == [] then None
    else if AnyCarries(arrays[0], fleet) then Some(arrays[0])
    else FirstCarrying(arrays[1..], fleet)
  }

  /** The array of rows a document holds, under whatever name. */
  function RowsIn(listed: Json, fleet: Fleet): Result<seq<Json>, Unreadable> {
    match listed
    case Arr(rows) => Ok(rows)
    case Obj(fields) =>
      var arrays := Arrays(fields, Ascending(fields.Keys));
      (match FirstCarrying(arrays, fleet)
       case Some(rows) => Ok(rows)
       case None =>
         if arrays != [] && forall rows :: rows in arrays ==> rows == [] then Ok([]) else Err(NoRows))
    case _ => Err(NotAFleet)
  }

  function LiveRows(rows: seq<Json>, fleet: Fleet): seq<Json> {
    if rows == [] then []
    else (if RowEnded(rows[0], fleet) then [] else [rows[0]]) + LiveRows(rows[1..], fleet)
  }

  function ReadRow(row: Json, fleet: Fleet): Option<Machine> {
    match JsonId(row, fleet.id)
    case None => None
    case Some(id) => Some(Machine(id, StampOf(row, fleet)))
  }

  function ReadRows(rows: seq<Json>, fleet: Fleet): seq<Machine> {
    if rows == [] then []
    else (match ReadRow(rows[0], fleet) case None => [] case Some(m) => [m]) + ReadRows(rows[1..], fleet)
  }

  /** The machines a document is read as, or why it is refused. */
  function Machines(listed: Json, fleet: Fleet): Result<seq<Machine>, Unreadable> {
    match RowsIn(listed, fleet)
    case Err(why) => Err(why)
    case Ok(rows) =>
      var live := LiveRows(rows, fleet);
      var read := ReadRows(live, fleet);
      if read == [] && live != [] then Err(NoneReadable) else Ok(read)
  }

  /** The rows of an object are the first array, in key order, holding one that carries the id key. */
  ghost predicate HoldsRows(listed: Json, fleet: Fleet, rows: seq<Json>) {
    match listed
    case Arr(items) => rows == items
    case Obj(fields) =>
      exists key :: key in fields && fields[key] == Arr(rows)
        && AnyCarries(rows, fleet)
        && forall other :: other in fields && Before(other, key) && fields[other].Arr? ==>
             !AnyCarries(fields[other].items, fleet)
    case _ => false
  }

  ghost predicate OnlyEmptyArrays(listed: Json) {
    && listed.Obj? && (exists key :: key in listed.fields && listed.fields[key].Arr?)
    && forall key :: key in listed.fields && listed.fields[key].Arr? ==> listed.fields[key].items == []
  }

  lemma {:induction false} ArraysAre(fields: map<string, Json>, keys: seq<string>)
    requires forall key :: key in keys ==> key in fields
    ensures forall rows :: rows in Arrays(fields, keys) <==> exists key :: key in keys && fields[key] == Arr(rows)
  {
    if keys != [] {
      ArraysAre(fields, keys[1..]);
      assert forall key :: key in keys <==> key == keys[0] || key in keys[1..];
    }
  }

  lemma {:induction false} FirstCarryingIs(fields: map<string, Json>, keys: seq<string>, fleet: Fleet)
    requires forall key :: key in keys ==> key in fields
    requires forall i, j :: 0 <= i < j < |keys| ==> Before(keys[i], keys[j])
    ensures match FirstCarrying(Arrays(fields, keys), fleet)
            case Some(rows) =>
              exists i :: 0 <= i < |keys| && fields[keys[i]] == Arr(rows) && AnyCarries(rows, fleet)
                && forall j :: 0 <= j < i && fields[keys[j]].Arr? ==> !AnyCarries(fields[keys[j]].items, fleet)
            case None => forall key :: key in keys && fields[key].Arr? ==> !AnyCarries(fields[key].items, fleet)
  {
    if keys != [] {
      var rest := keys[1..];
      FirstCarryingIs(fields, rest, fleet);
      var here := fields[keys[0]];
      if here.Arr? && AnyCarries(here.items, fleet) {
        assert Arrays(fields, keys)[0] == here.items;
        assert FirstCarrying(Arrays(fields, keys), fleet) == Some(here.items);
        assert fields[keys[0]] == Arr(here.items);
      } else {
        assert FirstCarrying(Arrays(fields, keys), fleet) == FirstCarrying(Arrays(fields, rest), fleet) by {
          if here.Arr? {
            assert Arrays(fields, keys)[1..] == Arrays(fields, rest);
          } else {
            assert Arrays(fields, keys) == Arrays(fields, rest);
          }
        }
        var found := FirstCarrying(Arrays(fields, rest), fleet);
        if found.Some? {
          var i :| 0 <= i < |rest| && fields[rest[i]] == Arr(found.value) && AnyCarries(found.value, fleet)
            && forall j :: 0 <= j < i && fields[rest[j]].Arr? ==> !AnyCarries(fields[rest[j]].items, fleet);
          assert fields[keys[i + 1]] == Arr(found.value);
          assert forall j :: 0 < j < i + 1 ==> keys[j] == rest[j - 1];
        }
      }
    }
  }

  lemma CarryingIs(rows: seq<Json>, fleet: Fleet)
    ensures AnyCarries(rows, fleet) <==> exists row :: row in rows && row.Obj? && fleet.id in row.fields
  {
  }

  /** Which rows a document is read as holding. */
  lemma RowsExact(listed: Json, fleet: Fleet, rows: seq<Json>)
    ensures RowsIn(listed, fleet) == Ok(rows) <==>
            HoldsRows(listed, fleet, rows) || (rows == [] && OnlyEmptyArrays(listed))
  {
    if listed.Obj? {
      var keys := Ascending(listed.fields.Keys);
      FirstCarryingIs(listed.fields, keys, fleet);
      var found := FirstCarrying(Arrays(listed.fields, keys), fleet);
      if found.Some? {
        SomeCarrying(listed, fleet, keys, found.value, rows);
      } else {
        NoneCarrying(listed, fleet, keys, rows);
      }
    }
  }

  lemma SomeCarrying(listed: Json, fleet: Fleet, keys: seq<string>, found: seq<Json>, rows: seq<Json>)
    requires listed.Obj? && keys == Ascending(listed.fields.Keys)
    requires exists i :: 0 <= i < |keys| && listed.fields[keys[i]] == Arr(found) && AnyCarries(found, fleet)
               && forall j :: 0 <= j < i && listed.fields[keys[j]].Arr? ==>
                    !AnyCarries(listed.fields[keys[j]].items, fleet)
    ensures HoldsRows(listed, fleet, rows) <==> rows == found
    ensures !OnlyEmptyArrays(listed)
  {
    FoundIsHeld(listed, fleet, keys, found);
    if HoldsRows(listed, fleet, rows) {
      HeldIsUnique(listed, fleet, rows, found);
    }
    var key :| key in listed.fields && listed.fields[key] == Arr(found);
    assert found != [];
  }

  lemma NoneCarrying(listed: Json, fleet: Fleet, keys: seq<string>, rows: seq<Json>)
    requires listed.Obj? && forall key :: key in keys <==> key in listed.fields
    requires forall key :: key in keys && listed.fields[key].Arr? ==> !AnyCarries(listed.fields[key].items, fleet)
    ensures !HoldsRows(listed, fleet, rows)
    ensures var arrays := Arrays(listed.fields, keys);
            OnlyEmptyArrays(listed) <==> arrays != [] && forall items :: items in arrays ==> items == []
  {
    hide AnyCarries;
    EmptyArraysAre(listed, keys);
  }

  lemma EmptyArraysAre(listed: Json, keys: seq<string>)
    requires listed.Obj? && forall key :: key in keys <==> key in listed.fields
    ensures var arrays := Arrays(listed.fields, keys);
            OnlyEmptyArrays(listed) <==> arrays != [] && forall items :: items in arrays ==> items == []
  {
    var fields := listed.fields;
    var arrays := Arrays(fields, keys);
    ArraysAre(fields, keys);
    hide Arrays;
    if arrays != [] && (forall items :: items in arrays ==> items == []) {
      var key :| key in keys && fields[key] == Arr(arrays[0]);
      forall key | key in fields && fields[key].Arr?
        ensures fields[key].items == []
      {
        assert fields[key] == Arr(fields[key].items);
      }
    }
    if OnlyEmptyArrays(listed) {
      var key :| key in fields && fields[key].Arr?;
      assert fields[key] == Arr(fields[key].items);
    }
  }

  lemma FoundIsHeld(listed: Json, fleet: Fleet, keys: seq<string>, rows: seq<Json>)
    requires listed.Obj? && keys == Ascending(listed.fields.Keys)
    requires exists i :: 0 <= i < |keys| && listed.fields[keys[i]] == Arr(rows) && AnyCarries(rows, fleet)
               && forall j :: 0 <= j < i && listed.fields[keys[j]].Arr? ==>
                    !AnyCarries(listed.fields[keys[j]].items, fleet)
    ensures HoldsRows(listed, fleet, rows)
  {
    var fields := listed.fields;
    var i :| 0 <= i < |keys| && fields[keys[i]] == Arr(rows) && AnyCarries(rows, fleet)
      && forall j :: 0 <= j < i && fields[keys[j]].Arr? ==> !AnyCarries(fields[keys[j]].items, fleet);
    forall other | other in fields && Before(other, keys[i]) && fields[other].Arr?
      ensures !AnyCarries(fields[other].items, fleet)
    {
      var j :| 0 <= j < |keys| && keys[j] == other;
      BeforeIsStrict(other, keys[i]);
    }
  }

  lemma HeldIsUnique(listed: Json, fleet: Fleet, a: seq<Json>, b: seq<Json>)
    requires HoldsRows(listed, fleet, a) && HoldsRows(listed, fleet, b)
    ensures a == b
  {
    if listed.Obj? {
      var fields := listed.fields;
      var k :| k in fields && fields[k] == Arr(a) && AnyCarries(a, fleet)
        && forall other :: other in fields && Before(other, k) && fields[other].Arr? ==>
             !AnyCarries(fields[other].items, fleet);
      var l :| l in fields && fields[l] == Arr(b) && AnyCarries(b, fleet)
        && forall other :: other in fields && Before(other, l) && fields[other].Arr? ==>
             !AnyCarries(fields[other].items, fleet);
      BeforeIsStrict(k, l);
    }
  }

  lemma {:induction false} LiveRowsAre(rows: seq<Json>, fleet: Fleet)
    ensures forall row :: row in LiveRows(rows, fleet) <==> row in rows && !RowEnded(row, fleet)
  {
    if rows != [] {
      LiveRowsAre(rows[1..], fleet);
      assert forall row :: row in rows <==> row == rows[0] || row in rows[1..];
    }
  }

  lemma {:induction false} ReadRowsAre(rows: seq<Json>, fleet: Fleet)
    ensures forall m :: m in ReadRows(rows, fleet) <==> exists row :: row in rows && ReadRow(row, fleet) == Some(m)
    ensures (forall row :: row in rows ==> ReadRow(row, fleet).Some?) ==> |ReadRows(rows, fleet)| == |rows|
  {
    if rows != [] {
      ReadRowsAre(rows[1..], fleet);
      assert forall row :: row in rows <==> row == rows[0] || row in rows[1..];
    }
  }

  // ---- What a row says ----

  /** The platform calls the machine ended: the row's status field is text, and one of the fleet's words. */
  ghost predicate SaysEnded(row: Json, fleet: Fleet) {
    exists text :: fleet.ended.Some? && text in fleet.ended.value.1 && row.Obj? && fleet.ended.value.0 in row.fields
                   && row.fields[fleet.ended.value.0] == Str(text)
  }

  /** The row's identifier, as text or as a number prints. */
  ghost predicate SaysId(row: Json, fleet: Fleet, id: string) {
    || JsonPath(row, fleet.id) == Some(Str(id))
    || exists number :: JsonPath(row, fleet.id) == Some(Num(number)) && NumberText(number) == id
  }

  /** Its stamp: the text at the stamp path, past the account's name and a slash where the fleet has one. */
  ghost predicate SaysName(row: Json, fleet: Fleet, name: Option<string>) {
    match name
    case None =>
      forall text :: JsonPath(row, fleet.stamp) == Some(Str(text)) ==>
        if fleet.stampNamespaced then IsOwn(text, "") else text == ""
    case Some(own) =>
      && own != ""
      && exists text :: JsonPath(row, fleet.stamp) == Some(Str(text))
                        && if fleet.stampNamespaced then IsOwn(text, own) else text == own
  }

  lemma EndedIsSaid(row: Json, fleet: Fleet)
    ensures RowEnded(row, fleet) <==> SaysEnded(row, fleet)
  {
  }

  /** A document reads as an empty account exactly when every array in it is empty and there is one,
      or when every row it holds has ended. */
  lemma EmptyMeansNothingLives(listed: Json, fleet: Fleet)
    ensures Machines(listed, fleet) == Ok([]) <==>
            || OnlyEmptyArrays(listed)
            || exists rows :: HoldsRows(listed, fleet, rows) && forall row :: row in rows ==> SaysEnded(row, fleet)
  {
    hide HoldsRows, OnlyEmptyArrays, RowsIn, RowEnded, SaysEnded;
    forall row {
      EndedIsSaid(row, fleet);
    }
    forall rows {
      RowsExact(listed, fleet, rows);
    }
    RowsExact(listed, fleet, []);
    match RowsIn(listed, fleet)
    case Ok(rows) =>
      RowsExact(listed, fleet, rows);
      NothingLives(rows, fleet);
    case Err(_) =>
  }

  lemma NothingLives(rows: seq<Json>, fleet: Fleet)
    ensures LiveRows(rows, fleet) == [] <==> forall row :: row in rows ==> RowEnded(row, fleet)
    ensures LiveRows(rows, fleet) == [] ==> ReadRows(LiveRows(rows, fleet), fleet) == []
  {
    LiveRowsAre(rows, fleet);
    var live := LiveRows(rows, fleet);
    if live != [] {
      assert live[0] in live;
    }
  }

  lemma IdIsSaid(row: Json, fleet: Fleet, id: string)
    ensures JsonId(row, fleet.id) == Some(id) <==> SaysId(row, fleet, id)
  {
    hide NumberText;
    assert JsonPath(row, fleet.id).Some? && JsonPath(row, fleet.id).value.Num? ==>
        JsonPath(row, fleet.id) == Some(Num(JsonPath(row, fleet.id).value.number));
  }

  /** What is left of a text past its account: all of it, or what follows a slash, with no slash in it. */
  ghost predicate IsOwn(text: string, own: string) {
    '/' !in own && exists head :: text == head + own && (head == "" || head[|head| - 1] == '/')
  }

  lemma OwnIs(text: string, own: string)
    ensures AfterLast(text, '/') == own <==> IsOwn(text, own)
  {
    hide AfterLast;
    var last := AfterLast(text, '/');
    if IsOwn(text, own) {
      var head :| text == head + own && (head == "" || head[|head| - 1] == '/');
      if head == "" {
        assert text == own;
      } else {
        var account := head[..|head| - 1];
        assert text == account + ['/'] + own;
        AfterLastIs(account, '/', own);
      }
    }
    if '/' in text {
      var account :| text == account + ['/'] + last;
      assert text == (account + ['/']) + last;
    } else {
      assert text == "" + last;
    }
  }

  lemma NameIsSaid(row: Json, fleet: Fleet, name: Option<string>)
    ensures StampOf(row, fleet) == name <==> SaysName(row, fleet, name)
  {
    hide AfterLast, JsonPath, IsOwn;
    var at := JsonPath(row, fleet.stamp);
    if at.Some? && at.value.Str? {
      var text := at.value.text;
      assert at == Some(Str(text));
      OwnIs(text, AfterLast(text, '/'));
      OwnIs(text, "");
      if name.Some? {
        OwnIs(text, name.value);
      }
    }
  }

  lemma ReadRowSays(row: Json, fleet: Fleet, m: Machine)
    ensures ReadRow(row, fleet) == Some(m) <==> SaysId(row, fleet, m.id) && SaysName(row, fleet, m.name)
  {
    hide SaysId, SaysName, JsonId, StampOf;
    IdIsSaid(row, fleet, m.id);
    NameIsSaid(row, fleet, m.name);
  }

  /** A document that reads at all reads as exactly the machines its rows say: those of the rows not ended
      that carry an identifier, each with the stamp its row carries. */
  lemma NoReadableRowIsLost(listed: Json, fleet: Fleet, rows: seq<Json>)
    requires HoldsRows(listed, fleet, rows) && Machines(listed, fleet).Ok?
    ensures forall m :: m in Machines(listed, fleet).value <==>
                        exists row :: row in rows && !SaysEnded(row, fleet) && SaysId(row, fleet, m.id)
                                      && SaysName(row, fleet, m.name)
  {
    hide SaysId, SaysName, SaysEnded, ReadRow, RowEnded, HoldsRows;
    RowsExact(listed, fleet, rows);
    LiveRowsAre(rows, fleet);
    ReadRowsAre(LiveRows(rows, fleet), fleet);
    forall row {
      EndedIsSaid(row, fleet);
    }
    forall row, m {
      ReadRowSays(row, fleet, m);
    }
  }

  lemma {:induction false} LiveRowsJoin(a: seq<Json>, b: seq<Json>, fleet: Fleet)
    ensures LiveRows(a + b, fleet) == LiveRows(a, fleet) + LiveRows(b, fleet)
  {
    hide RowEnded;
    if a == [] {
      assert a + b == b;
    } else {
      assert (a + b)[0] == a[0] && (a + b)[1..] == a[1..] + b;
      LiveRowsJoin(a[1..], b, fleet);
    }
  }

  lemma {:induction false} ReadRowsJoin(a: seq<Json>, b: seq<Json>, fleet: Fleet)
    ensures ReadRows(a + b, fleet) == ReadRows(a, fleet) + ReadRows(b, fleet)
  {
    hide ReadRow;
    if a == [] {
      assert a + b == b;
    } else {
      assert (a + b)[0] == a[0] && (a + b)[1..] == a[1..] + b;
      ReadRowsJoin(a[1..], b, fleet);
    }
  }

  /** The machines come in the order of their rows, one for each that is not ended and carries an identifier:
      a document of two halves reads as what the halves read as. */
  lemma RowsReadInOrder(a: seq<Json>, b: seq<Json>, fleet: Fleet)
    requires Machines(Arr(a), fleet).Ok? && Machines(Arr(b), fleet).Ok?
    ensures Machines(Arr(a + b), fleet) == Ok(Machines(Arr(a), fleet).value + Machines(Arr(b), fleet).value)
  {
    hide ReadRow, RowEnded;
    LiveRowsJoin(a, b, fleet);
    ReadRowsJoin(LiveRows(a, fleet), LiveRows(b, fleet), fleet);
  }

  /** And a document of one row reads as its machine, or as none where it has ended, and is refused where it
      is live and carries no identifier. */
  lemma OneRowReads(row: Json, fleet: Fleet)
    ensures Machines(Arr([row]), fleet) == Ok([]) <==> SaysEnded(row, fleet)
    ensures forall m: Machine :: Machines(Arr([row]), fleet) == Ok([m]) <==>
              !SaysEnded(row, fleet) && SaysId(row, fleet, m.id) && SaysName(row, fleet, m.name)
    ensures Machines(Arr([row]), fleet).Err? <==> !SaysEnded(row, fleet) && forall id :: !SaysId(row, fleet, id)
  {
    hide SaysId, SaysName, SaysEnded, RowEnded, JsonId, StampOf;
    assert [row][1..] == [];
    EndedIsSaid(row, fleet);
    var read := ReadRow(row, fleet);
    assert ReadRows([row], fleet) == match read case None => [] case Some(m) => [m];
    assert read.None? <==> JsonId(row, fleet.id).None?;
    if read.Some? {
      IdIsSaid(row, fleet, read.value.id);
    }
    forall m: Machine {
      ReadRowSays(row, fleet, m);
    }
    forall id {
      IdIsSaid(row, fleet, id);
    }
    if !RowEnded(row, fleet) {
      assert LiveRows([row], fleet) == [row];
    }
  }

  /** The condition above is exact, and looks at one array only: of two arrays carrying the id key,
      the later is not read, so live rows in it do not stop the document reading as empty. */
  lemma OnlyTheFirstArrayIsRead(ended: Json, live: Json, fleet: Fleet)
    requires CarriesId(ended, fleet) && SaysEnded(ended, fleet)
    requires CarriesId(live, fleet) && !SaysEnded(live, fleet)
    ensures Machines(Obj(map["a" := Arr([ended]), "b" := Arr([live])]), fleet) == Ok([])
  {
    hide SaysEnded, CarriesId, Machines;
    var doc := Obj(map["a" := Arr([ended]), "b" := Arr([live])]);
    assert doc.fields["a"] == Arr([ended]) && ended in [ended];
    assert !Before("b", "a") && !Before("a", "a");
    assert HoldsRows(doc, fleet, [ended]);
    EmptyMeansNothingLives(doc, fleet);
  }

  // ---- A listing of many pages ----

  /** One page asked for: the command failed or printed no document, or this document. */
  datatype Reply = Failed | Said(doc: Json)

  datatype ListError =
    | CommandFailed
    | PageUnreadable(why: Unreadable)
    | NotAPageNumber
    | DoesNotAdvance
    | TooManyPages
    | InspectFailed

  datatype Next = LastPage | Page(number: nat) | Garbled

  function NextPage(doc: Json, fleet: Fleet): Next {
    match fleet.nextPage
    case None => LastPage
    case Some(path) =>
      match JsonPath(doc, path)
      case None => LastPage
      case Some(Null) => LastPage
      case Some(value) =>
        match AsU64(value)
        case Some(n) => Page(n)
        case None => Garbled
  }

  /** What the platform would answer: the reply to the nth page command, given the page it names, and
      the reply to inspecting one machine. */
  datatype Platform = Platform(page: (nat, nat) -> Reply, inspect: string -> Reply)

  /** A walk as far as it has gone: it starts at page 1, every page was answered with a document that
      reads, and each page after the first is the next one its predecessor names, further on. */
  ghost predicate Walking(platform: Platform, fleet: Fleet, pages: seq<nat>, docs: seq<Json>) {
    && 1 <= |pages| == |docs| <= MAX_LIST_PAGES && pages[0] == 1
    && (forall i :: 0 <= i < |pages| ==>
          platform.page(i, pages[i]) == Said(docs[i]) && Machines(docs[i], fleet).Ok?)
    && (forall i :: 0 <= i < |pages| - 1 ==>
          NextPage(docs[i], fleet) == Page(pages[i + 1]) && pages[i] < pages[i + 1])
  }

  /** A walk that ended because its last page names no next one. */
  ghost predicate Walked(platform: Platform, fleet: Fleet, pages: seq<nat>, docs: seq<Json>) {
    Walking(platform, fleet, pages, docs) && NextPage(docs[|docs| - 1], fleet) == LastPage
  }

  /** The machines of every page, in order. */
  ghost function Concatenated(docs: seq<Json>, fleet: Fleet): seq<Machine> {
    if docs == [] then []
    else
      var last := Machines(docs[|docs| - 1], fleet);
      Concatenated(docs[..|docs| - 1], fleet) + if last.Ok? then last.value else []
  }

  /** The machines named anew, one by one, by what reading each back says. */
  ghost predicate Inspected(platform: Platform, fleet: Fleet, found: seq<Machine>, named: seq<Machine>) {
    |named| == |found| && forall i :: 0 <= i < |found| ==>
      platform.inspect(found[i].id).Said?
      && named[i] == Machine(found[i].id, StampOf(platform.inspect(found[i].id).doc, fleet))
  }

  /** The pages of a platform form one walk: any complete one continues any begun. */
  lemma {:induction false} OneWalk(platform: Platform, fleet: Fleet, pages: seq<nat>, docs: seq<Json>,
                                   whole: seq<nat>, all: seq<Json>, n: nat)
    requires Walking(platform, fleet, pages, docs) && Walked(platform, fleet, whole, all)
    requires n < |pages|
    ensures n < |whole| && pages[n] == whole[n] && docs[n] == all[n]
  {
    if n > 0 {
      OneWalk(platform, fleet, pages, docs, whole, all, n - 1);
      assert NextPage(docs[n - 1], fleet) == Page(pages[n]);
      assert n - 1 < |whole| - 1 ==> NextPage(all[n - 1], fleet) == Page(whole[n]);
    }
    assert platform.page(n, pages[n]) == Said(docs[n]);
  }

  lemma WalkGoesOn(platform: Platform, fleet: Fleet, whole: seq<nat>, all: seq<Json>, n: nat, page: nat)
    requires Walked(platform, fleet, whole, all) && n < |whole| && NextPage(all[n], fleet) == Page(page)
    ensures n + 1 < |whole| && whole[n + 1] == page && whole[n] < page
    ensures platform.page(n + 1, page) == Said(all[n + 1]) && Machines(all[n + 1], fleet).Ok?
  {
    assert n < |whole| - 1;
  }

  lemma SameWalk(platform: Platform, fleet: Fleet, pages: seq<nat>, docs: seq<Json>, whole: seq<nat>, all: seq<Json>)
    requires Walked(platform, fleet, pages, docs) && Walked(platform, fleet, whole, all)
    ensures docs == all
  {
    OneWalk(platform, fleet, pages, docs, whole, all, |pages| - 1);
    OneWalk(platform, fleet, whole, all, pages, docs, |whole| - 1);
    forall n | 0 <= n < |docs|
      ensures docs[n] == all[n]
    {
      OneWalk(platform, fleet, pages, docs, whole, all, n);
    }
  }

  /** The pages walked lead to `page`. */
  ghost predicate StandsAt(platform: Platform, fleet: Fleet, pages: seq<nat>, docs: seq<Json>, page: nat) {
    && |pages| == |docs| < MAX_LIST_PAGES
    && (pages == [] ==> page == 1)
    && (pages != [] ==> && Walking(platform, fleet, pages, docs)
                        && NextPage(docs[|docs| - 1], fleet) == Page(page) && pages[|pages| - 1] < page)
  }

  lemma OnePageMore(platform: Platform, fleet: Fleet, pages: seq<nat>, docs: seq<Json>, page: nat, doc: Json)
    requires StandsAt(platform, fleet, pages, docs, page)
    requires platform.page(|pages|, page) == Said(doc) && Machines(doc, fleet).Ok?
    ensures Walking(platform, fleet, pages + [page], docs + [doc])
  {
    hide Machines, NextPage;
  }

  /** A walk that stands at a page it cannot read is part of no complete walk. */
  lemma NoWalkPast(platform: Platform, fleet: Fleet, pages: seq<nat>, docs: seq<Json>, page: nat, whole: seq<nat>,
                   all: seq<Json>)
    requires StandsAt(platform, fleet, pages, docs, page)
    requires var reply := platform.page(|pages|, page); reply.Failed? || Machines(reply.doc, fleet).Err?
    ensures !Walked(platform, fleet, whole, all)
  {
    hide Machines, NextPage;
    if Walked(platform, fleet, whole, all) && pages != [] {
      OneWalk(platform, fleet, pages, docs, whole, all, |pages| - 1);
      WalkGoesOn(platform, fleet, whole, all, |pages| - 1, page);
    }
  }

  lemma WalksNeverGarble(platform: Platform, fleet: Fleet, whole: seq<nat>, all: seq<Json>, n: nat)
    requires Walked(platform, fleet, whole, all) && n < |whole|
    ensures !NextPage(all[n], fleet).Garbled?
  {
    assert n < |whole| - 1 ==> NextPage(all[n], fleet) == Page(whole[n + 1]);
  }

  /** Nor is one whose last page's next is no page number, does not advance, or is one too many. */
  lemma NoWalkThrough(platform: Platform, fleet: Fleet, pages: seq<nat>, docs: seq<Json>, whole: seq<nat>,
                      all: seq<Json>)
    requires Walking(platform, fleet, pages, docs)
    requires match NextPage(docs[|docs| - 1], fleet)
             case LastPage => false
             case Garbled => true
             case Page(next) => next <= pages[|pages| - 1] || |pages| == MAX_LIST_PAGES
    ensures !Walked(platform, fleet, whole, all)
  {
    hide Machines, NextPage;
    if Walked(platform, fleet, whole, all) {
      var n := |pages| - 1;
      OneWalk(platform, fleet, pages, docs, whole, all, n);
      WalksNeverGarble(platform, fleet, whole, all, n);
      match NextPage(docs[n], fleet)
      case Page(next) => WalkGoesOn(platform, fleet, whole, all, n, next);
      case _ =>
    }
  }

  /** No complete walk is there to be found. */
  ghost predicate NoWalk(platform: Platform, fleet: Fleet) {
    forall whole, all :: !Walked(platform, fleet, whole, all)
  }

  /** Some machine of the complete walk could not be read back. */
  ghost predicate SomeUnread(platform: Platform, fleet: Fleet) {
    forall whole, all :: Walked(platform, fleet, whole, all) ==>
      exists m :: m in Concatenated(all, fleet) && platform.inspect(m.id).Failed?
  }

  /** Read each machine's lease off its own read-back. */
  method InspectEach(platform: Platform, fleet: Fleet, listed: seq<Machine>)
    returns (r: Result<seq<Machine>, ListError>)
    ensures r.Ok? ==> Inspected(platform, fleet, listed, r.value)
    ensures r.Err? <==> exists m :: m in listed && platform.inspect(m.id).Failed?
    ensures r.Err? ==> r.error == InspectFailed
  {
    hide StampOf;
    var found := listed;
    var i := 0;
    while i < |found|
      invariant 0 <= i <= |found| == |listed|
      invariant Inspected(platform, fleet, listed[..i], found[..i])
      invariant forall j :: i <= j < |found| ==> found[j] == listed[j]
    {
      var doc := platform.inspect(found[i].id);
      if doc.Failed? {
        assert listed[i] in listed;
        return Err(InspectFailed);
      }
      found := found[i := Machine(found[i].id, StampOf(doc.doc, fleet))];
      i := i + 1;
    }
    assert listed[..i] == listed && found[..i] == found;
    return Ok(found);
  }

  /** Walk the pages of a listing. */
  method WalkPages(platform: Platform, fleet: Fleet)
    returns (r: Result<seq<Machine>, ListError>, ghost pages: seq<nat>, ghost docs: seq<Json>, ghost calls: nat)
    ensures calls <= MAX_LIST_PAGES
    ensures r.Ok? ==> Walked(platform, fleet, pages, docs) && |docs| == calls && r.value == Concatenated(docs, fleet)
    ensures r.Err? ==> NoWalk(platform, fleet)
  {
    hide Machines, NextPage, Walked, Walking, Concatenated;
    StartsAtPageOne(platform, fleet);
    var found: seq<Machine> := [];
    var page: nat := 1;
    var walked: nat := 0;
    pages, docs, calls := [], [], 0;
    while true
      invariant 0 <= walked < MAX_LIST_PAGES && calls == walked == |pages| == |docs|
      invariant StandsAt(platform, fleet, pages, docs, page)
      invariant found == Concatenated(docs, fleet)
      decreases MAX_LIST_PAGES - walked
    {
      var reply := platform.page(walked, page);
      calls := calls + 1;
      if reply.Failed? {
        forall whole, all ensures !Walked(platform, fleet, whole, all) {
          NoWalkPast(platform, fleet, pages, docs, page, whole, all);
        }
        return Err(CommandFailed), pages, docs, calls;
      }
      var read := Machines(reply.doc, fleet);
      if read.Err? {
        forall whole, all ensures !Walked(platform, fleet, whole, all) {
          NoWalkPast(platform, fleet, pages, docs, page, whole, all);
        }
        return Err(PageUnreadable(read.error)), pages, docs, calls;
      }
      walked := walked + 1;
      found := found + read.value;
      ConcatenatedMore(docs, reply.doc, fleet);
      OnePageMore(platform, fleet, pages, docs, page, reply.doc);
      pages, docs := pages + [page], docs + [reply.doc];

      var next := NextPage(reply.doc, fleet);
      if next.LastPage? {
        assert Walked(platform, fleet, pages, docs) by { WalkEnds(platform, fleet, pages, docs); }
        return Ok(found), pages, docs, calls;
      }
      if next.Garbled? || next.number <= page || walked >= MAX_LIST_PAGES {
        forall whole, all ensures !Walked(platform, fleet, whole, all) {
          NoWalkThrough(platform, fleet, pages, docs, whole, all);
        }
        return Err(if next.Garbled? then NotAPageNumber
                   else if next.number <= page then DoesNotAdvance
                   else TooManyPages), pages, docs, calls;
      }
      page := next.number;
    }
  }

  lemma StartsAtPageOne(platform: Platform, fleet: Fleet)
    ensures StandsAt(platform, fleet, [], [], 1) && Concatenated([], fleet) == []
  {
  }

  lemma WalkEnds(platform: Platform, fleet: Fleet, pages: seq<nat>, docs: seq<Json>)
    requires Walking(platform, fleet, pages, docs) && NextPage(docs[|docs| - 1], fleet) == LastPage
    ensures Walked(platform, fleet, pages, docs)
  {
  }

  lemma ConcatenatedMore(docs: seq<Json>, doc: Json, fleet: Fleet)
    requires Machines(doc, fleet).Ok?
    ensures Concatenated(docs + [doc], fleet) == Concatenated(docs, fleet) + Machines(doc, fleet).value
  {
    hide Machines;
    assert (docs + [doc])[..|docs|] == docs;
  }

  /** The machines a platform runs: at most a hundred page commands. It succeeds exactly when a
      complete walk exists (and, where leases are read off read-backs, when each machine on it could be
      read back), and what it gives is all of that walk's machines in order. */
  method List(platform: Platform, fleet: Fleet)
    returns (r: Result<seq<Machine>, ListError>, ghost pages: seq<nat>, ghost docs: seq<Json>, ghost calls: nat)
    ensures calls <= MAX_LIST_PAGES
    ensures r.Ok? ==>
              && Walked(platform, fleet, pages, docs) && |docs| == calls
              && if fleet.stampFromInspect then Inspected(platform, fleet, Concatenated(docs, fleet), r.value)
                 else r.value == Concatenated(docs, fleet)
    ensures r.Err? ==> NoWalk(platform, fleet) || (fleet.stampFromInspect && SomeUnread(platform, fleet))
  {
    hide Walked, Walking, Machines, NextPage;
    r, pages, docs, calls := WalkPages(platform, fleet);
    if r.Ok? && fleet.stampFromInspect {
      r := InspectEach(platform, fleet, r.value);
      forall whole, all | Walked(platform, fleet, whole, all)
        ensures all == docs
      {
        SameWalk(platform, fleet, pages, docs, whole, all);
      }
    }
  }
}
