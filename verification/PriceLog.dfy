/** The price record: a change log a sync appends to, read back as of an instant. Instants are RFC 3339
    text in `Z` form, and are ordered as text, which is how the record orders them. */
module PriceLog {
  import opened Wrappers
  import opened Text
  import opened Records

  datatype Price = Price(
    input: string,
    output: string,
    cacheRead: Option<string>,
    cacheWrite: Option<string>,
    reasoning: Option<string>)

  datatype PriceRow = PriceRow(
    provider: string,
    model: string,
    price: Price,
    unit: string,
    asOf: string,
    source: string)

  /** `as_of <= at`, as text; no instant asked for is any. */
  predicate AtOrBefore(asOf: string, at: Option<string>) {
    at.None? || !Before(at.value, asOf)
  }

  predicate Answers(row: PriceRow, provider: string, model: string, at: Option<string>) {
    row.provider == provider && row.model == model && AtOrBefore(row.asOf, at)
  }

  /** The first row, newest first, that answers. */
  function Latest(rows: seq<PriceRow>, provider: string, model: string, at: Option<string>): Option<PriceRow> {
    if rows == [] then None
    else if Answers(rows[0], provider, model, at) then Some(rows[0])
    else Latest(rows[1..], provider, model, at)
  }

  /** What the record says a model cost at an instant. */
  function Answer(log: seq<PriceRow>, provider: string, model: string, at: Option<string>): Option<Price> {
    var row := Latest(NewestFirst(log), provider, model, at);
    if row.Some? then Some(row.value.price) else None
  }

  lemma AnswerOfNothing(provider: string, model: string, at: Option<string>)
    ensures Answer([], provider, model, at) == None
  {
  }

  /** The last row of a log decides, when it answers. */
  lemma AnswerOfLast(log: seq<PriceRow>, row: PriceRow, provider: string, model: string, at: Option<string>)
    ensures Answer(log + [row], provider, model, at) ==
            if Answers(row, provider, model, at) then Some(row.price) else Answer(log, provider, model, at)
  {
    var rows := NewestFirst(log + [row]);
    assert rows == [row] + NewestFirst(log);
  }

  /** What the record answers, in its own rows: the amounts of the last row of the platform and the model
      whose instant is the one asked for or earlier, any being early enough where none is asked for. */
  lemma {:induction false} AnswerIsTheLastRow(log: seq<PriceRow>, provider: string, model: string, at: Option<string>)
    ensures match Answer(log, provider, model, at)
            case Some(price) =>
              exists i :: 0 <= i < |log| && log[i].price == price && SpeaksOf(log[i], provider, model, at)
                && forall j :: i < j < |log| ==> !SpeaksOf(log[j], provider, model, at)
            case None => forall i :: 0 <= i < |log| ==> !SpeaksOf(log[i], provider, model, at)
  {
    if log != [] {
      var n := |log| - 1;
      AnswerIsTheLastRow(log[..n], provider, model, at);
      assert log == log[..n] + [log[n]];
      AnswerOfLast(log[..n], log[n], provider, model, at);
      if at.Some? {
        BeforeIsStrict(at.value, log[n].asOf);
      }
      hide Answer, Answers;
      assert forall i :: 0 <= i < n ==> log[..n][i] == log[i];
    }
  }

  ghost predicate SpeaksOf(row: PriceRow, provider: string, model: string, at: Option<string>) {
    && row.provider == provider && row.model == model
    && (at.Some? ==> row.asOf == at.value || Before(row.asOf, at.value))
  }

  // ---- A sync ----

  /** The rows that say something the record does not already. The record is compared as it was before
      the sync, whatever the sync has appended. */
  function Changes(existing: seq<PriceRow>, provider: string, rows: seq<PriceRow>): seq<PriceRow> {
    if rows == [] then []
    else
      var row := rows[|rows| - 1];
      Changes(existing, provider, rows[..|rows| - 1])
      + if Answer(existing, provider, row.model, None) == Some(row.price) then [] else [row]
  }

  /** Each row of a list is compared by itself, and those that differ are kept in order. */
  lemma OneMoreRowCompared(existing: seq<PriceRow>, provider: string, rows: seq<PriceRow>, row: PriceRow)
    ensures Changes(existing, provider, []) == []
    ensures Changes(existing, provider, rows + [row]) ==
            Changes(existing, provider, rows)
            + if Answer(existing, provider, row.model, None) == Some(row.price) then [] else [row]
  {
    assert (rows + [row])[..|rows|] == rows;
  }

  datatype Synced = Synced(read: nat, appended: nat, kept: nat)

  class PriceRecord {
    /** The rows in the order they were appended. */
    var rows: seq<PriceRow>

    constructor ()
      ensures rows == []
    {
      rows := [];
    }

    /** Append one row, unless the write fails. */
    method Append(row: PriceRow, writable: bool) returns (ok: bool)
      modifies this
      ensures ok == writable
      ensures rows == if ok then old(rows) + [row] else old(rows)
    {
      ok := writable;
      if ok {
        rows := rows + [row];
      }
    }
  }

  /** Append each row that says something new about its model. The write of
      the row at `failsAt`, if the sync gets to it, fails and stops the sync; what was appended stays. */
  method SyncRows(rows: seq<PriceRow>, record: PriceRecord, provider: string, failsAt: Option<nat>)
    returns (r: Option<Synced>, ghost done: nat)
    modifies record
    ensures done <= |rows| && record.rows == old(record.rows) + Changes(old(record.rows), provider, rows[..done])
    ensures r.Some? ==> && done == |rows| == r.value.read && r.value.appended + r.value.kept == |rows|
                        && r.value.appended == |Changes(old(record.rows), provider, rows)|
    ensures r.None? <==> && failsAt.Some? && done == failsAt.value < |rows|
                         && Changes(old(record.rows), provider, [rows[done]]) == [rows[done]]
  {
    var existing := record.rows;
    var appended, kept := 0, 0;
    done := 0;
    var i := 0;
    while i < |rows|
      invariant 0 <= i <= |rows| && done == i
      invariant record.rows == existing + Changes(existing, provider, rows[..i])
      invariant appended == |Changes(existing, provider, rows[..i])| && appended + kept == i
      invariant failsAt.Some? && failsAt.value < i ==> Changes(existing, provider, [rows[failsAt.value]]) == []
    {
      var row := rows[i];
      assert rows[..i + 1][..i] == rows[..i];
      assert [row][..0] == [];
      if Answer(existing, provider, row.model, None) == Some(row.price) {
        kept := kept + 1;
      } else {
        var ok := record.Append(row, failsAt != Some(i));
        if !ok {
          return None, done;
        }
        appended := appended + 1;
      }
      i := i + 1;
      done := i;
    }
    assert rows[..i] == rows;
    return Some(Synced(|rows|, appended, kept)), done;
  }

  // ---- What a sync does to every answer ----

  /** A list stamped with one instant, in which no model repeats. */
  predicate IsList(rows: seq<PriceRow>, provider: string, asOf: string) {
    && (forall i :: 0 <= i < |rows| ==> rows[i].provider == provider && rows[i].asOf == asOf)
    && (forall i, j :: 0 <= i < j < |rows| ==> rows[i].model != rows[j].model)
  }

  /** What a list states a model's price to be. */
  function Stated(rows: seq<PriceRow>, model: string): Option<Price> {
    if rows == [] then None
    else if rows[|rows| - 1].model == model then Some(rows[|rows| - 1].price)
    else Stated(rows[..|rows| - 1], model)
  }

  lemma {:induction false} StatedIs(rows: seq<PriceRow>, model: string)
    ensures Stated(rows, model).None? <==> forall i :: 0 <= i < |rows| ==> rows[i].model != model
  {
    if rows != [] {
      var n := |rows| - 1;
      StatedIs(rows[..n], model);
      assert forall i :: 0 <= i < n ==> rows[..n][i] == rows[i];
    }
  }

  /** Every row of this platform was written before `asOf`. */
  predicate AllBefore(log: seq<PriceRow>, provider: string, asOf: string) {
    forall i :: 0 <= i < |log| && log[i].provider == provider ==> Before(log[i].asOf, asOf)
  }

  /** Asked at or after an instant all its rows precede, a log answers with its newest row. */
  lemma {:induction false} PastTheEndIsNewest(log: seq<PriceRow>, provider: string, model: string, asOf: string,
                                              at: string)
    requires AllBefore(log, provider, asOf) && !Before(at, asOf)
    ensures Answer(log, provider, model, Some(at)) == Answer(log, provider, model, None)
  {
    if log != [] {
      var n := |log| - 1;
      PastTheEndIsNewest(log[..n], provider, model, asOf, at);
      assert log == log[..n] + [log[n]];
      AnswerOfLast(log[..n], log[n], provider, model, Some(at));
      AnswerOfLast(log[..n], log[n], provider, model, None);
      if log[n].provider == provider && Before(at, log[n].asOf) {
        BeforeIsTransitive(at, log[n].asOf, asOf);
      }
    }
  }

  /** One sync, at an instant after everything the record holds of its platform: from that instant on
      every model the list states is answered as the list states it; every other answer, about an
      earlier instant, another model or another platform, is what it was. */
  lemma {:induction false} SyncChangesOnlyTheFuture(log: seq<PriceRow>, provider: string, rows: seq<PriceRow>,
                                                    asOf: string, other: string, model: string, at: Option<string>)
    requires IsList(rows, provider, asOf) && AllBefore(log, provider, asOf)
    ensures Answer(log + Changes(log, provider, rows), other, model, at) ==
            if other == provider && AtOrBefore(asOf, at) && Stated(rows, model).Some? then Stated(rows, model)
            else Answer(log, other, model, at)
  {
    if rows == [] {
      assert log + Changes(log, provider, rows) == log;
    } else {
      var n := |rows| - 1;
      var row, before := rows[n], Changes(log, provider, rows[..n]);
      SyncChangesOnlyTheFuture(log, provider, rows[..n], asOf, other, model, at);
      StatedIs(rows[..n], model);
      if Answer(log, provider, row.model, None) == Some(row.price) {
        assert log + Changes(log, provider, rows) == log + before;
        if at.Some? && !Before(at.value, asOf) {
          PastTheEndIsNewest(log, provider, model, asOf, at.value);
        }
      } else {
        assert log + Changes(log, provider, rows) == (log + before) + [row];
        AnswerOfLast(log + before, row, other, model, at);
      }
    }
  }

  // ---- A history of syncs ----

  datatype Snapshot = Snapshot(provider: string, asOf: string, rows: seq<PriceRow>)

  /** Each snapshot states each model once, and each platform's come at strictly increasing instants.
      A sync that failed part way is the snapshot of the rows it got through. */
  ghost predicate IsHistory(snapshots: seq<Snapshot>) {
    && (forall i :: 0 <= i < |snapshots| ==> IsList(snapshots[i].rows, snapshots[i].provider, snapshots[i].asOf))
    && (forall i, j :: 0 <= i < j < |snapshots| && snapshots[i].provider == snapshots[j].provider ==>
          Before(snapshots[i].asOf, snapshots[j].asOf))
  }

  /** The change log those syncs leave. */
  function LogOf(snapshots: seq<Snapshot>): seq<PriceRow> {
    if snapshots == [] then []
    else
      var last := snapshots[|snapshots| - 1];
      var log := LogOf(snapshots[..|snapshots| - 1]);
      log + Changes(log, last.provider, last.rows)
  }

  /** The reference: what the latest full list of the platform stating the model, at or before the
      instant, said. */
  function LatestStated(snapshots: seq<Snapshot>, provider: string, model: string, at: Option<string>): Option<Price> {
    if snapshots == [] then None
    else
      var last := snapshots[|snapshots| - 1];
      if last.provider == provider && AtOrBefore(last.asOf, at) && Stated(last.rows, model).Some?
      then Stated(last.rows, model)
      else LatestStated(snapshots[..|snapshots| - 1], provider, model, at)
  }

  lemma {:induction false} ChangesAreOfTheList(existing: seq<PriceRow>, provider: string, rows: seq<PriceRow>)
    ensures forall i :: 0 <= i < |Changes(existing, provider, rows)| ==> Changes(existing, provider, rows)[i] in rows
  {
    if rows != [] {
      ChangesAreOfTheList(existing, provider, rows[..|rows| - 1]);
    }
  }

  lemma {:induction false} LogPrecedes(snapshots: seq<Snapshot>, provider: string, asOf: string)
    requires IsHistory(snapshots)
    requires forall i :: 0 <= i < |snapshots| && snapshots[i].provider == provider ==> Before(snapshots[i].asOf, asOf)
    ensures AllBefore(LogOf(snapshots), provider, asOf)
  {
    if snapshots != [] {
      var n := |snapshots| - 1;
      var last, log := snapshots[n], LogOf(snapshots[..n]);
      LogPrecedes(snapshots[..n], provider, asOf);
      ChangesAreOfTheList(log, last.provider, last.rows);
    }
  }

  /** A log built by syncs answers, for every platform, model and instant, exactly what the latest full
      list stating that model at or before that instant said. */
  lemma {:induction false} LogAnswersAsTheSnapshotsWould(snapshots: seq<Snapshot>, provider: string, model: string,
                                                         at: Option<string>)
    requires IsHistory(snapshots)
    ensures Answer(LogOf(snapshots), provider, model, at) == LatestStated(snapshots, provider, model, at)
  {
    if snapshots == [] {
      AnswerOfNothing(provider, model, at);
    } else {
      var n := |snapshots| - 1;
      var last, log := snapshots[n], LogOf(snapshots[..n]);
      LogAnswersAsTheSnapshotsWould(snapshots[..n], provider, model, at);
      LogPrecedes(snapshots[..n], last.provider, last.asOf);
      SyncChangesOnlyTheFuture(log, last.provider, last.rows, last.asOf, provider, model, at);
    }
  }

  /** A later sync never changes an answer about an earlier instant. */
  lemma LaterSyncsKeepEarlierAnswers(snapshots: seq<Snapshot>, next: Snapshot, provider: string, model: string,
                                     at: string)
    requires IsHistory(snapshots + [next]) && Before(at, next.asOf)
    ensures Answer(LogOf(snapshots + [next]), provider, model, Some(at))
            == Answer(LogOf(snapshots), provider, model, Some(at))
  {
    var all := snapshots + [next];
    assert all[..|snapshots|] == snapshots && all[|snapshots|] == next;
    assert forall i :: 0 <= i < |snapshots| ==> all[i] == snapshots[i];
    LogPrecedes(snapshots, next.provider, next.asOf);
    SyncChangesOnlyTheFuture(LogOf(snapshots), next.provider, next.rows, next.asOf, provider, model, Some(at));
  }

  // ---- Nothing is written twice ----

  /** No row repeats the amounts of the row before it for the same model. */
  ghost predicate Alternates(log: seq<PriceRow>) {
    forall i :: 0 <= i < |log| ==> Answer(log[..i], log[i].provider, log[i].model, None) != Some(log[i].price)
  }

  lemma OneMoreAlternates(log: seq<PriceRow>, row: PriceRow)
    requires Alternates(log) && Answer(log, row.provider, row.model, None) != Some(row.price)
    ensures Alternates(log + [row])
  {
    hide Answer;
    var longer := log + [row];
    assert longer[..|log|] == log;
    assert forall i :: 0 <= i < |log| ==> longer[..i] == log[..i];
  }

  lemma {:induction false} SyncAlternates(log: seq<PriceRow>, provider: string, rows: seq<PriceRow>, asOf: string)
    requires IsList(rows, provider, asOf) && AllBefore(log, provider, asOf) && Alternates(log)
    ensures Alternates(log + Changes(log, provider, rows))
  {
    hide Answer, Alternates, AllBefore, Stated;
    if rows == [] {
      assert log + Changes(log, provider, rows) == log;
    } else {
      var n := |rows| - 1;
      var row, before := rows[n], Changes(log, provider, rows[..n]);
      SyncAlternates(log, provider, rows[..n], asOf);
      if Answer(log, provider, row.model, None) == Some(row.price) {
        assert log + Changes(log, provider, rows) == log + before;
      } else {
        StatedIs(rows[..n], row.model);
        SyncChangesOnlyTheFuture(log, provider, rows[..n], asOf, provider, row.model, None);
        OneMoreAlternates(log + before, row);
        assert log + Changes(log, provider, rows) == (log + before) + [row];
      }
    }
  }

  /** In a log built by syncs, a row always differs in amounts from the row before it for its model. */
  lemma {:induction false} LogAlternates(snapshots: seq<Snapshot>)
    requires IsHistory(snapshots)
    ensures Alternates(LogOf(snapshots))
  {
    if snapshots != [] {
      var n := |snapshots| - 1;
      LogAlternates(snapshots[..n]);
      LogPrecedes(snapshots[..n], snapshots[n].provider, snapshots[n].asOf);
      SyncAlternates(LogOf(snapshots[..n]), snapshots[n].provider, snapshots[n].rows, snapshots[n].asOf);
    }
  }

  lemma {:induction false} NothingToChange(log: seq<PriceRow>, provider: string, rows: seq<PriceRow>)
    requires Changes(log, provider, rows) == []
    ensures forall i :: 0 <= i < |rows| ==> Answer(log, provider, rows[i].model, None) == Some(rows[i].price)
  {
    hide Answer;
    if rows != [] {
      var n := |rows| - 1;
      NothingToChange(log, provider, rows[..n]);
      assert forall i :: 0 <= i < n ==> rows[..n][i] == rows[i];
    }
  }

  /** Why a list must state each model once: any list that states a model at two prices appends a row at
      every sync, whatever the record holds, and so never settles. */
  lemma ARepeatedModelNeverSettles(log: seq<PriceRow>, provider: string, rows: seq<PriceRow>, i: nat, j: nat)
    requires i < |rows| && j < |rows| && rows[i].model == rows[j].model && rows[i].price != rows[j].price
    ensures Changes(log, provider, rows) != []
  {
    hide Answer;
    if Changes(log, provider, rows) == [] {
      NothingToChange(log, provider, rows);
    }
  }

  /** The newest amounts a list gives a model that differ from what the record had. */
  function LastChange(rows: seq<PriceRow>, model: string, had: Option<Price>): Option<Price> {
    if rows == [] then None
    else
      var row := rows[|rows| - 1];
      if row.model == model && had != Some(row.price) then Some(row.price)
      else LastChange(rows[..|rows| - 1], model, had)
  }

  lemma {:induction false} SyncAppendsTheLastChange(log: seq<PriceRow>, provider: string, rows: seq<PriceRow>,
                                                    model: string)
    requires forall i :: 0 <= i < |rows| ==> rows[i].provider == provider
    ensures var had := Answer(log, provider, model, None);
            var change := LastChange(rows, model, had);
            Answer(log + Changes(log, provider, rows), provider, model, None) == if change.Some? then change else had
  {
    if rows == [] {
      assert log + Changes(log, provider, rows) == log;
    } else {
      var n := |rows| - 1;
      var row, before := rows[n], Changes(log, provider, rows[..n]);
      SyncAppendsTheLastChange(log, provider, rows[..n], model);
      if Answer(log, provider, row.model, None) == Some(row.price) {
        assert log + Changes(log, provider, rows) == log + before;
      } else {
        AnswerOfLast(log + before, row, provider, model, None);
        assert log + Changes(log, provider, rows) == (log + before) + [row];
      }
    }
  }

  lemma {:induction false} LastChangeIs(rows: seq<PriceRow>, model: string, had: Option<Price>)
    ensures LastChange(rows, model, had).None? <==> forall i :: 0 <= i < |rows| && rows[i].model == model ==>
                                                      had == Some(rows[i].price)
    ensures LastChange(rows, model, had) != had || had.None?
    ensures Stated(rows, model).Some? && had != Stated(rows, model)
            ==> LastChange(rows, model, had) == Stated(rows, model)
  {
    if rows != [] {
      var n := |rows| - 1;
      LastChangeIs(rows[..n], model, had);
      assert forall i :: 0 <= i < n ==> rows[..n][i] == rows[i];
    }
  }

  /** For any list, even one that states a model twice: after a sync the record answers as the list last
      states a model if and only if the record did not already hold that amount, or no entry of the
      list gives the model another. */
  lemma SyncAnswersAsListed(log: seq<PriceRow>, provider: string, rows: seq<PriceRow>, model: string)
    requires forall i :: 0 <= i < |rows| ==> rows[i].provider == provider
    requires Stated(rows, model).Some?
    ensures Answer(log + Changes(log, provider, rows), provider, model, None) == Stated(rows, model)
            <==> || Answer(log, provider, model, None) != Stated(rows, model)
                 || forall i :: 0 <= i < |rows| && rows[i].model == model ==> Some(rows[i].price) == Stated(rows, model)
  {
    hide Answer, Changes, Stated, LastChange;
    SyncAppendsTheLastChange(log, provider, rows, model);
    LastChangeIs(rows, model, Answer(log, provider, model, None));
  }

  lemma {:induction false} StatedAt(rows: seq<PriceRow>, i: nat, provider: string, asOf: string)
    requires i < |rows| && IsList(rows, provider, asOf)
    ensures Stated(rows, rows[i].model) == Some(rows[i].price)
  {
    var n := |rows| - 1;
    if i < n {
      StatedAt(rows[..n], i, provider, asOf);
    }
  }

  /** After a sync that stopped at row `done`, the record holds the rows before it and no later one. */
  lemma StoppedSyncHolds(log: seq<PriceRow>, provider: string, rows: seq<PriceRow>, asOf: string, done: nat, i: nat)
    requires IsList(rows, provider, asOf) && AllBefore(log, provider, asOf) && done <= |rows| && i < |rows|
    ensures Answer(log + Changes(log, provider, rows[..done]), provider, rows[i].model, None) ==
            if i < done then Some(rows[i].price) else Answer(log, provider, rows[i].model, None)
  {
    hide Answer, Changes, Stated;
    SyncChangesOnlyTheFuture(log, provider, rows[..done], asOf, provider, rows[i].model, None);
    StatedIs(rows[..done], rows[i].model);
    if i < done {
      StatedAt(rows[..done], i, provider, asOf);
    }
  }

  lemma {:induction false} ChangesJoin(existing: seq<PriceRow>, provider: string, a: seq<PriceRow>, b: seq<PriceRow>)
    ensures Changes(existing, provider, a + b) == Changes(existing, provider, a) + Changes(existing, provider, b)
  {
    hide Answer;
    if b == [] {
      assert a + b == a;
    } else {
      var n := |b| - 1;
      assert (a + b)[..|a + b| - 1] == a + b[..n];
      ChangesJoin(existing, provider, a, b[..n]);
    }
  }

  lemma {:induction false} NothingNewNoChanges(existing: seq<PriceRow>, provider: string, rows: seq<PriceRow>)
    requires forall i :: 0 <= i < |rows| ==> Answer(existing, provider, rows[i].model, None) == Some(rows[i].price)
    ensures Changes(existing, provider, rows) == []
  {
    hide Answer;
    if rows != [] {
      NothingNewNoChanges(existing, provider, rows[..|rows| - 1]);
    }
  }

  /** Two records that answer alike for the models of a list are changed alike by it. */
  lemma {:induction false} SameAnswersSameChanges(a: seq<PriceRow>, b: seq<PriceRow>, provider: string,
                                                  rows: seq<PriceRow>)
    requires forall i :: 0 <= i < |rows| ==>
               Answer(a, provider, rows[i].model, None) == Answer(b, provider, rows[i].model, None)
    ensures Changes(a, provider, rows) == Changes(b, provider, rows)
  {
    hide Answer;
    if rows != [] {
      SameAnswersSameChanges(a, b, provider, rows[..|rows| - 1]);
    }
  }

  /** A sync stopped by a failed write is finished by the next: run with the same amounts at a later
      instant, it appends what the first did not get to, and nothing else. */
  lemma ARetryAppendsTheRest(log: seq<PriceRow>, provider: string, rows: seq<PriceRow>, asOf: string,
                             again: seq<PriceRow>, done: nat)
    requires IsList(rows, provider, asOf) && AllBefore(log, provider, asOf) && done <= |rows| == |again|
    requires forall i :: 0 <= i < |rows| ==> again[i].model == rows[i].model && again[i].price == rows[i].price
    ensures Changes(log + Changes(log, provider, rows[..done]), provider, again)
            == Changes(log, provider, again[done..])
  {
    var stopped := log + Changes(log, provider, rows[..done]);
    forall i | 0 <= i < |again|
      ensures Answer(stopped, provider, again[i].model, None) ==
              if i < done then Some(again[i].price) else Answer(log, provider, again[i].model, None)
    {
      StoppedSyncHolds(log, provider, rows, asOf, done, i);
    }
    hide Answer, Changes, IsList, AllBefore;
    assert again == again[..done] + again[done..];
    ChangesJoin(stopped, provider, again[..done], again[done..]);
    NothingNewNoChanges(stopped, provider, again[..done]);
    SameAnswersSameChanges(stopped, log, provider, again[done..]);
  }
}
