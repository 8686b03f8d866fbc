/** A listing read page by page while the machines it lists come and go. */
module Pages {
  import opened Wrappers
  import opened Fleets

  // ---- Orders ----

  /** The ids of some machines, in listing order. */
  function Order(machines: seq<Machine>): (ids: seq<string>)
    ensures |ids| == |machines| && forall i :: 0 <= i < |ids| ==> ids[i] == machines[i].id
  {
    seq(|machines|, i requires 0 <= i < |machines| => machines[i].id)
  }

  predicate Distinct(ids: seq<string>) {
    forall i, j :: 0 <= i < j < |ids| ==> ids[i] != ids[j]
  }

  /** Those of some ids that are still among others, in order. */
  function Remaining(ids: seq<string>, among: seq<string>): (r: seq<string>)
    ensures |r| <= |ids|
  {
    if ids == [] then []
    else
      var n := |ids| - 1;
      Remaining(ids[..n], among) + if ids[n] in among then [ids[n]] else []
  }

  /** A later order of a listing: what is left of the earlier one comes first, as it was ordered; what is
      new comes after it. */
  predicate Follows(earlier: seq<string>, later: seq<string>) {
    Remaining(earlier, later) <= later
  }

  function IndexOf(ids: seq<string>, id: string): (i: nat)
    requires id in ids
    ensures i < |ids| && ids[i] == id && forall j :: 0 <= j < i ==> ids[j] != id
  {
    if ids[0] == id then 0
    else
      assert ids == [ids[0]] + ids[1..];
      1 + IndexOf(ids[1..], id)
  }

  /** How many of the ids before one are gone later. */
  function GoneBefore(earlier: seq<string>, later: seq<string>, id: string): nat
    requires id in earlier
  {
    var i := IndexOf(earlier, id);
    i - |Remaining(earlier[..i], later)|
  }

  lemma {:induction false} RemainingJoins(a: seq<string>, b: seq<string>, among: seq<string>)
    ensures Remaining(a + b, among) == Remaining(a, among) + Remaining(b, among)
  {
    if b == [] {
      assert a + b == a;
    } else {
      var n := |b| - 1;
      assert (a + b)[..|a + b| - 1] == a + b[..n];
      RemainingJoins(a, b[..n], among);
    }
  }

  lemma RemainingAround(head: seq<string>, id: string, tail: seq<string>, among: seq<string>)
    requires id in among
    ensures Remaining(head + [id] + tail, among) == Remaining(head, among) + [id] + Remaining(tail, among)
  {
    RemainingJoins(head + [id], tail, among);
    assert (head + [id])[..|head|] == head;
  }

  /** As a listing moves on, an id moves up by as many as have gone before it, and never down. */
  lemma MovesUp(earlier: seq<string>, later: seq<string>, id: string)
    requires Distinct(earlier) && Distinct(later) && Follows(earlier, later) && id in earlier && id in later
    ensures IndexOf(later, id) == IndexOf(earlier, id) - GoneBefore(earlier, later, id)
  {
    hide Remaining;
    var i := IndexOf(earlier, id);
    assert earlier == earlier[..i] + [id] + earlier[i + 1..];
    RemainingAround(earlier[..i], id, earlier[i + 1..], later);
    var at := |Remaining(earlier[..i], later)|;
    assert Remaining(earlier, later)[at] == id;
    IndexIsTheOnly(later, id, at);
  }

  lemma IndexIsTheOnly(ids: seq<string>, id: string, i: nat)
    requires Distinct(ids) && i < |ids| && ids[i] == id
    ensures IndexOf(ids, id) == i
  {
  }

  // ---- Pages ----

  /** What a platform lists at one moment: its rows in order, some of them of machines that have ended. Those
      take their place on a page and are read as no machine. */
  datatype Roster = Roster(rows: seq<Machine>, ended: set<string>) {
    function Ids(): seq<string> { Order(rows) }

    predicate Lives(id: string) { id in Ids() && id !in ended }
  }

  /** The rows before page n. */
  function Start(n: nat, c: nat): nat { n * c }

  /** The nth page, counted from none, of a listing of so many rows a page; a listing that is one document
      has one page. */
  function PageRows(listed: seq<Machine>, n: nat, rows: Option<nat>): seq<Machine> {
    match rows
    case None => if n == 0 then listed else []
    case Some(c) => Slice(listed, Start(n, c), Start(n + 1, c))
  }

  /** The machines read off it. */
  function Page(standing: Roster, n: nat, rows: Option<nat>): seq<Machine> {
    Without(PageRows(standing.rows, n, rows), standing.ended)
  }

  function AtMost(n: nat, bound: nat): nat { if n <= bound then n else bound }

  function Slice(machines: seq<Machine>, from: nat, to: nat): seq<Machine> {
    var end := AtMost(to, |machines|);
    if from <= end then machines[from..end] else []
  }

  /** A walk over pages: what the platform listed at the moment each page was read. */
  datatype Walk = Walk(rows: Option<nat>, standings: seq<Roster>)

  /** Everything the walk was shown, page after page. */
  function Listed(walk: Walk): seq<Machine>
    decreases |walk.standings|
  {
    if walk.standings == [] then []
    else
      var n := |walk.standings| - 1;
      Listed(Walk(walk.rows, walk.standings[..n])) + Page(walk.standings[n], n, walk.rows)
  }

  /** The page just read was the last there was. */
  predicate Complete(walk: Walk) {
    && walk.standings != []
    && (walk.rows.Some? ==> |walk.standings[|walk.standings| - 1].rows| <= Start(|walk.standings|, walk.rows.value))
  }

  /** Each order of a walk is one the earlier ones lead to, and a row leaves it only when its machine
      has ended. */
  ghost predicate Chained(standings: seq<Roster>) {
    && (forall n :: 0 <= n < |standings| ==> Distinct(standings[n].Ids()))
    && (forall n, l :: 0 <= n < l < |standings| ==> MovedOn(standings[n], standings[l]))
  }

  ghost predicate MovedOn(before: Roster, after: Roster) {
    && Follows(before.Ids(), after.Ids()) && before.ended <= after.ended
    && (forall id :: id in before.Ids() && id !in after.Ids() ==> id in after.ended)
  }

  ghost predicate Throughout(walk: Walk, id: string) {
    forall n :: 0 <= n < |walk.standings| ==> walk.standings[n].Lives(id)
  }

  /** Between the reading of page n and of the next, `id` moved up from behind the pages read to among
      them: as many rows before it were dropped as stood between it and those pages, and one more. */
  predicate SlipsAt(walk: Walk, n: nat, id: string) {
    && walk.rows.Some? && n + 1 < |walk.standings|
    && id in walk.standings[n].Ids() && id in walk.standings[n + 1].Ids()
    && var before, after := walk.standings[n].Ids(), walk.standings[n + 1].Ids();
    var read, ahead := Start(n + 1, walk.rows.value), IndexOf(before, id);
    read <= ahead < read + GoneBefore(before, after, id)
  }

  predicate Slipped(walk: Walk, id: string) {
    exists n: nat :: n < |walk.standings| && SlipsAt(walk, n, id)
  }

  /** Where a machine stands when page n is read. */
  function PlaceAt(walk: Walk, n: nat, id: string): nat
    requires n < |walk.standings| && id in walk.standings[n].Ids()
  {
    IndexOf(walk.standings[n].Ids(), id)
  }

  lemma OnTheSlice(rows: seq<Machine>, from: nat, to: nat, id: string)
    requires Distinct(Order(rows))
    ensures id in Ids(Slice(rows, from, to)) <==> id in Order(rows) && from <= IndexOf(Order(rows), id) < to
  {
    hide IndexOf;
    var slice, order := Slice(rows, from, to), Order(rows);
    if id in Ids(slice) {
      var i :| 0 <= i < |slice| && slice[i].id == id;
      assert order[from + i] == id;
      IndexIsTheOnly(order, id, from + i);
    }
    if id in order && from <= IndexOf(order, id) < to {
      assert slice[IndexOf(order, id) - from] in slice;
    }
  }

  /** A page shows a machine exactly when its row is on that page and it lives. */
  lemma OnThePage(standing: Roster, n: nat, c: nat, id: string)
    requires Distinct(standing.Ids())
    ensures id in Ids(Page(standing, n, Some(c))) <==>
            standing.Lives(id) && Start(n, c) <= IndexOf(standing.Ids(), id) < Start(n + 1, c)
  {
    hide Slice, IndexOf, Start;
    OnTheSlice(standing.rows, Start(n, c), Start(n + 1, c), id);
    IdsWithout(Slice(standing.rows, Start(n, c), Start(n + 1, c)), standing.ended, id);
  }

  lemma IdsWithout(machines: seq<Machine>, gone: set<string>, id: string)
    ensures id in Ids(Without(machines, gone)) <==> id in Ids(machines) && id !in gone
  {
    WithoutKeeps(machines, gone);
  }

  lemma {:induction false} ListedIs(walk: Walk, id: string)
    ensures id in Ids(Listed(walk)) <==>
            exists n: nat :: n < |walk.standings| && id in Ids(Page(walk.standings[n], n, walk.rows))
    decreases |walk.standings|
  {
    hide Page;
    if walk.standings != [] {
      hide Ids;
      var n := |walk.standings| - 1;
      var shorter := Walk(walk.rows, walk.standings[..n]);
      ListedIs(shorter, id);
      assert forall l: nat :: l < n ==> shorter.standings[l] == walk.standings[l];
      IdsJoin(Listed(shorter), Page(walk.standings[n], n, walk.rows), id);
    }
  }

  lemma IdsJoin(a: seq<Machine>, b: seq<Machine>, id: string)
    ensures id in Ids(a + b) <==> id in Ids(a) || id in Ids(b)
  {
    assert forall m :: m in a + b <==> m in a || m in b;
  }

  /** A machine moves up only, as the pages are read. */
  lemma PlacesFall(walk: Walk, n: nat, l: nat, id: string)
    requires Chained(walk.standings) && n <= l < |walk.standings|
    requires id in walk.standings[n].Ids() && id in walk.standings[l].Ids()
    ensures PlaceAt(walk, l, id) <= PlaceAt(walk, n, id)
  {
    if n < l {
      assert MovedOn(walk.standings[n], walk.standings[l]);
      MovesUp(walk.standings[n].Ids(), walk.standings[l].Ids(), id);
    }
  }

  /** Exactly when a machine that lived at every reading is missing from a complete listing: between two
      readings, more rows ordered before its own were dropped than stood between it and the pages read. */
  lemma MissingExactly(walk: Walk, id: string)
    requires Complete(walk) && Chained(walk.standings) && Throughout(walk, id)
    requires walk.rows.Some? ==> walk.rows.value > 0
    ensures id in Ids(Listed(walk)) <==> !Slipped(walk, id)
  {
    ListedIs(walk, id);
    match walk.rows {
      case None =>
        assert walk.standings[0].Lives(id);
        OrderIsIds(walk.standings[0].rows);
        IdsWithout(walk.standings[0].rows, walk.standings[0].ended, id);
        assert id in Ids(Page(walk.standings[0], 0, walk.rows));
      case Some(c) =>
        if Slipped(walk, id) {
          var n: nat :| n < |walk.standings| && SlipsAt(walk, n, id);
          SlippedIsOnNoPage(walk, n, c, id);
        } else {
          var n := ItsPage(walk, c, id, 0);
        }
    }
  }

  lemma OrderIsIds(machines: seq<Machine>)
    ensures forall id :: id in Order(machines) <==> id in Ids(machines)
  {
    assert forall i :: 0 <= i < |machines| ==> machines[i] in machines && Order(machines)[i] == machines[i].id;
  }

  lemma SlipCrosses(walk: Walk, n: nat, c: nat, id: string)
    requires Chained(walk.standings) && walk.rows == Some(c) && SlipsAt(walk, n, id)
    ensures PlaceAt(walk, n + 1, id) < Start(n + 1, c) <= PlaceAt(walk, n, id)
  {
    assert MovedOn(walk.standings[n], walk.standings[n + 1]);
    MovesUp(walk.standings[n].Ids(), walk.standings[n + 1].Ids(), id);
  }

  lemma SlippedIsOnNoPage(walk: Walk, n: nat, c: nat, id: string)
    requires Chained(walk.standings) && Throughout(walk, id) && walk.rows == Some(c) && SlipsAt(walk, n, id)
    ensures forall l: nat :: l < |walk.standings| ==> id !in Ids(Page(walk.standings[l], l, walk.rows))
  {
    hide Chained, Throughout, SlipsAt, Page;
    forall l: nat | l < |walk.standings|
      ensures id !in Ids(Page(walk.standings[l], l, walk.rows))
    {
      SlippedIsNotOnPage(walk, n, l, c, id);
    }
  }

  lemma SlippedIsNotOnPage(walk: Walk, n: nat, l: nat, c: nat, id: string)
    requires Chained(walk.standings) && Throughout(walk, id) && walk.rows == Some(c) && SlipsAt(walk, n, id)
    requires l < |walk.standings|
    ensures id !in Ids(Page(walk.standings[l], l, walk.rows))
  {
    hide Start, IndexOf, Page, MovedOn, Distinct;
    assert walk.standings[l].Lives(id) && walk.standings[n].Lives(id) && walk.standings[n + 1].Lives(id);
    SlipCrosses(walk, n, c, id);
    OnThePage(walk.standings[l], l, c, id);
    if l <= n {
      PlacesFall(walk, l, n, id);
      PagesGrow(l + 1, n + 1, c);
    } else {
      PlacesFall(walk, n + 1, l, id);
      PagesGrow(n + 1, l, c);
    }
  }

  lemma PagesGrow(a: nat, b: nat, c: nat)
    requires a <= b
    ensures Start(a, c) <= Start(b, c)
  {
  }

  /** The page a machine is on, looked for from one it is not before. */
  lemma ItsPage(walk: Walk, c: nat, id: string, from: nat) returns (n: nat)
    requires Complete(walk) && Chained(walk.standings) && Throughout(walk, id) && walk.rows == Some(c)
             && !Slipped(walk, id)
    requires from < |walk.standings| && walk.standings[from].Lives(id) && Start(from, c) <= PlaceAt(walk, from, id)
    ensures n < |walk.standings| && id in Ids(Page(walk.standings[n], n, walk.rows))
    decreases |walk.standings| - from
  {
    OnThePage(walk.standings[from], from, c, id);
    if PlaceAt(walk, from, id) < Start(from + 1, c) {
      n := from;
    } else {
      assert from + 1 < |walk.standings|;
      assert !SlipsAt(walk, from, id) && walk.standings[from + 1].Lives(id);
      assert MovedOn(walk.standings[from], walk.standings[from + 1]);
      MovesUp(walk.standings[from].Ids(), walk.standings[from + 1].Ids(), id);
      n := ItsPage(walk, c, id, from + 1);
    }
  }

  /** A slip needs a machine on a page already read to have ended, and its row to have been dropped before
      the next page was read. */
  lemma ASlipNeedsAnEnding(walk: Walk, n: nat, id: string)
    requires SlipsAt(walk, n, id) && Chained(walk.standings)
    ensures exists i :: 0 <= i < Start(n + 1, walk.rows.value) && i < |walk.standings[n].rows|
              && var gone := walk.standings[n].rows[i].id;
                 gone !in walk.standings[n + 1].Ids() && gone in walk.standings[n + 1].ended
  {
    var before, after := walk.standings[n].Ids(), walk.standings[n + 1].Ids();
    var read, ahead := Start(n + 1, walk.rows.value), IndexOf(before, id);
    assert MovedOn(walk.standings[n], walk.standings[n + 1]);
    if forall i :: 0 <= i < read ==> before[i] in after {
      assert before[..ahead] == before[..read] + before[read..ahead];
      RemainingJoins(before[..read], before[read..ahead], after);
      RemainingWhole(before[..read], after);
    }
    var i :| 0 <= i < read && before[i] !in after;
    assert before[i] == walk.standings[n].rows[i].id;
  }

  lemma {:induction false} RemainingWhole(ids: seq<string>, among: seq<string>)
    requires forall i :: 0 <= i < |ids| ==> ids[i] in among
    ensures Remaining(ids, among) == ids
  {
    if ids != [] {
      var n := |ids| - 1;
      RemainingWhole(ids[..n], among);
      assert ids == ids[..n] + [ids[n]];
    }
  }

  /** A listing that is one document misses nothing. */
  lemma OneDocumentMissesNothing(walk: Walk, id: string)
    requires walk.rows.None?
    ensures !Slipped(walk, id)
  {
  }

  // ---- What a listing shows ----

  lemma PageIsOfTheStanding(standing: Roster, n: nat, rows: Option<nat>)
    ensures forall m :: m in Page(standing, n, rows) ==> m in standing.rows && m.id !in standing.ended
  {
    hide Without;
    WithoutKeeps(PageRows(standing.rows, n, rows), standing.ended);
  }

  lemma {:induction false} ShownStood(walk: Walk, m: Machine)
    requires m in Listed(walk)
    ensures exists n: nat :: n < |walk.standings| && m in walk.standings[n].rows && m.id !in walk.standings[n].ended
    decreases |walk.standings|
  {
    var n := |walk.standings| - 1;
    var shorter := Walk(walk.rows, walk.standings[..n]);
    if m in Listed(shorter) {
      ShownStood(shorter, m);
      var l: nat :| l < n && m in shorter.standings[l].rows && m.id !in shorter.standings[l].ended;
      assert walk.standings[l] == shorter.standings[l];
    } else {
      PageIsOfTheStanding(walk.standings[n], n, walk.rows);
    }
  }

  /** No page repeats a machine of an earlier one: machines only move up. */
  lemma PagesDoNotRepeat(walk: Walk, n: nat, l: nat, id: string)
    requires Chained(walk.standings) && n < l < |walk.standings|
    requires id in Ids(Page(walk.standings[n], n, walk.rows))
    ensures id !in Ids(Page(walk.standings[l], l, walk.rows))
  {
    if walk.rows.Some? && id in Ids(Page(walk.standings[l], l, walk.rows)) {
      var c := walk.rows.value;
      OnThePage(walk.standings[n], n, c, id);
      OnThePage(walk.standings[l], l, c, id);
      PlacesFall(walk, n, l, id);
      PagesGrow(n + 1, l, c);
    }
  }

  lemma SliceIsDistinct(standing: Roster, n: nat, rows: Option<nat>)
    requires Distinct(standing.Ids())
    ensures DistinctMachines(Page(standing, n, rows))
  {
    RowsAreDistinct(standing, n, rows);
    WithoutKeeps(PageRows(standing.rows, n, rows), standing.ended);
  }

  lemma RowsAreDistinct(standing: Roster, n: nat, rows: Option<nat>)
    requires Distinct(standing.Ids())
    ensures DistinctMachines(PageRows(standing.rows, n, rows))
  {
    assert forall i :: 0 <= i < |standing.rows| ==> standing.Ids()[i] == standing.rows[i].id;
  }

  lemma DistinctJoins(a: seq<Machine>, b: seq<Machine>)
    requires DistinctMachines(a) && DistinctMachines(b) && forall id :: id in Ids(a) ==> id !in Ids(b)
    ensures DistinctMachines(a + b)
  {
    forall i, j | 0 <= i < j < |a + b|
      ensures (a + b)[i].id != (a + b)[j].id
    {
      if i < |a| <= j {
        assert a[i].id in Ids(a) && b[j - |a|].id in Ids(b);
      }
    }
  }

  /** A listing shows no machine twice, however the pages shift. */
  lemma {:induction false} ListedIsDistinct(walk: Walk)
    requires Chained(walk.standings)
    ensures DistinctMachines(Listed(walk))
    decreases |walk.standings|
  {
    hide Page, MovedOn, Distinct;
    if walk.standings != [] {
      var n := |walk.standings| - 1;
      var shorter := Walk(walk.rows, walk.standings[..n]);
      ListedIsDistinct(shorter);
      SliceIsDistinct(walk.standings[n], n, walk.rows);
      forall id | id in Ids(Listed(shorter))
        ensures id !in Ids(Page(walk.standings[n], n, walk.rows))
      {
        ListedIs(shorter, id);
        var l: nat :| l < n && id in Ids(Page(shorter.standings[l], l, walk.rows));
        PagesDoNotRepeat(walk, l, n, id);
      }
      DistinctJoins(Listed(shorter), Page(walk.standings[n], n, walk.rows));
    }
  }

  /** What the platform lists does not change while the pages are read. */
  ghost predicate Still(walk: Walk, standing: Roster) {
    forall n :: 0 <= n < |walk.standings| ==> walk.standings[n] == standing
  }

  lemma {:induction false} StillListing(walk: Walk, standing: Roster)
    requires Still(walk, standing) && walk.standings != []
    ensures Listed(walk) ==
            Without(if walk.rows.None? then standing.rows
                    else Slice(standing.rows, 0, Start(|walk.standings|, walk.rows.value)), standing.ended)
    decreases |walk.standings|
  {
    hide Slice, Without;
    var n := |walk.standings| - 1;
    var shorter := Walk(walk.rows, walk.standings[..n]);
    assert walk.standings[n] == standing;
    if n > 0 {
      assert Still(shorter, standing) by {
        assert forall l :: 0 <= l < n ==> shorter.standings[l] == walk.standings[l];
      }
      StillListing(shorter, standing);
    } else {
      NothingSliced(standing.rows, standing.ended);
    }
    match walk.rows
    case None =>
      if n > 0 { NothingIsLeft(standing.ended); }
    case Some(c) =>
      PagesGrow(n, n + 1, c);
      SlicesJoin(standing.rows, Start(n, c), Start(n + 1, c));
      WithoutJoins(Slice(standing.rows, 0, Start(n, c)), Slice(standing.rows, Start(n, c), Start(n + 1, c)),
                   standing.ended);
  }

  lemma NothingIsLeft(gone: set<string>)
    ensures Without([], gone) == []
  {
  }

  lemma NothingSliced(machines: seq<Machine>, gone: set<string>)
    ensures Without(Slice(machines, 0, 0), gone) == []
  {
  }

  lemma SlicesJoin(machines: seq<Machine>, from: nat, to: nat)
    requires from <= to
    ensures Slice(machines, 0, from) + Slice(machines, from, to) == Slice(machines, 0, to)
  {
  }

  /** Undisturbed, a complete listing is the machines that live. */
  lemma UndisturbedIsWhole(walk: Walk, standing: Roster)
    requires Still(walk, standing) && Complete(walk)
    ensures Listed(walk) == Without(standing.rows, standing.ended)
  {
    StillListing(walk, standing);
    assert walk.standings[|walk.standings| - 1] == standing;
    if walk.rows.Some? {
      assert Slice(standing.rows, 0, Start(|walk.standings|, walk.rows.value)) == standing.rows;
    }
  }

  // ---- How an order moves on ----

  function Less(ids: seq<string>, id: string): (r: seq<string>)
    ensures forall x :: x in r <==> x in ids && x != id
  {
    if ids == [] then []
    else
      var n := |ids| - 1;
      Less(ids[..n], id) + if ids[n] == id then [] else [ids[n]]
  }

  lemma {:induction false} LessJoins(a: seq<string>, b: seq<string>, id: string)
    ensures Less(a + b, id) == Less(a, id) + Less(b, id)
  {
    if b == [] {
      assert a + b == a;
    } else {
      var n := |b| - 1;
      assert (a + b)[..|a + b| - 1] == a + b[..n];
      LessJoins(a, b[..n], id);
    }
  }

  lemma {:induction false} RemainingOfLess(ids: seq<string>, among: seq<string>, id: string)
    ensures Remaining(ids, Less(among, id)) == Less(Remaining(ids, among), id)
  {
    if ids != [] {
      var n := |ids| - 1;
      RemainingOfLess(ids[..n], among, id);
      LessJoins(Remaining(ids[..n], among), if ids[n] in among then [ids[n]] else [], id);
      assert Less([ids[n]], id) == if ids[n] == id then [] else [ids[n]] by { assert [ids[n]][..0] == []; }
    }
  }

  lemma FollowsItself(ids: seq<string>)
    ensures Follows(ids, ids)
  {
    RemainingWhole(ids, ids);
  }

  lemma {:induction false} RemainingWithOneMore(ids: seq<string>, among: seq<string>, id: string)
    requires id !in ids
    ensures Remaining(ids, among + [id]) == Remaining(ids, among)
  {
    if ids != [] {
      RemainingWithOneMore(ids[..|ids| - 1], among, id);
    }
  }

  lemma FollowsAdding(earlier: seq<string>, later: seq<string>, id: string)
    requires Follows(earlier, later) && id !in earlier
    ensures Follows(earlier, later + [id])
  {
    RemainingWithOneMore(earlier, later, id);
  }

  lemma FollowsEnding(earlier: seq<string>, later: seq<string>, id: string)
    requires Follows(earlier, later)
    ensures Follows(earlier, Less(later, id))
  {
    hide Remaining, Less;
    var kept := Remaining(earlier, later);
    RemainingOfLess(earlier, later, id);
    assert later == kept + later[|kept|..];
    LessJoins(kept, later[|kept|..], id);
  }

  lemma {:induction false} OrderOfWithout(machines: seq<Machine>, id: string)
    ensures Order(Without(machines, {id})) == Less(Order(machines), id)
  {
    if machines != [] {
      var order := Order(machines);
      OrderOfWithout(machines[1..], id);
      assert order == [order[0]] + Order(machines[1..]);
      LessJoins([order[0]], Order(machines[1..]), id);
      assert [order[0]][..0] == [];
    }
  }
}
