/** What a sweep meets in a world where nothing fails and nobody else acts, told from the world it begins in. */
module Foresight {
  import opened Wrappers
  import opened Lease
  import opened Records
  import opened Fleets
  import opened Sweep
  import opened Lifecycle
  import opened SweepRun

  /** A listed machine, with the gate of its id and a release command that exits zero if there is one. */
  function Met(m: Machine, ledger: seq<LedgerRow>, template: seq<string>): Seen {
    Seen(m, GateOf(Some(ledger), m.id), if template == [] then NotMade(NoCommand) else Succeeded)
  }

  function AllMet(machines: seq<Machine>, ledger: seq<LedgerRow>, template: seq<string>): seq<Seen> {
    seq(|machines|, i requires 0 <= i < |machines| => Met(machines[i], ledger, template))
  }

  function PlaneMet(w: World, s: State, name: string): Plane {
    match w.Reply(s, name)
    case Err(why) => Unread(name, why)
    case Ok(machines) => Taken(name, AllMet(machines, s.ledger, w.fleets[name]))
  }

  function PlanesMet(w: World, s: State, names: seq<string>): seq<Plane> {
    seq(|names|, i requires 0 <= i < |names| => PlaneMet(w, s, names[i]))
  }

  /** The release a recorded row is met with. */
  function CallMet(row: Row, fleets: map<string, seq<string>>, keys: set<string>): Call {
    if row.provider !in fleets then NotMade(UnknownProvider)
    else if row.provider !in keys then NotMade(CredentialMissing)
    else if row.release == [] then NotMade(NoCommand)
    else Succeeded
  }

  function RowMet(row: Row, ledger: seq<LedgerRow>, fleets: map<string, seq<string>>, keys: set<string>): Case {
    Case(row, GateOf(Some(ledger), row.id), CallMet(row, fleets, keys))
  }

  function RowsMet(w: World, s: State, rows: seq<Row>): seq<Case> {
    seq(|rows|, i requires 0 <= i < |rows| => RowMet(rows[i], s.ledger, w.fleets, w.keys))
  }

  /** The report a sweep makes of a world where nothing fails. */
  function ReportMet(w: World, s: State, names: seq<string>, dryRun: bool): SweepOutcome {
    Report(PlanesMet(w, s, names), RowsMet(w, s, Outstanding(s.record)), dryRun, s.clock)
  }

  /** Every machine of the platforms that a sweep would find due, by its stamp or by its row, has a release
      command this host can run. */
  predicate EveryDueIsReachable(w: World, s: State, names: seq<string>) {
    var planes := PlanesMet(w, s, names);
    && (forall p, m :: p in names && w.CanList(s, p) && m in s.platforms.On(p)
                       && StandingOf(m, s.clock) == Standing.Expired && GateOf(Some(s.ledger), m.id) == Clear ==>
          w.fleets[p] != [])
    && (forall row :: row in Outstanding(s.record)
                      && Place(row, HandledBy(planes, s.clock), ListedBy(planes)) == Judge
                      && DueOf(row, s.clock, GateOf(Some(s.ledger), row.id)) == Due.Expired ==>
          CallMet(row, w.fleets, w.keys) == Succeeded)
  }

  /** In such a world a rehearsal foretells the sweep exactly when every due machine can be reached. */
  lemma RehearsalForetells(w: World, s: State, names: seq<string>)
    ensures var dry, acted := ReportMet(w, s, names, true), ReportMet(w, s, names, false);
            && (acted == dry.(dryRun := false) <==> EveryDueIsReachable(w, s, names))
            && acted.expired == dry.expired && acted.refused == dry.refused && acted.unknown == dry.unknown
            && |acted.released| + |acted.failed| == |dry.released| + |dry.failed|
  {
    hide Report, Outstanding, HandledBy, ListedBy, Place, DueOf, GateOf, StandingOf;
    var planes, rows := PlanesMet(w, s, names), Outstanding(s.record);
    var cases := RowsMet(w, s, rows);
    DryRunForecasts(planes, cases, s.clock);
    assert (forall i :: 0 <= i < |planes| ==> PlaneCallsSucceed(planes[i], s.clock))
      <==> forall p, m :: p in names && w.CanList(s, p) && m in s.platforms.On(p)
                          && StandingOf(m, s.clock) == Standing.Expired && GateOf(Some(s.ledger), m.id) == Clear ==>
             w.fleets[p] != [] by {
      PlanesReachable(w, s, names);
    }
    RowsReachable(w, s, rows, HandledBy(planes, s.clock), ListedBy(planes));
  }

  lemma PlanesReachable(w: World, s: State, names: seq<string>)
    ensures var planes := PlanesMet(w, s, names);
            (forall i :: 0 <= i < |planes| ==> PlaneCallsSucceed(planes[i], s.clock))
            <==> forall p, m :: p in names && w.CanList(s, p) && m in s.platforms.On(p)
                                && StandingOf(m, s.clock) == Standing.Expired
                                   && GateOf(Some(s.ledger), m.id) == Clear ==>
                   w.fleets[p] != []
  {
    hide GateOf, StandingOf;
    var planes := PlanesMet(w, s, names);
    if forall i :: 0 <= i < |planes| ==> PlaneCallsSucceed(planes[i], s.clock) {
      forall p, m | p in names && w.CanList(s, p) && m in s.platforms.On(p)
                    && StandingOf(m, s.clock) == Standing.Expired && GateOf(Some(s.ledger), m.id) == Clear
        ensures w.fleets[p] != []
      {
        var i :| 0 <= i < |names| && names[i] == p;
        var j :| 0 <= j < |s.platforms.On(p)| && s.platforms.On(p)[j] == m;
        assert PlaneCallsSucceed(planes[i], s.clock);
        assert MachineCallSucceeds(planes[i].seen[j], s.clock);
      }
    }
    if forall p, m :: p in names && w.CanList(s, p) && m in s.platforms.On(p)
                      && StandingOf(m, s.clock) == Standing.Expired && GateOf(Some(s.ledger), m.id) == Clear ==>
         w.fleets[p] != []
    {
      forall i | 0 <= i < |planes|
        ensures PlaneCallsSucceed(planes[i], s.clock)
      {
        if planes[i].Taken? {
          forall j | 0 <= j < |planes[i].seen|
            ensures MachineCallSucceeds(planes[i].seen[j], s.clock)
          {
            assert s.platforms.On(names[i])[j] in s.platforms.On(names[i]);
          }
        }
      }
    }
  }

  lemma RowsReachable(w: World, s: State, rows: seq<Row>, handled: set<string>, listed: map<string, set<string>>)
    ensures var cases := RowsMet(w, s, rows);
            (forall i :: 0 <= i < |cases| ==> RowCallSucceeds(cases[i], handled, listed, s.clock))
            <==> forall row :: row in rows && Place(row, handled, listed) == Judge
                               && DueOf(row, s.clock, GateOf(Some(s.ledger), row.id)) == Due.Expired ==>
                   CallMet(row, w.fleets, w.keys) == Succeeded
  {
    hide Place, DueOf, GateOf;
    var cases := RowsMet(w, s, rows);
    if forall i :: 0 <= i < |cases| ==> RowCallSucceeds(cases[i], handled, listed, s.clock) {
      forall row | row in rows && Place(row, handled, listed) == Judge
                   && DueOf(row, s.clock, GateOf(Some(s.ledger), row.id)) == Due.Expired
        ensures CallMet(row, w.fleets, w.keys) == Succeeded
      {
        var i :| 0 <= i < |rows| && rows[i] == row;
        assert RowCallSucceeds(cases[i], handled, listed, s.clock);
      }
    }
  }

  // ---- Answers that read alike ----

  /** Two answers of one platform that list the same machines and lead to the same decisions. */
  predicate Alike(a: Plane, b: Plane, dryRun: bool, now: Timestamp) {
    && a.name == b.name && a.Taken? == b.Taken?
    && (a.Taken? ==> SameMachines(a.seen, b.seen))
    && PlaneEntries(a, dryRun, now) == PlaneEntries(b, dryRun, now)
  }

  predicate SameMachines(a: seq<Seen>, b: seq<Seen>) {
    |a| == |b| && forall i :: 0 <= i < |a| ==> a[i].machine == b[i].machine
  }

  lemma {:induction false} AlikeHalves(a: seq<Plane>, b: seq<Plane>, dryRun: bool, now: Timestamp)
    requires |a| == |b| && forall i :: 0 <= i < |a| ==> Alike(a[i], b[i], dryRun, now)
    ensures PlatformHalf(a, dryRun, now) == PlatformHalf(b, dryRun, now)
    ensures HandledBy(a, now) == HandledBy(b, now) && ListedBy(a) == ListedBy(b)
  {
    hide PlaneEntries, StandingOf;
    AlikePlaces(a, b, dryRun, now);
    AlikePlaces(b, a, dryRun, now);
    assert forall p :: p in TakenNames(a) ==> ListedOn(a, p) == ListedOn(b, p);
    hide Alike, HandledBy, ListedBy;
    if a != [] {
      var n := |a| - 1;
      AlikeHalves(a[..n], b[..n], dryRun, now);
      assert Alike(a[n], b[n], dryRun, now);
      SameDecisions(a[n], b[n], dryRun, now);
    }
  }

  lemma SameDecisions(a: Plane, b: Plane, dryRun: bool, now: Timestamp)
    requires Alike(a, b, dryRun, now)
    ensures PlaneEntries(a, dryRun, now) == PlaneEntries(b, dryRun, now)
  {
  }

  lemma AlikePlaces(a: seq<Plane>, b: seq<Plane>, dryRun: bool, now: Timestamp)
    requires |a| == |b| && forall i :: 0 <= i < |a| ==> Alike(a[i], b[i], dryRun, now)
    ensures TakenNames(a) <= TakenNames(b) && HandledBy(a, now) <= HandledBy(b, now)
    ensures forall p :: ListedOn(a, p) <= ListedOn(b, p)
  {
    hide PlaneEntries, StandingOf;
    forall plane, seen | plane in a && plane.Taken? && seen in plane.seen
      ensures exists other, same :: other in b && other.Taken? && other.name == plane.name
                                    && same in other.seen && same.machine == seen.machine
    {
      var i :| 0 <= i < |a| && a[i] == plane;
      var j :| 0 <= j < |plane.seen| && plane.seen[j] == seen;
      assert Alike(a[i], b[i], dryRun, now);
      assert b[i] in b && b[i].seen[j] in b[i].seen;
    }
    forall name | name in TakenNames(a)
      ensures name in TakenNames(b)
    {
      var plane :| plane in a && plane.Taken? && plane.name == name;
      var i :| 0 <= i < |a| && a[i] == plane;
      assert Alike(a[i], b[i], dryRun, now) && b[i] in b;
    }
  }

  /** Answers that read alike make one report. */
  lemma AlikeReports(a: seq<Plane>, b: seq<Plane>, cases: seq<Case>, others: seq<Case>, dryRun: bool, now: Timestamp)
    requires |a| == |b| && forall i :: 0 <= i < |a| ==> Alike(a[i], b[i], dryRun, now)
    requires |cases| == |others|
    requires forall j :: 0 <= j < |cases| ==>
               RowEntry(cases[j], HandledBy(a, now), ListedBy(a), dryRun, now)
               == RowEntry(others[j], HandledBy(a, now), ListedBy(a), dryRun, now)
    ensures Entries(a, cases, dryRun, now) == Entries(b, others, dryRun, now)
  {
    hide Alike, HandledBy, ListedBy, RowEntry, PlatformHalf;
    AlikeHalves(a, b, dryRun, now);
  }
}
