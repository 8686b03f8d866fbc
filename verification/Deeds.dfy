/** What the answers a report is made of say its sweep did: which listings it took, which gates it read and
    what they said, and which releases it ran, in order. */
module Deeds {
  import opened Wrappers
  import opened Text
  import opened Lease
  import opened Records
  import opened Fleets
  import opened Sweep
  import opened Lifecycle
  import opened SweepRun
  import opened Foresight

  // ---- One machine, one row ----

  /** A due id: its gate is read, and where that is clear and the sweep is not a dry run, its release follows,
      by the command given with the id put in. */
  function GateThenRelease(id: string, gate: Gate, command: seq<string>, call: Call, dryRun: bool): seq<Act> {
    [GateRead(id, gate)] + if gate == Clear && !dryRun then Ran(id, Substituted(command, id), call) else []
  }

  /** A listed machine is released by its platform's template. */
  function SeenDeeds(seen: Seen, template: seq<string>, dryRun: bool, now: Timestamp): seq<Act> {
    if StandingOf(seen.machine, now) == Standing.Expired then
      GateThenRelease(seen.machine.id, seen.gate, template, seen.call, dryRun)
    else []
  }

  /** The lease a row records is reached, so that its gate decides. */
  predicate Reached(row: Row, now: Timestamp) { row.expiresAt.Some? && row.expiresAt.value <= now }

  /** A recorded one is released by the command its row records. */
  function JudgedDeeds(c: Case, dryRun: bool, now: Timestamp): seq<Act> {
    if Reached(c.row, now) then GateThenRelease(c.row.id, c.gate, c.row.release, c.call, dryRun) else []
  }

  function CaseDeeds(c: Case, handled: set<string>, listed: map<string, set<string>>, dryRun: bool, now: Timestamp):
    seq<Act>
  {
    if Place(c.row, handled, listed) == Judge then JudgedDeeds(c, dryRun, now) else []
  }

  // ---- The halves ----

  function AllSeenDeeds(seen: seq<Seen>, template: seq<string>, dryRun: bool, now: Timestamp): seq<Act> {
    if seen == [] then []
    else AllSeenDeeds(seen[..|seen| - 1], template, dryRun, now) + SeenDeeds(seen[|seen| - 1], template, dryRun, now)
  }

  function PlaneDeeds(plane: Plane, fleets: map<string, seq<string>>, dryRun: bool, now: Timestamp): seq<Act> {
    match plane
    case Unread(name, _) => [ListingFailed(name)]
    case Taken(name, seen) =>
      var template := if name in fleets then fleets[name] else [];
      [ListingTaken(name, MachinesOf(seen))] + AllSeenDeeds(seen, template, dryRun, now)
  }

  function PlatformDeeds(planes: seq<Plane>, fleets: map<string, seq<string>>, dryRun: bool, now: Timestamp): seq<Act> {
    if planes == [] then []
    else
      var n := |planes| - 1;
      PlatformDeeds(planes[..n], fleets, dryRun, now) + PlaneDeeds(planes[n], fleets, dryRun, now)
  }

  function RecordDeeds(cases: seq<Case>, handled: set<string>, listed: map<string, set<string>>, dryRun: bool,
                       now: Timestamp): seq<Act> {
    if cases == [] then []
    else
      var n := |cases| - 1;
      RecordDeeds(cases[..n], handled, listed, dryRun, now) + CaseDeeds(cases[n], handled, listed, dryRun, now)
  }

  /** All of it, in the order it was done. */
  function DeedsFor(planes: seq<Plane>, cases: seq<Case>, fleets: map<string, seq<string>>, dryRun: bool,
                    now: Timestamp): seq<Act> {
    PlatformDeeds(planes, fleets, dryRun, now)
    + RecordDeeds(cases, HandledBy(planes, now), ListedBy(planes), dryRun, now)
  }

  lemma OneMoreSeen(seen: seq<Seen>, one: Seen, template: seq<string>, dryRun: bool, now: Timestamp)
    ensures AllSeenDeeds(seen + [one], template, dryRun, now) ==
            AllSeenDeeds(seen, template, dryRun, now) + SeenDeeds(one, template, dryRun, now)
  {
    assert (seen + [one])[..|seen|] == seen;
  }

  lemma OneMorePlane(planes: seq<Plane>, plane: Plane, fleets: map<string, seq<string>>, dryRun: bool, now: Timestamp)
    ensures PlatformDeeds(planes + [plane], fleets, dryRun, now) ==
            PlatformDeeds(planes, fleets, dryRun, now) + PlaneDeeds(plane, fleets, dryRun, now)
  {
    assert (planes + [plane])[..|planes|] == planes;
  }

  lemma OneMoreCase(cases: seq<Case>, c: Case, handled: set<string>, listed: map<string, set<string>>, dryRun: bool,
                    now: Timestamp)
    ensures RecordDeeds(cases + [c], handled, listed, dryRun, now) ==
            RecordDeeds(cases, handled, listed, dryRun, now) + CaseDeeds(c, handled, listed, dryRun, now)
  {
    assert (cases + [c])[..|cases|] == cases;
  }

  // ---- What this host decides without asking ----

  /** A release is not run exactly when there is no command to run. */
  predicate HonestSeen(seen: Seen, template: seq<string>, dryRun: bool, now: Timestamp) {
    StandingOf(seen.machine, now) == Standing.Expired && seen.gate == Clear && !dryRun ==>
      if template == [] then seen.call == NotMade(NoCommand) else !seen.call.NotMade?
  }

  /** And a recorded one, exactly when this host cannot run it, for the reason given. */
  predicate HonestJudged(c: Case, fleets: map<string, seq<string>>, keys: set<string>, dryRun: bool, now: Timestamp) {
    Reached(c.row, now) && c.gate == Clear && !dryRun ==>
      var met := CallMet(c.row, fleets, keys);
      if met.NotMade? then c.call == met else !c.call.NotMade?
  }

  predicate HonestCase(c: Case, handled: set<string>, listed: map<string, set<string>>,
                       fleets: map<string, seq<string>>, keys: set<string>, dryRun: bool, now: Timestamp) {
    Place(c.row, handled, listed) == Judge ==> HonestJudged(c, fleets, keys, dryRun, now)
  }

  /** A platform is refused unasked exactly when it is not known or its key is not held. */
  predicate HonestPlane(plane: Plane, fleets: map<string, seq<string>>, keys: set<string>, dryRun: bool,
                        now: Timestamp) {
    match plane
    case Unread(name, why) =>
      why == if name !in fleets then UnknownProvider else if name !in keys then CredentialMissing else CallFailed
    case Taken(name, seen) =>
      && name in fleets && name in keys
      && forall i :: 0 <= i < |seen| ==> HonestSeen(seen[i], fleets[name], dryRun, now)
  }

  predicate Honest(planes: seq<Plane>, cases: seq<Case>, fleets: map<string, seq<string>>, keys: set<string>,
                   dryRun: bool, now: Timestamp) {
    && (forall i :: 0 <= i < |planes| ==> HonestPlane(planes[i], fleets, keys, dryRun, now))
    && (forall i :: 0 <= i < |cases| ==>
          HonestCase(cases[i], HandledBy(planes, now), ListedBy(planes), fleets, keys, dryRun, now))
  }

  /** What that comes to, platform by platform, machine by machine and row by row. */
  lemma HonestMeans(planes: seq<Plane>, cases: seq<Case>, fleets: map<string, seq<string>>, keys: set<string>,
                    dryRun: bool, now: Timestamp, i: nat, j: nat, l: nat)
    requires Honest(planes, cases, fleets, keys, dryRun, now)
    ensures i < |planes| && planes[i].Unread? ==>
              planes[i].why == if planes[i].name !in fleets then UnknownProvider
                               else if planes[i].name !in keys then CredentialMissing
                               else CallFailed
    ensures i < |planes| && planes[i].Taken? ==> planes[i].name in fleets && planes[i].name in keys
    ensures i < |planes| && planes[i].Taken? && j < |planes[i].seen| && !dryRun ==>
              var seen := planes[i].seen[j];
              StandingOf(seen.machine, now) == Standing.Expired && seen.gate == Clear ==>
                (seen.call.NotMade? <==> fleets[planes[i].name] == [])
    ensures l < |cases| && !dryRun && Place(cases[l].row, HandledBy(planes, now), ListedBy(planes)) == Judge ==>
              var c := cases[l];
              c.row.expiresAt.Some? && c.row.expiresAt.value <= now && c.gate == Clear ==>
                (c.call.NotMade? <==> c.row.provider !in fleets || c.row.provider !in keys || c.row.release == [])
  {
    hide HandledBy, ListedBy, StandingOf, Place;
    assert i < |planes| ==> HonestPlane(planes[i], fleets, keys, dryRun, now);
    assert l < |cases| ==> HonestCase(cases[l], HandledBy(planes, now), ListedBy(planes), fleets, keys, dryRun, now);
  }

  // ---- The deeds and the decisions tell one story ----

  /** The releases among some deeds. */
  function Releases(deeds: seq<Act>): seq<Called> {
    if deeds == [] then []
    else Releases(deeds[..|deeds| - 1]) + CallIn(deeds[|deeds| - 1])
  }

  lemma {:induction false} ReleasesJoin(a: seq<Act>, b: seq<Act>)
    ensures Releases(a + b) == Releases(a) + Releases(b)
  {
    if b == [] {
      assert a + b == a;
    } else {
      var n := |b| - 1;
      assert (a + b)[..|a + b| - 1] == a + b[..n];
      ReleasesJoin(a, b[..n]);
    }
  }

  lemma DueReleases(id: string, gate: Gate, command: seq<string>, call: Call, dryRun: bool)
    ensures Releases(GateThenRelease(id, gate, command, call, dryRun)) ==
            if gate == Clear then CallOf(ReleaseEntry(id, dryRun, call)) else []
  {
    var ran := if gate == Clear && !dryRun then Ran(id, Substituted(command, id), call) else [];
    ReleasesJoin([GateRead(id, gate)], ran);
    assert [GateRead(id, gate)][..0] == [];
    assert ran != [] ==> ran[..0] == [];
  }

  lemma SeenReleases(seen: Seen, template: seq<string>, dryRun: bool, now: Timestamp)
    ensures Releases(SeenDeeds(seen, template, dryRun, now)) == CallOf(MachineEntry(seen, dryRun, now))
  {
    hide StandingOf;
    DueReleases(seen.machine.id, seen.gate, template, seen.call, dryRun);
    hide GateThenRelease;
  }

  lemma NothingReleased()
    ensures Releases([]) == []
  {
  }

  lemma CaseReleases(c: Case, handled: set<string>, listed: map<string, set<string>>, dryRun: bool, now: Timestamp)
    ensures Releases(CaseDeeds(c, handled, listed, dryRun, now)) == CallOf(RowEntry(c, handled, listed, dryRun, now))
  {
    hide Place;
    DueReleases(c.row.id, c.gate, c.row.release, c.call, dryRun);
    hide GateThenRelease, Releases, Ran;
    assert Releases([]) == [] by { NothingReleased(); }
  }

  lemma LastSeen(name: string, seen: seq<Seen>, one: Seen, dryRun: bool, now: Timestamp)
    ensures CallsIn(PlaneEntries(Taken(name, seen + [one]), dryRun, now)) ==
            CallsIn(PlaneEntries(Taken(name, seen), dryRun, now)) + CallOf(MachineEntry(one, dryRun, now))
  {
    hide MachineEntry, Select;
    var before, e := PlaneEntries(Taken(name, seen), dryRun, now), MachineEntry(one, dryRun, now);
    assert PlaneEntries(Taken(name, seen + [one]), dryRun, now) == before + [e];
    SelectLast(before, e, CALL_MADE);
  }

  lemma {:induction false} AllSeenReleases(name: string, seen: seq<Seen>, template: seq<string>, dryRun: bool,
                                           now: Timestamp)
    ensures Releases(AllSeenDeeds(seen, template, dryRun, now)) == CallsIn(PlaneEntries(Taken(name, seen), dryRun, now))
  {
    hide SeenDeeds, MachineEntry;
    if seen != [] {
      hide Releases, Select, PlaneEntries, AllSeenDeeds;
      var before, one := seen[..|seen| - 1], seen[|seen| - 1];
      AllSeenReleases(name, before, template, dryRun, now);
      SeenReleases(one, template, dryRun, now);
      ReleasesJoin(AllSeenDeeds(before, template, dryRun, now), SeenDeeds(one, template, dryRun, now));
      OneMoreSeen(before, one, template, dryRun, now);
      LastSeen(name, before, one, dryRun, now);
      assert before + [one] == seen;
    }
  }

  lemma NoRelease(act: Act)
    requires !act.ReleaseCalled?
    ensures Releases([act]) == []
  {
    assert [act][..0] == [];
  }

  lemma UnreadReleasesNothing(name: string, why: Reason, dryRun: bool, now: Timestamp)
    ensures CallsIn(PlaneEntries(Unread(name, why), dryRun, now)) == []
  {
    var e := Entry(name, Verdict.Failed(why), false, false);
    SelectLast([], e, CALL_MADE);
    assert [] + [e] == [e];
  }

  lemma PlaneReleases(plane: Plane, fleets: map<string, seq<string>>, dryRun: bool, now: Timestamp)
    ensures Releases(PlaneDeeds(plane, fleets, dryRun, now)) == CallsIn(PlaneEntries(plane, dryRun, now))
  {
    hide AllSeenDeeds, PlaneEntries, Select, Releases;
    match plane
    case Unread(name, why) =>
      NoRelease(ListingFailed(name));
      UnreadReleasesNothing(name, why, dryRun, now);
    case Taken(name, seen) =>
      var taken := ListingTaken(name, MachinesOf(seen));
      var template := if name in fleets then fleets[name] else [];
      AllSeenReleases(name, seen, template, dryRun, now);
      ReleasesJoin([taken], AllSeenDeeds(seen, template, dryRun, now));
      NoRelease(taken);
  }

  lemma {:induction false} PlatformReleases(planes: seq<Plane>, fleets: map<string, seq<string>>, dryRun: bool,
                                            now: Timestamp)
    ensures Releases(PlatformDeeds(planes, fleets, dryRun, now)) == CallsIn(PlatformHalf(planes, dryRun, now))
  {
    hide PlaneDeeds, PlaneEntries;
    if planes != [] {
      var n := |planes| - 1;
      PlatformReleases(planes[..n], fleets, dryRun, now);
      PlaneReleases(planes[n], fleets, dryRun, now);
      ReleasesJoin(PlatformDeeds(planes[..n], fleets, dryRun, now), PlaneDeeds(planes[n], fleets, dryRun, now));
      SelectJoins(PlatformHalf(planes[..n], dryRun, now), PlaneEntries(planes[n], dryRun, now), CALL_MADE);
    }
  }

  lemma LastCase(cases: seq<Case>, c: Case, handled: set<string>, listed: map<string, set<string>>, dryRun: bool,
                 now: Timestamp)
    ensures CallsIn(RecordHalf(cases + [c], handled, listed, dryRun, now)) ==
            CallsIn(RecordHalf(cases, handled, listed, dryRun, now)) + CallOf(RowEntry(c, handled, listed, dryRun, now))
  {
    hide RowEntry, Select;
    var before, e := RecordHalf(cases, handled, listed, dryRun, now), RowEntry(c, handled, listed, dryRun, now);
    assert RecordHalf(cases + [c], handled, listed, dryRun, now) == before + [e];
    SelectLast(before, e, CALL_MADE);
  }

  lemma NoCases(handled: set<string>, listed: map<string, set<string>>, dryRun: bool, now: Timestamp)
    ensures Releases(RecordDeeds([], handled, listed, dryRun, now)) == []
    ensures CallsIn(RecordHalf([], handled, listed, dryRun, now)) == []
  {
    hide CaseDeeds, RowEntry;
  }

  lemma {:induction false} RecordReleases(cases: seq<Case>, handled: set<string>, listed: map<string, set<string>>,
                                          dryRun: bool, now: Timestamp)
    ensures Releases(RecordDeeds(cases, handled, listed, dryRun, now)) ==
            CallsIn(RecordHalf(cases, handled, listed, dryRun, now))
  {
    hide CaseDeeds, RowEntry, Releases, CallsIn, RecordHalf, RecordDeeds;
    if cases == [] {
      NoCases(handled, listed, dryRun, now);
    } else {
      var before, c := cases[..|cases| - 1], cases[|cases| - 1];
      RecordReleases(before, handled, listed, dryRun, now);
      CaseReleases(c, handled, listed, dryRun, now);
      ReleasesJoin(RecordDeeds(before, handled, listed, dryRun, now), CaseDeeds(c, handled, listed, dryRun, now));
      OneMoreCase(before, c, handled, listed, dryRun, now);
      LastCase(before, c, handled, listed, dryRun, now);
      assert before + [c] == cases;
    }
  }

  /** The releases a sweep's deeds hold are those its decisions tell of, in the same order. */
  lemma DeedsReleaseWhatIsReported(planes: seq<Plane>, cases: seq<Case>, fleets: map<string, seq<string>>, dryRun: bool,
                                   now: Timestamp)
    ensures Releases(DeedsFor(planes, cases, fleets, dryRun, now)) == CallsIn(Entries(planes, cases, dryRun, now))
  {
    hide PlatformDeeds, RecordDeeds, PlatformHalf, RecordHalf, HandledBy, ListedBy;
    var handled, listed := HandledBy(planes, now), ListedBy(planes);
    PlatformReleases(planes, fleets, dryRun, now);
    RecordReleases(cases, handled, listed, dryRun, now);
    ReleasesJoin(PlatformDeeds(planes, fleets, dryRun, now), RecordDeeds(cases, handled, listed, dryRun, now));
    SelectJoins(PlatformHalf(planes, dryRun, now), RecordHalf(cases, handled, listed, dryRun, now), CALL_MADE);
  }

  // ---- Every refusal was read off a gate ----

  lemma {:induction false} SeenIsDone(seen: seq<Seen>, i: nat, template: seq<string>, dryRun: bool, now: Timestamp)
    requires i < |seen|
    ensures forall act :: act in SeenDeeds(seen[i], template, dryRun, now) ==>
              act in AllSeenDeeds(seen, template, dryRun, now)
  {
    hide SeenDeeds;
    var n := |seen| - 1;
    if i < n {
      SeenIsDone(seen[..n], i, template, dryRun, now);
    }
  }

  lemma {:induction false} PlaneIsDone(planes: seq<Plane>, i: nat, fleets: map<string, seq<string>>, dryRun: bool,
                                       now: Timestamp)
    requires i < |planes|
    ensures forall act :: act in PlaneDeeds(planes[i], fleets, dryRun, now) ==>
              act in PlatformDeeds(planes, fleets, dryRun, now)
  {
    hide PlaneDeeds;
    var n := |planes| - 1;
    if i < n {
      PlaneIsDone(planes[..n], i, fleets, dryRun, now);
    }
  }

  lemma {:induction false} CaseIsDone(cases: seq<Case>, i: nat, handled: set<string>, listed: map<string, set<string>>,
                                      dryRun: bool, now: Timestamp)
    requires i < |cases|
    ensures forall act :: act in CaseDeeds(cases[i], handled, listed, dryRun, now) ==>
              act in RecordDeeds(cases, handled, listed, dryRun, now)
  {
    hide CaseDeeds;
    var n := |cases| - 1;
    if i < n {
      CaseIsDone(cases[..n], i, handled, listed, dryRun, now);
    }
  }

  lemma PlaneRefusalWasRead(plane: Plane, fleets: map<string, seq<string>>, dryRun: bool, now: Timestamp, e: Entry)
    requires e in PlaneEntries(plane, dryRun, now) && e.verdict.Refused?
    ensures GateRead(e.id, Holding(e.verdict.reason)) in PlaneDeeds(plane, fleets, dryRun, now)
  {
    hide StandingOf, AllSeenDeeds;
    var i :| 0 <= i < |PlaneEntries(plane, dryRun, now)| && PlaneEntries(plane, dryRun, now)[i] == e;
    var template := if plane.name in fleets then fleets[plane.name] else [];
    assert GateRead(e.id, Holding(e.verdict.reason)) in SeenDeeds(plane.seen[i], template, dryRun, now);
    SeenIsDone(plane.seen, i, template, dryRun, now);
  }

  lemma RowRefusalWasRead(c: Case, handled: set<string>, listed: map<string, set<string>>, dryRun: bool, now: Timestamp)
    requires RowEntry(c, handled, listed, dryRun, now).verdict.Refused?
    ensures var e := RowEntry(c, handled, listed, dryRun, now);
            GateRead(e.id, Holding(e.verdict.reason)) in CaseDeeds(c, handled, listed, dryRun, now)
  {
    hide Place;
  }

  lemma RefusalWasRead(planes: seq<Plane>, cases: seq<Case>, fleets: map<string, seq<string>>, dryRun: bool,
                       now: Timestamp, e: Entry)
    requires e in Entries(planes, cases, dryRun, now) && e.verdict.Refused?
    ensures GateRead(e.id, Holding(e.verdict.reason)) in DeedsFor(planes, cases, fleets, dryRun, now)
  {
    hide PlaneEntries, PlaneDeeds, RowEntry, CaseDeeds, PlatformHalf, PlatformDeeds, RecordDeeds, HandledBy, ListedBy;
    var handled, listed := HandledBy(planes, now), ListedBy(planes);
    if e in PlatformHalf(planes, dryRun, now) {
      PlatformHalfHas(planes, dryRun, now, e);
      var plane :| plane in planes && e in PlaneEntries(plane, dryRun, now);
      var i :| 0 <= i < |planes| && planes[i] == plane;
      PlaneRefusalWasRead(plane, fleets, dryRun, now, e);
      PlaneIsDone(planes, i, fleets, dryRun, now);
    } else {
      var rows := RecordHalf(cases, handled, listed, dryRun, now);
      var i :| 0 <= i < |rows| && rows[i] == e;
      RowRefusalWasRead(cases[i], handled, listed, dryRun, now);
      CaseIsDone(cases, i, handled, listed, dryRun, now);
    }
  }

  lemma {:induction false} SelectedFrom<T>(entries: seq<Entry>, f: Entry -> Option<T>, x: T)
    requires x in Select(entries, f)
    ensures exists e :: e in entries && f(e) == Some(x)
  {
    var n := |entries| - 1;
    if x in Select(entries[..n], f) {
      SelectedFrom(entries[..n], f, x);
    } else {
      assert entries[n] in entries;
    }
  }

  /** What is reported as refused was refused by a gate the sweep read, in the words reported. */
  lemma EveryRefusalWasRead(planes: seq<Plane>, cases: seq<Case>, fleets: map<string, seq<string>>, dryRun: bool,
                            now: Timestamp)
    ensures forall r :: r in Report(planes, cases, dryRun, now).refused ==>
              GateRead(r.0, Holding(r.1)) in DeedsFor(planes, cases, fleets, dryRun, now)
  {
    hide Entries, DeedsFor, Select;
    forall r | r in Report(planes, cases, dryRun, now).refused
      ensures GateRead(r.0, Holding(r.1)) in DeedsFor(planes, cases, fleets, dryRun, now)
    {
      SelectedFrom(Entries(planes, cases, dryRun, now), REFUSED_PAIR, r);
      var e :| e in Entries(planes, cases, dryRun, now) && REFUSED_PAIR(e) == Some(r);
      RefusalWasRead(planes, cases, fleets, dryRun, now, e);
    }
  }
}
