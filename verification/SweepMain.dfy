/** The sweep command whole: the platform half, then the record half, then the report. */
module SweepMain {
  import opened Wrappers
  import opened Text
  import opened Lease
  import opened Records
  import opened Fleets
  import opened Sweep
  import opened Lifecycle
  import opened SweepRun
  import opened Foresight
  import opened Deeds
  import opened SweepCommand
  import opened Provenance

  function Members(names: seq<string>): set<string> {
    set name | name in names
  }

  // ---- How a quiet world moves while a sweep works ----

  /** Machines only leave the platforms, and those that leave are the ones this sweep freed. */
  ghost predicate Onward(s: State, a: Agent, s': State, a': Agent) {
    && Beside(s, s') && OnlyCalled(a, a') && a.freed <= a'.freed
    && s'.platforms.created == s.platforms.created
    && (forall p, m :: m in s'.platforms.On(p) ==> m in s.platforms.On(p))
    && (forall p, m :: m in s.platforms.On(p) ==> m in s'.platforms.On(p) || m.id in a'.freed)
    && SameRows(s, s')
  }

  /** Every platform lists the rows it listed. */
  predicate SameRows(s: State, s': State) { s'.platforms.fleet == s.platforms.fleet }

  /** What is outstanding was outstanding at the start, and is not a machine this sweep freed. */
  ghost predicate Tidy(s: State, a: Agent) {
    forall row :: row in Outstanding(s.record) ==> row in a.rows && row.id !in a.freed
  }

  /** A platform runs only what it listed, and what it listed and no longer runs was freed. */
  ghost predicate Kept(s: State, a: Agent, p: string) {
    && p in a.listed
    && (forall m :: m in s.platforms.On(p) ==> m in a.listed[p])
    && (forall m :: m in a.listed[p] ==> m in s.platforms.On(p) || m.id in a.freed)
  }

  ghost predicate NoneWaits(s: State, p: string, now: Timestamp, fleets: map<string, seq<string>>) {
    p in fleets && forall m :: m in s.platforms.On(p) ==> !MachineWaits(m, now, s.ledger, fleets[p])
  }

  lemma OnwardTwice(s: State, a: Agent, s': State, a': Agent, s'': State, a'': Agent)
    requires Onward(s, a, s', a') && Onward(s', a', s'', a'')
    ensures Onward(s, a, s'', a'')
  {
  }

  lemma KeptOnward(s: State, a: Agent, s': State, a': Agent, p: string)
    requires Onward(s, a, s', a')
    ensures Kept(s, a, p) ==> Kept(s', a', p)
    ensures forall now, fleets :: NoneWaits(s, p, now, fleets) ==> NoneWaits(s', p, now, fleets)
  {
    hide MachineWaits;
  }

  lemma LeftAloneIsOnward(s: State, s': State, k: nat)
    requires k in s.sweeps && k in s'.sweeps && LeftAlone(s, s', k) && Beside(s, s')
    requires OnlyCalled(s.sweeps[k], s'.sweeps[k])
    ensures Onward(s, s.sweeps[k], s', s'.sweeps[k])
    ensures Tidy(s, s.sweeps[k]) ==> Tidy(s', s'.sweeps[k])
  {
    hide Outstanding;
  }

  lemma EndingIsOnward(s: State, s': State, a: Agent, a': Agent, id: string)
    requires s.platforms.Sound() && id in s.platforms.created && Beside(s, s') && OnlyCalled(a, a')
    requires s'.platforms == s.platforms.Ending(id) && a'.freed == a.freed + {id}
    ensures Onward(s, a, s', a')
    ensures id !in Ids(s'.platforms.On(s.platforms.created[id]))
    ensures forall p, m :: m in s'.platforms.On(p) ==> m.id != id
  {
    forall p
      ensures forall m :: m in s'.platforms.On(p) <==> m in s.platforms.On(p) && m.id != id
    {
      RunsThere(s.platforms, p);
      RunsThere(s'.platforms, p);
    }
  }

  lemma EndingElsewhere(w: Platforms, id: string)
    requires w.Sound() && id in w.created
    ensures forall p :: p != w.created[id] ==> w.Ending(id).On(p) == w.On(p)
  {
    forall p | p != w.created[id]
      ensures w.Ending(id).On(p) == w.On(p)
    {
      WithoutAnother(w.RowsOf(p), w.ended, id);
    }
  }

  lemma ReleasedIsOnward(s: State, s': State, k: nat, id: string)
    requires k in s.sweeps && k in s'.sweeps && id in s.platforms.created && s.platforms.Sound()
    requires WasReleased(s, s', k, id, s.sweeps[k].rows) && Beside(s, s') && OnlyCalled(s.sweeps[k], s'.sweeps[k])
    ensures Onward(s, s.sweeps[k], s', s'.sweeps[k])
    ensures forall p, m :: m in s'.platforms.On(p) ==> m.id != id
    ensures Tidy(s, s.sweeps[k]) ==> Tidy(s', s'.sweeps[k])
  {
    hide Outstanding;
    EndingIsOnward(s, s', s.sweeps[k], s'.sweeps[k], id);
    if Tidy(s, s.sweeps[k]) {
      var row := FirstNaming(s.sweeps[k].rows, id);
      forall r | r in Outstanding(s'.record)
        ensures r in s.sweeps[k].rows && r.id !in s'.sweeps[k].freed
      {
        if row.Some? {
          CorrectionRetires(s.record, Correction(row.value, s.clock), r);
        } else {
          assert s'.record == s.record;
        }
      }
    }
  }

  // ---- The platform half ----

  /** What has been reported and called after the first machines of a listing. */
  ghost predicate PlaneTallied(machines: seq<Machine>, seen: seq<Seen>, name: string, dryRun: bool, now: Timestamp,
                               before: seq<Entry>, handled: set<string>, calls: seq<Called>,
                               outcome': SweepOutcome, handled': set<string>, calls': seq<Called>) {
    var entries := PlaneEntries(Taken(name, seen), dryRun, now);
    && MachinesOf(seen) == machines
    && outcome' == Tally(before + entries, dryRun)
    && handled' == handled + HandledBy([Taken(name, seen)], now)
    && calls' == calls + CallsIn(entries)
  }

  lemma NothingTallied(name: string, dryRun: bool, now: Timestamp, before: seq<Entry>, handled: set<string>,
                       calls: seq<Called>)
    ensures PlaneTallied([], [], name, dryRun, now, before, handled, calls, Tally(before, dryRun), handled, calls)
  {
    hide StandingOf;
    assert before + PlaneEntries(Taken(name, []), dryRun, now) == before;
    assert calls + [] == calls;
  }

  lemma OneMoreTallied(machines: seq<Machine>, seen: seq<Seen>, name: string, dryRun: bool, now: Timestamp,
                       before: seq<Entry>, handled: set<string>, calls: seq<Called>,
                       outcome': SweepOutcome, handled': set<string>, calls': seq<Called>, one: Seen)
    requires PlaneTallied(machines, seen, name, dryRun, now, before, handled, calls, outcome', handled', calls')
    ensures var e := MachineEntry(one, dryRun, now);
            PlaneTallied(machines + [one.machine], seen + [one], name, dryRun, now, before, handled, calls,
                         Noted(outcome', e),
                         if StandingOf(one.machine, now) == Unknown then handled' else handled' + {one.machine.id},
                         calls' + CallOf(e))
  {
    hide StandingOf, MachineEntry, Tally, Noted, Select;
    var entries, e := PlaneEntries(Taken(name, seen), dryRun, now), MachineEntry(one, dryRun, now);
    assert PlaneEntries(Taken(name, seen + [one]), dryRun, now) == entries + [e];
    assert before + entries + [e] == before + (entries + [e]);
    TallyNotes(before + entries, e, dryRun);
    SelectLast(entries, e, CALL_MADE);
    HandledOneMore(name, seen, one, now);
  }

  lemma HandledOneMore(name: string, seen: seq<Seen>, one: Seen, now: Timestamp)
    ensures HandledBy([Taken(name, seen + [one])], now) ==
            HandledBy([Taken(name, seen)], now)
            + if StandingOf(one.machine, now) == Unknown then {} else {one.machine.id}
  {
    hide StandingOf;
    var longer := Taken(name, seen + [one]);
    assert longer in [longer] && Taken(name, seen) in [Taken(name, seen)];
    assert forall x :: x in longer.seen <==> x in seen || x == one;
  }

  /** Of the machines given, none that is still there waits. */
  ghost predicate NoneLeft(s: State, name: string, machines: seq<Machine>, now: Timestamp, template: seq<string>) {
    forall m :: m in machines && m in s.platforms.On(name) ==> !MachineWaits(m, now, s.ledger, template)
  }

  /** Only this platform has changed. */
  ghost predicate Elsewhere(s: State, s': State, name: string) {
    forall p :: p != name ==> s'.platforms.On(p) == s.platforms.On(p)
  }

  /** What a quiet world has become after the first machines of a listing, and what was decided of them. */
  ghost predicate PlaneQuiet(s0: State, s: State, k: nat, machines: seq<Machine>, seen: seq<Seen>, name: string,
                             dryRun: bool, now: Timestamp, template: seq<string>)
    requires k in s0.sweeps && k in s.sweeps
  {
    && Onward(s0, s0.sweeps[k], s, s.sweeps[k]) && Elsewhere(s0, s, name)
    && (Tidy(s0, s0.sweeps[k]) ==> Tidy(s, s.sweeps[k]))
    && (!dryRun ==> NoneLeft(s, name, machines, now, template))
    && AsMet(machines, seen, s0.ledger, dryRun, now, template)
  }

  /** Each machine was decided as it is in a world where nothing fails. */
  predicate AsMet(machines: seq<Machine>, seen: seq<Seen>, ledger: seq<LedgerRow>, dryRun: bool, now: Timestamp,
                  template: seq<string>) {
    |seen| == |machines| && forall i :: 0 <= i < |seen| ==>
      MachineEntry(seen[i], dryRun, now) == MachineEntry(Met(machines[i], ledger, template), dryRun, now)
  }

  lemma OneMoreQuiet(s0: State, s: State, s': State, k: nat, machines: seq<Machine>, m: Machine, seen: seq<Seen>,
                     one: Seen, name: string, dryRun: bool, now: Timestamp, template: seq<string>)
    requires k in s0.sweeps && k in s.sweeps && k in s'.sweeps && Sound(s)
    requires m.id in s.platforms.created && s.platforms.created[m.id] == name
    requires PlaneQuiet(s0, s, k, machines, seen, name, dryRun, now, template)
    requires OnlyCalled(s.sweeps[k], s'.sweeps[k]) && Beside(s, s')
    requires MachineEntry(one, dryRun, now) == MachineEntry(Met(m, s.ledger, template), dryRun, now)
    requires if !dryRun && MachineWaits(m, now, s.ledger, template) then WasReleased(s, s', k, m.id, s.sweeps[k].rows)
             else LeftAlone(s, s', k)
    ensures PlaneQuiet(s0, s', k, machines + [m], seen + [one], name, dryRun, now, template)
  {
    hide Tidy, AgentSound, RowSound, RowsRead, MachineWaits, MachineEntry, Met, LostAreReturned, Without;
    if !dryRun && MachineWaits(m, now, s.ledger, template) {
      ReleasedIsOnward(s, s', k, m.id);
      EndingElsewhere(s.platforms, m.id);
    } else {
      LeftAloneIsOnward(s, s', k);
    }
    OnwardTwice(s0, s0.sweeps[k], s, s.sweeps[k], s', s'.sweeps[k]);
    hide Onward;
  }

  lemma NothingQuiet(s: State, k: nat, name: string, dryRun: bool, now: Timestamp, template: seq<string>)
    requires k in s.sweeps
    ensures PlaneQuiet(s, s, k, [], [], name, dryRun, now, template)
  {
  }

  /** What has been done about the first machines of a listing. */
  ghost predicate SeenDone(seen: seq<Seen>, template: seq<string>, dryRun: bool, now: Timestamp, deeds: seq<Act>,
                           deeds': seq<Act>) {
    && deeds' == deeds + AllSeenDeeds(seen, template, dryRun, now)
    && forall i :: 0 <= i < |seen| ==> HonestSeen(seen[i], template, dryRun, now)
  }

  lemma NothingDone(template: seq<string>, dryRun: bool, now: Timestamp, deeds: seq<Act>)
    ensures SeenDone([], template, dryRun, now, deeds, deeds)
  {
    assert deeds + [] == deeds;
  }

  lemma OneMoreDone(seen: seq<Seen>, one: Seen, template: seq<string>, dryRun: bool, now: Timestamp, deeds: seq<Act>,
                    deeds': seq<Act>)
    requires SeenDone(seen, template, dryRun, now, deeds, deeds') && HonestSeen(one, template, dryRun, now)
    ensures SeenDone(seen + [one], template, dryRun, now, deeds, deeds' + SeenDeeds(one, template, dryRun, now))
  {
    hide HonestSeen, SeenDeeds;
    OneMoreSeen(seen, one, template, dryRun, now);
    var more := SeenDeeds(one, template, dryRun, now);
    assert deeds + AllSeenDeeds(seen, template, dryRun, now) + more
           == deeds + (AllSeenDeeds(seen, template, dryRun, now) + more);
  }

  /** The machines of one listing, in order. */
  method SettlePlane(w: World, k: nat, name: string, machines: seq<Machine>, dryRun: bool, now: Timestamp,
                     outstanding: seq<Row>, outcome: SweepOutcome, handled: set<string>, ghost before: seq<Entry>)
    returns (outcome': SweepOutcome, handled': set<string>, present: set<string>, ghost seen: seq<Seen>)
    requires w.Valid() && k in w.s.sweeps && name in w.fleets
    requires var a := w.s.sweeps[k];
             && a.dryRun == dryRun && a.now == now && a.rows == outstanding && a.templates == w.fleets
             && name in a.listed && a.listed[name] == machines
    requires outcome == Tally(before, dryRun)
    modifies w
    ensures w.Valid() && old(w.log) <= w.log
    ensures k in w.s.sweeps && OnlyCalled(old(w.s).sweeps[k], w.s.sweeps[k])
    ensures PlaneTallied(machines, seen, name, dryRun, now, before, handled, old(CallsOf(w.log, k)),
                         outcome', handled', CallsOf(w.log, k))
    ensures SeenDone(seen, w.fleets[name], dryRun, now, old(DeedsOf(w.log, k)), DeedsOf(w.log, k))
    ensures present == Ids(machines)
    ensures w.Quiet() ==> Beside(old(w.s), w.s)
    ensures w.Quiet() ==> PlaneQuiet(old(w.s), w.s, k, machines, seen, name, dryRun, now, w.fleets[name])
    ensures w.Quiet()
              && (dryRun || forall m :: m in machines ==> !MachineWaits(m, now, old(w.s).ledger, w.fleets[name])) ==>
              LeftAlone(old(w.s), w.s, k) && CallsOf(w.log, k) == old(CallsOf(w.log, k))
  {
    hide Replay, IsRun, Sound, CallsOf, DeedsOf, StandingOf, MachineEntry, Tally, Noted, WasReleased, MachineWaits,
         PlaneTallied, PlaneQuiet, SeenDone, SeenDeeds, HonestSeen;
    outcome', handled', present, seen := outcome, handled, {}, [];
    NothingTallied(name, dryRun, now, before, handled, CallsOf(w.log, k));
    NothingQuiet(w.s, k, name, dryRun, now, w.fleets[name]);
    NothingDone(w.fleets[name], dryRun, now, DeedsOf(w.log, k));
    ghost var nothingWaits := dryRun || forall m :: m in machines ==> !MachineWaits(m, now, w.s.ledger, w.fleets[name]);
    var j := 0;
    assert machines[..0] == [];
    while j < |machines|
      invariant 0 <= j <= |machines|
      invariant w.Valid() && old(w.log) <= w.log
      invariant k in w.s.sweeps && OnlyCalled(old(w.s).sweeps[k], w.s.sweeps[k])
      invariant PlaneTallied(machines[..j], seen, name, dryRun, now, before, handled, old(CallsOf(w.log, k)),
                             outcome', handled', CallsOf(w.log, k))
      invariant SeenDone(seen, w.fleets[name], dryRun, now, old(DeedsOf(w.log, k)), DeedsOf(w.log, k))
      invariant present == Ids(machines[..j])
      invariant w.Quiet() ==>
                  && Beside(old(w.s), w.s)
                  && PlaneQuiet(old(w.s), w.s, k, machines[..j], seen, name, dryRun, now, w.fleets[name])
      invariant w.Quiet() && nothingWaits ==> LeftAlone(old(w.s), w.s, k) && CallsOf(w.log, k) == old(CallsOf(w.log, k))
    {
      ghost var s1, calls, deeds := w.s, CallsOf(w.log, k), DeedsOf(w.log, k);
      var m := machines[j];
      assert machines[..j + 1] == machines[..j] + [m];
      present := present + {m.id};
      ghost var one, outcome1, handled1 := Seen(m, Clear, Succeeded), outcome', handled';
      outcome', handled', one := SettleMachine(w, k, name, m, dryRun, now, outstanding, outcome', handled');
      OneMoreTallied(machines[..j], seen, name, dryRun, now, before, handled, old(CallsOf(w.log, k)),
                     outcome1, handled1, calls, one);
      OneMoreDone(seen, one, w.fleets[name], dryRun, now, old(DeedsOf(w.log, k)), deeds);
      MachineEntryNames(one, dryRun, now);
      if w.Quiet() {
        OneMoreQuiet(old(w.s), s1, w.s, k, machines[..j], m, seen, one, name, dryRun, now, w.fleets[name]);
      }
      j := j + 1;
      seen := seen + [one];
    }
    assert machines[..j] == machines;
  }

  lemma MachineEntryNames(seen: Seen, dryRun: bool, now: Timestamp)
    ensures MachineEntry(seen, dryRun, now).id == seen.machine.id
  {
    hide StandingOf;
  }

  /** What the platform half has reported, called and settled so far. */
  ghost predicate HalfTallied(planes: seq<Plane>, a: Agent, calls: seq<Called>, outcome: SweepOutcome,
                              handled: set<string>, listed: map<string, set<string>>, calls': seq<Called>) {
    var entries := PlatformHalf(planes, a.dryRun, a.now);
    && Reflects(planes, a)
    && outcome == Tally(entries, a.dryRun)
    && handled == HandledBy(planes, a.now) && listed == ListedBy(planes)
    && calls' == calls + CallsIn(entries)
  }

  lemma HalfTalliedNothing(a: Agent, calls: seq<Called>)
    requires a.listed == map[]
    ensures HalfTallied([], a, calls, SweepOutcome(a.dryRun, 0, [], [], [], []), {}, map[], calls)
  {
    hide StandingOf;
    assert calls + [] == calls;
  }

  lemma PlatformHalfGrows(planes: seq<Plane>, plane: Plane, dryRun: bool, now: Timestamp)
    ensures PlatformHalf(planes + [plane], dryRun, now)
            == PlatformHalf(planes, dryRun, now) + PlaneEntries(plane, dryRun, now)
    ensures HandledBy(planes + [plane], now) == HandledBy(planes, now) + HandledBy([plane], now)
    ensures TakenNames(planes + [plane]) == TakenNames(planes) + if plane.Taken? then {plane.name} else {}
  {
    hide StandingOf, PlaneEntries;
    var longer := planes + [plane];
    assert longer[..|longer| - 1] == planes;
    assert forall x :: x in longer <==> x in planes || x == plane;
    assert plane in [plane];
  }

  lemma ListedGrows(planes: seq<Plane>, plane: Plane)
    requires plane.Taken? && plane.name !in TakenNames(planes)
    ensures ListedBy(planes + [plane]) == ListedBy(planes)[plane.name := Ids(MachinesOf(plane.seen))]
  {
    var longer := planes + [plane];
    assert forall x :: x in longer <==> x in planes || x == plane;
    forall id
      ensures id in ListedOn(longer, plane.name) <==> id in Ids(MachinesOf(plane.seen))
    {
      var machines := MachinesOf(plane.seen);
      if seen :| seen in plane.seen && seen.machine.id == id {
        var i :| 0 <= i < |plane.seen| && plane.seen[i] == seen;
        assert machines[i].id == id && machines[i] in machines;
      }
      if m :| m in machines && m.id == id {
        var i :| 0 <= i < |machines| && machines[i] == m;
        assert plane.seen[i] in plane.seen;
      }
    }
    forall p | p in TakenNames(planes)
      ensures ListedOn(longer, p) == ListedOn(planes, p)
    {
    }
    assert TakenNames(longer) == TakenNames(planes) + {plane.name};
    assert ListedOn(longer, plane.name) == Ids(MachinesOf(plane.seen));
  }

  lemma UnreadGrows(planes: seq<Plane>, name: string, why: Reason)
    ensures ListedBy(planes + [Unread(name, why)]) == ListedBy(planes)
  {
    var longer := planes + [Unread(name, why)];
    assert forall x :: x in longer <==> x in planes || x == Unread(name, why);
    forall p
      ensures ListedOn(longer, p) == ListedOn(planes, p)
    {
    }
  }

  lemma HalfTalliedUnread(planes: seq<Plane>, a: Agent, a': Agent, calls: seq<Called>, outcome: SweepOutcome,
                          handled: set<string>, listed: map<string, set<string>>, calls': seq<Called>,
                          name: string, why: Reason)
    requires HalfTallied(planes, a, calls, outcome, handled, listed, calls')
    requires a' == a.(asked := a'.asked, walks := a'.walks)
    ensures HalfTallied(planes + [Unread(name, why)], a', calls,
                        outcome.(failed := outcome.failed + [(name, why)]), handled, listed, calls')
  {
    hide StandingOf, Tally, Select, PlatformHalf, ListedBy, TakenNames;
    var plane := Unread(name, why);
    var e := Entry(name, Verdict.Failed(why), false, false);
    PlatformHalfGrows(planes, plane, a.dryRun, a.now);
    UnreadGrows(planes, name, why);
    TallyNotes(PlatformHalf(planes, a.dryRun, a.now), e, a.dryRun);
    SelectLast(PlatformHalf(planes, a.dryRun, a.now), e, CALL_MADE);
    assert HandledBy([plane], a.now) == {};
    assert forall x :: x in planes + [plane] <==> x in planes || x == plane;
    assert calls' + [] == calls';
  }

  lemma HalfTalliedTaken(planes: seq<Plane>, a: Agent, a': Agent, calls: seq<Called>, outcome: SweepOutcome,
                         handled: set<string>, listed: map<string, set<string>>, calls': seq<Called>,
                         name: string, seen: seq<Seen>, outcome': SweepOutcome, handled': set<string>,
                         calls'': seq<Called>)
    requires HalfTallied(planes, a, calls, outcome, handled, listed, calls') && name !in a.listed
    requires OnlyCalled(a.(asked := a'.asked, walks := a'.walks, listed := a.listed[name := MachinesOf(seen)]), a')
    requires PlaneTallied(MachinesOf(seen), seen, name, a.dryRun, a.now, PlatformHalf(planes, a.dryRun, a.now), handled,
                          calls', outcome', handled', calls'')
    ensures HalfTallied(planes + [Taken(name, seen)], a', calls, outcome', handled',
                        listed[name := Ids(MachinesOf(seen))], calls'')
  {
    hide StandingOf, Tally, Select, PlatformHalf, PlaneEntries, MachinesOf, HandledBy, ListedBy, TakenNames;
    var plane := Taken(name, seen);
    PlatformHalfGrows(planes, plane, a.dryRun, a.now);
    ListedGrows(planes, plane);
    var before, here := PlatformHalf(planes, a.dryRun, a.now), PlaneEntries(plane, a.dryRun, a.now);
    SelectJoins(before, here, CALL_MADE);
    assert calls + CallsIn(before) + CallsIn(here) == calls + (CallsIn(before) + CallsIn(here));
    assert forall x :: x in planes + [plane] <==> x in planes || x == plane;
    NamedPlanesAreTaken(planes);
  }

  lemma NamedPlanesAreTaken(planes: seq<Plane>)
    ensures forall plane :: plane in planes && plane.Taken? ==> plane.name in TakenNames(planes)
  {
  }

  /** What a quiet world has become after the platforms asked so far. */
  ghost predicate HalfQuiet(s: State, a: Agent, asked: seq<string>, fleets: map<string, seq<string>>) {
    && Tidy(s, a)
    && forall i :: 0 <= i < |asked| ==> Kept(s, a, asked[i]) && (!a.dryRun ==> NoneWaits(s, asked[i], a.now, fleets))
  }

  lemma HalfQuietMore(s: State, a: Agent, s1: State, a1: Agent, s': State, k: nat, asked: seq<string>, name: string,
                      machines: seq<Machine>, seen: seq<Seen>, fleets: map<string, seq<string>>)
    requires k in s1.sweeps && k in s'.sweeps && s1.sweeps[k] == a1 && name in fleets
    requires HalfQuiet(s, a, asked, fleets) && name !in a.listed
    requires Beside(s, s1) && s1.platforms == s.platforms && s1.record == s.record
    requires a1 == a.(asked := a1.asked, walks := a1.walks, listed := a.listed[name := machines])
             && machines == s1.platforms.On(name)
    requires PlaneQuiet(s1, s', k, machines, seen, name, a.dryRun, a.now, fleets[name])
    ensures HalfQuiet(s', s'.sweeps[k], asked + [name], fleets)
  {
    hide MachineWaits, Outstanding, AsMet;
    var a' := s'.sweeps[k];
    assert Tidy(s1, a1);
    forall i | 0 <= i < |asked|
      ensures Kept(s', a', asked[i]) && (!a'.dryRun ==> NoneWaits(s', asked[i], a'.now, fleets))
    {
      assert Kept(s1, a1, asked[i]);
      KeptOnward(s1, a1, s', a', asked[i]);
    }
    assert Kept(s1, a1, name);
    KeptOnward(s1, a1, s', a', name);
  }

  /** A quiet sweep of these platforms would release nothing it lists. */
  ghost predicate PlatformsIdle(s: State, names: seq<string>, now: Timestamp, fleets: map<string, seq<string>>) {
    forall i :: 0 <= i < |names| ==> NoneWaits(s, names[i], now, fleets)
  }

  lemma HalfTalliedOutcome(planes: seq<Plane>, a: Agent, calls: seq<Called>, outcome: SweepOutcome,
                           handled: set<string>, listed: map<string, set<string>>, calls': seq<Called>)
    requires HalfTallied(planes, a, calls, outcome, handled, listed, calls')
    ensures outcome == Tally(PlatformHalf(planes, a.dryRun, a.now), a.dryRun)
  {
  }

  lemma SeenMachines(machines: seq<Machine>, seen: seq<Seen>, name: string, dryRun: bool, now: Timestamp,
                     before: seq<Entry>, handled: set<string>, calls: seq<Called>,
                     outcome': SweepOutcome, handled': set<string>, calls': seq<Called>)
    requires PlaneTallied(machines, seen, name, dryRun, now, before, handled, calls, outcome', handled', calls')
    ensures MachinesOf(seen) == machines
  {
  }

  lemma UnreadIsDone(name: string, why: Reason, fleets: map<string, seq<string>>, keys: set<string>, dryRun: bool,
                     now: Timestamp)
    requires name !in fleets <==> why == UnknownProvider
    requires name in fleets && name !in keys <==> why == CredentialMissing
    requires name in fleets && name in keys ==> why == CallFailed
    ensures PlaneDeeds(Unread(name, why), fleets, dryRun, now) == [ListingFailed(name)]
    ensures HonestPlane(Unread(name, why), fleets, keys, dryRun, now)
  {
  }

  lemma TakenIsDone(name: string, machines: seq<Machine>, seen: seq<Seen>, fleets: map<string, seq<string>>,
                    keys: set<string>, dryRun: bool, now: Timestamp, deeds: seq<Act>, deeds': seq<Act>,
                    deeds'': seq<Act>)
    requires name in fleets && name in keys && MachinesOf(seen) == machines
    requires deeds' == deeds + [ListingTaken(name, machines)]
    requires SeenDone(seen, fleets[name], dryRun, now, deeds', deeds'')
    ensures deeds'' == deeds + PlaneDeeds(Taken(name, seen), fleets, dryRun, now)
    ensures HonestPlane(Taken(name, seen), fleets, keys, dryRun, now)
  {
    hide HonestSeen, AllSeenDeeds, MachinesOf;
  }

  /** One platform asked, and what it answered settled. */
  method SettlePlatform(w: World, k: nat, name: string, dryRun: bool, now: Timestamp, outstanding: seq<Row>,
                        outcome: SweepOutcome, handled: set<string>, listed: map<string, set<string>>,
                        ghost planes: seq<Plane>, ghost base: seq<Called>)
    returns (outcome': SweepOutcome, handled': set<string>, listed': map<string, set<string>>, ghost plane: Plane)
    requires w.Valid() && k in w.s.sweeps
    requires var a := w.s.sweeps[k];
             && a.dryRun == dryRun && a.now == now && a.rows == outstanding && a.templates == w.fleets
             && name in a.providers && name !in a.asked && a.listed.Keys <= a.asked && a.walks.Keys <= a.asked
    requires HalfTallied(planes, w.s.sweeps[k], base, outcome, handled, listed, CallsOf(w.log, k))
    modifies w
    ensures w.Valid() && old(w.log) <= w.log && k in w.s.sweeps
    ensures var a, a' := old(w.s).sweeps[k], w.s.sweeps[k];
            && a'.dryRun == dryRun && a'.now == now && a'.rows == outstanding && a'.providers == a.providers
            && a'.templates == a.templates
            && a'.asked == a.asked + {name} && a'.listed.Keys <= a'.asked && a'.walks.Keys <= a'.asked
    ensures plane.name == name
    ensures HalfTallied(planes + [plane], w.s.sweeps[k], base, outcome', handled', listed', CallsOf(w.log, k))
    ensures DeedsOf(w.log, k) == old(DeedsOf(w.log, k)) + PlaneDeeds(plane, w.fleets, dryRun, now)
    ensures HonestPlane(plane, w.fleets, w.keys, dryRun, now)
    ensures w.Quiet() ==> Beside(old(w.s), w.s) && SameRows(old(w.s), w.s)
    ensures w.Quiet() && w.CanList(old(w.s), name) ==>
              forall asked :: HalfQuiet(old(w.s), old(w.s).sweeps[k], asked, w.fleets) ==>
                HalfQuiet(w.s, w.s.sweeps[k], asked + [name], w.fleets)
    ensures w.Quiet() ==> Elsewhere(old(w.s), w.s, name) && Alike(plane, PlaneMet(w, old(w.s), name), dryRun, now)
    ensures w.Quiet() && (dryRun || NoneWaits(old(w.s), name, now, w.fleets)) ==>
              LeftAlone(old(w.s), w.s, k) && CallsOf(w.log, k) == old(CallsOf(w.log, k))
  {
    hide Replay, IsRun, Sound, CallsOf, DeedsOf, Tally, PlaneTallied, PlaneQuiet, HalfTallied, MachineWaits, HalfQuiet,
         SeenDone, PlaneDeeds, HonestPlane;
    outcome', handled', listed' := outcome, handled, listed;
    ghost var a0, calls, deeds := w.s.sweeps[k], CallsOf(w.log, k), DeedsOf(w.log, k);
    var answer := w.Listing(k, name);
    ghost var s1, listing := w.s, DeedsOf(w.log, k);
    match answer {
      case Err(why) =>
        plane := Unread(name, why);
        UnreadIsDone(name, why, w.fleets, w.keys, dryRun, now);
        HalfTalliedUnread(planes, a0, w.s.sweeps[k], base, outcome, handled, listed, calls, name, why);
        outcome' := outcome.(failed := outcome.failed + [(name, why)]);
      case Ok(machines) =>
        HalfTalliedOutcome(planes, a0, base, outcome, handled, listed, calls);
        ghost var before, seen := PlatformHalf(planes, dryRun, now), [];
        var present;
        outcome', handled', present, seen :=
          SettlePlane(w, k, name, machines, dryRun, now, outstanding, outcome, handled, before);
        plane := Taken(name, seen);
        SeenMachines(machines, seen, name, dryRun, now, before, handled, calls, outcome', handled', CallsOf(w.log, k));
        TakenIsDone(name, machines, seen, w.fleets, w.keys, dryRun, now, deeds, listing, DeedsOf(w.log, k));
        HalfTalliedTaken(planes, a0, w.s.sweeps[k], base, outcome, handled, listed, calls,
                         name, seen, outcome', handled', CallsOf(w.log, k));
        listed' := listed[name := present];
        if w.Quiet() {
          QuietPlanesKeepTheirRows(s1, w.s, k, machines, seen, name, dryRun, now, w.fleets[name]);
          MetAlike(s1, name, machines, seen, dryRun, now, w.fleets[name]);
          forall asked | HalfQuiet(old(w.s), a0, asked, w.fleets)
            ensures HalfQuiet(w.s, w.s.sweeps[k], asked + [name], w.fleets)
          {
            HalfQuietMore(old(w.s), a0, s1, s1.sweeps[k], w.s, k, asked, name, machines, seen, w.fleets);
          }
        }
    }
  }

  /** What a quiet world has become after the first platforms, what they answered, and what the sweep
      has called. */
  ghost predicate PlanesQuiet(w: World, s0: State, s: State, k: nat, asked: seq<string>, all: seq<string>,
                              planes: seq<Plane>, now: Timestamp, calls0: seq<Called>, calls: seq<Called>)
    requires k in s0.sweeps && k in s.sweeps
  {
    && Beside(s0, s) && SameRows(s0, s) && (forall p :: p !in asked ==> s.platforms.On(p) == s0.platforms.On(p))
    && PlanesAsMet(w, s0, asked, planes, s0.sweeps[k].dryRun, now)
    && (Usable(w, s0, all) && Tidy(s0, s0.sweeps[k]) ==> HalfQuiet(s, s.sweeps[k], asked, w.fleets))
    && (s0.sweeps[k].dryRun || PlatformsIdle(s0, all, now, w.fleets) ==> LeftAlone(s0, s, k) && calls == calls0)
  }

  predicate PlanesAsMet(w: World, s: State, asked: seq<string>, planes: seq<Plane>, dryRun: bool, now: Timestamp) {
    |planes| == |asked| && forall i :: 0 <= i < |planes| ==> Alike(planes[i], PlaneMet(w, s, asked[i]), dryRun, now)
  }

  lemma NoPlanesQuiet(w: World, s: State, k: nat, all: seq<string>, now: Timestamp, calls: seq<Called>)
    requires k in s.sweeps
    ensures PlanesQuiet(w, s, s, k, [], all, [], now, calls, calls)
  {
    hide Tidy;
    NoFurther(s);
    if Tidy(s, s.sweeps[k]) {
      HalfQuietNothing(s, s.sweeps[k], w.fleets);
    }
  }

  lemma OneMorePlaneQuiet(w: World, s0: State, s: State, s': State, k: nat, asked: seq<string>, all: seq<string>,
                          planes: seq<Plane>, name: string, plane: Plane, now: Timestamp, calls0: seq<Called>,
                          calls: seq<Called>, calls': seq<Called>)
    requires k in s0.sweeps && k in s.sweeps && k in s'.sweeps && name in all && name !in asked
    requires PlanesQuiet(w, s0, s, k, asked, all, planes, now, calls0, calls)
    requires Beside(s, s') && SameRows(s, s') && Elsewhere(s, s', name)
    requires Alike(plane, PlaneMet(w, s, name), s0.sweeps[k].dryRun, now)
    requires w.CanList(s, name) && HalfQuiet(s, s.sweeps[k], asked, w.fleets) ==>
               HalfQuiet(s', s'.sweeps[k], asked + [name], w.fleets)
    requires s0.sweeps[k].dryRun || NoneWaits(s, name, now, w.fleets) ==> LeftAlone(s, s', k) && calls' == calls
    ensures PlanesQuiet(w, s0, s', k, asked + [name], all, planes + [plane], now, calls0, calls')
  {
    hide HalfQuiet, Tidy, NoneWaits, SameRows, Alike;
    Further(s0, s, s');
    ListableStays(w, s0, s, name);
    MetAsBefore(w, s0, s, name);
    if PlatformsIdle(s0, all, now, w.fleets) {
      IdleStays(s0, s, k, name, now, w.fleets);
    }
    hide PlatformsIdle, Usable, PlaneMet;
  }

  lemma MetAsBefore(w: World, s: State, s': State, name: string)
    requires s'.platforms.On(name) == s.platforms.On(name) && SameRows(s, s') && s'.ledger == s.ledger
    ensures PlaneMet(w, s', name) == PlaneMet(w, s, name)
  {
  }

  /** What the platform half has done. */
  ghost predicate HalfDone(planes: seq<Plane>, fleets: map<string, seq<string>>, keys: set<string>, dryRun: bool,
                           now: Timestamp, deeds: seq<Act>, deeds': seq<Act>) {
    && deeds' == deeds + PlatformDeeds(planes, fleets, dryRun, now)
    && forall i :: 0 <= i < |planes| ==> HonestPlane(planes[i], fleets, keys, dryRun, now)
  }

  lemma NoHalfDone(fleets: map<string, seq<string>>, keys: set<string>, dryRun: bool, now: Timestamp, deeds: seq<Act>)
    ensures HalfDone([], fleets, keys, dryRun, now, deeds, deeds)
  {
    assert deeds + [] == deeds;
  }

  lemma OneMorePlaneDone(planes: seq<Plane>, plane: Plane, fleets: map<string, seq<string>>, keys: set<string>,
                         dryRun: bool, now: Timestamp, deeds: seq<Act>, deeds': seq<Act>)
    requires HalfDone(planes, fleets, keys, dryRun, now, deeds, deeds') && HonestPlane(plane, fleets, keys, dryRun, now)
    ensures HalfDone(planes + [plane], fleets, keys, dryRun, now, deeds,
                     deeds' + PlaneDeeds(plane, fleets, dryRun, now))
  {
    hide HonestPlane, PlaneDeeds;
    OneMorePlane(planes, plane, fleets, dryRun, now);
    var before, more := PlatformDeeds(planes, fleets, dryRun, now), PlaneDeeds(plane, fleets, dryRun, now);
    assert deeds + before + more == deeds + (before + more);
  }

  /** The platform half: a listing of each name in turn, and every machine of it settled. */
  method RunPlatformHalf(w: World, k: nat, names: seq<string>, dryRun: bool, now: Timestamp, outstanding: seq<Row>)
    returns (outcome: SweepOutcome, handled: set<string>, listed: map<string, set<string>>, ghost planes: seq<Plane>)
    requires w.Valid() && k in w.s.sweeps
    requires w.s.sweeps[k] == Agent(dryRun, now, Members(names), w.fleets, outstanding, {}, map[], map[], {}, {})
    requires forall i, j :: 0 <= i < j < |names| ==> names[i] != names[j]
    modifies w
    ensures w.Valid() && old(w.log) <= w.log && k in w.s.sweeps
    ensures var a := w.s.sweeps[k];
            && a.dryRun == dryRun && a.now == now && a.rows == outstanding
            && a.asked == a.providers == Members(names)
    ensures |planes| == |names| && forall i :: 0 <= i < |names| ==> planes[i].name == names[i]
    ensures HalfTallied(planes, w.s.sweeps[k], old(CallsOf(w.log, k)), outcome, handled, listed, CallsOf(w.log, k))
    ensures HalfDone(planes, w.fleets, w.keys, dryRun, now, old(DeedsOf(w.log, k)), DeedsOf(w.log, k))
    ensures w.Quiet() ==>
              PlanesQuiet(w, old(w.s), w.s, k, names, names, planes, now, old(CallsOf(w.log, k)), CallsOf(w.log, k))
  {
    hide Alike, PlaneMet, Elsewhere, Replay, IsRun, Sound, CallsOf, DeedsOf, HalfTallied, HalfQuiet, Members, NoneWaits,
         PlanesQuiet, Beside, SameRows, LeftAlone, HalfDone, PlaneDeeds, HonestPlane;
    outcome, handled, listed, planes := SweepOutcome(dryRun, 0, [], [], [], []), {}, map[], [];
    HalfTalliedNothing(w.s.sweeps[k], CallsOf(w.log, k));
    NoPlanesQuiet(w, w.s, k, names, now, CallsOf(w.log, k));
    NoHalfDone(w.fleets, w.keys, dryRun, now, DeedsOf(w.log, k));
    var i := 0;
    assert names[..0] == [] && Members([]) == {} by { NoMembers(); }
    while i < |names|
      invariant 0 <= i <= |names| && |planes| == i && (forall j :: 0 <= j < i ==> planes[j].name == names[j])
      invariant w.Valid() && old(w.log) <= w.log && k in w.s.sweeps
      invariant var a := w.s.sweeps[k];
                && a.dryRun == dryRun && a.now == now && a.rows == outstanding && a.templates == w.fleets
                && a.providers == Members(names)
                && a.asked == Members(names[..i]) && a.listed.Keys <= a.asked && a.walks.Keys <= a.asked
      invariant HalfTallied(planes, w.s.sweeps[k], old(CallsOf(w.log, k)), outcome, handled, listed, CallsOf(w.log, k))
      invariant HalfDone(planes, w.fleets, w.keys, dryRun, now, old(DeedsOf(w.log, k)), DeedsOf(w.log, k))
      invariant w.Quiet() ==>
                  PlanesQuiet(w, old(w.s), w.s, k, names[..i], names, planes, now, old(CallsOf(w.log, k)),
                              CallsOf(w.log, k))
    {
      var name := names[i];
      ghost var s1, calls, deeds := w.s, CallsOf(w.log, k), DeedsOf(w.log, k);
      OneMoreMember(names, i);
      ghost var plane;
      outcome, handled, listed, plane := SettlePlatform(w, k, name, dryRun, now, outstanding, outcome, handled, listed,
                                                        planes, old(CallsOf(w.log, k)));
      OneMorePlaneDone(planes, plane, w.fleets, w.keys, dryRun, now, old(DeedsOf(w.log, k)), deeds);
      if w.Quiet() {
        OneMorePlaneQuiet(w, old(w.s), s1, w.s, k, names[..i], names, planes, name, plane, now, old(CallsOf(w.log, k)),
                          calls, CallsOf(w.log, k));
      }
      planes := planes + [plane];
      i := i + 1;
    }
    assert names[..i] == names;
  }

  lemma QuietPlanesKeepTheirRows(s0: State, s: State, k: nat, machines: seq<Machine>, seen: seq<Seen>, name: string,
                          dryRun: bool, now: Timestamp, template: seq<string>)
    requires k in s0.sweeps && k in s.sweeps && PlaneQuiet(s0, s, k, machines, seen, name, dryRun, now, template)
    ensures SameRows(s0, s) && Elsewhere(s0, s, name)
    ensures AsMet(machines, seen, s0.ledger, dryRun, now, template)
  {
    hide Tidy, NoneLeft;
  }

  lemma MetAlike(s: State, name: string, machines: seq<Machine>, seen: seq<Seen>, dryRun: bool, now: Timestamp,
                 template: seq<string>)
    requires MachinesOf(seen) == machines && AsMet(machines, seen, s.ledger, dryRun, now, template)
    ensures Alike(Taken(name, seen), Taken(name, AllMet(machines, s.ledger, template)), dryRun, now)
  {
    hide MachineEntry, GateOf;
    assert forall i :: 0 <= i < |seen| ==> MachinesOf(seen)[i] == seen[i].machine;
  }

  lemma Further(s: State, s1: State, s2: State)
    requires Beside(s, s1) && SameRows(s, s1) && Beside(s1, s2) && SameRows(s1, s2)
    ensures Beside(s, s2) && SameRows(s, s2)
  {
  }

  lemma NoFurther(s: State)
    ensures Beside(s, s) && SameRows(s, s)
  {
  }

  lemma ListableStays(w: World, s: State, s': State, name: string)
    ensures w.CanList(s, name) && SameRows(s, s') ==> w.CanList(s', name)
  {
  }

  lemma NoMembers()
    ensures Members([]) == {}
  {
  }

  lemma OneMoreMember(names: seq<string>, i: nat)
    requires i < |names| && forall i, j :: 0 <= i < j < |names| ==> names[i] != names[j]
    ensures names[..i + 1] == names[..i] + [names[i]]
    ensures Members(names[..i + 1]) == Members(names[..i]) + {names[i]}
    ensures names[i] in Members(names) && names[i] !in Members(names[..i]) && names[i] !in names[..i]
  {
    assert names[..i + 1] == names[..i] + [names[i]];
  }

  lemma HalfQuietNothing(s: State, a: Agent, fleets: map<string, seq<string>>)
    requires Tidy(s, a)
    ensures HalfQuiet(s, a, [], fleets)
  {
    hide Tidy;
  }

  lemma IdleStays(s: State, s': State, k: nat, name: string, now: Timestamp, fleets: map<string, seq<string>>)
    requires k in s.sweeps && k in s'.sweeps
    ensures LeftAlone(s, s', k) && Beside(s, s') && NoneWaits(s, name, now, fleets) ==> NoneWaits(s', name, now, fleets)
  {
  }

  // ---- The record half ----

  /** What the record half has reported and called so far. */
  ghost predicate RowsTallied(cases: seq<Case>, dryRun: bool, now: Timestamp, handled: set<string>,
                              listed: map<string, set<string>>, before: seq<Entry>, base: seq<Called>,
                              outcome: SweepOutcome, calls: seq<Called>) {
    var entries := before + RecordHalf(cases, handled, listed, dryRun, now);
    outcome == Tally(entries, dryRun) && calls == base + CallsIn(entries)
  }

  lemma RowsTalliedMore(cases: seq<Case>, dryRun: bool, now: Timestamp, handled: set<string>,
                        listed: map<string, set<string>>, before: seq<Entry>, base: seq<Called>,
                        outcome: SweepOutcome, calls: seq<Called>, c: Case)
    requires RowsTallied(cases, dryRun, now, handled, listed, before, base, outcome, calls)
    ensures var e := RowEntry(c, handled, listed, dryRun, now);
            RowsTallied(cases + [c], dryRun, now, handled, listed, before, base,
                        Noted(outcome, e), calls + CallOf(e))
  {
    RowEntryNames(c, handled, listed, dryRun, now);
    hide RowEntry, Tally, Noted, Select;
    var e := RowEntry(c, handled, listed, dryRun, now);
    var entries := before + RecordHalf(cases, handled, listed, dryRun, now);
    assert before + RecordHalf(cases + [c], handled, listed, dryRun, now) == entries + [e];
    TallyNotes(entries, e, dryRun);
    SelectLast(entries, e, CALL_MADE);
    var more := CallOf(e);
    assert base + CallsIn(entries) + more == base + (CallsIn(entries) + more);
  }

  lemma RowEntryNames(c: Case, handled: set<string>, listed: map<string, set<string>>, dryRun: bool, now: Timestamp)
    ensures RowEntry(c, handled, listed, dryRun, now).id == c.row.id
  {
  }

  lemma RowsTalliedNothing(dryRun: bool, now: Timestamp, handled: set<string>, listed: map<string, set<string>>,
                           before: seq<Entry>, base: seq<Called>)
    ensures RowsTallied([], dryRun, now, handled, listed, before, base, Tally(before, dryRun), base + CallsIn(before))
  {
    assert before + RecordHalf([], handled, listed, dryRun, now) == before;
  }

  /** Of the rows given, none that is still outstanding waits. */
  ghost predicate NoRowWaits(s: State, rows: seq<Row>, now: Timestamp, handled: set<string>,
                             listed: map<string, set<string>>, fleets: map<string, seq<string>>, keys: set<string>) {
    forall row :: row in rows && row in Outstanding(s.record) ==>
      !RowWaits(row, handled, listed, now, s.ledger, fleets, keys)
  }

  /** What a quiet world has become after a waiting row was settled. */
  ghost predicate RowSettled(s: State, s': State, k: nat, row: Row)
    requires k in s.sweeps && k in s'.sweeps && row.id in s.platforms.created
  {
    && s'.record == s.record + [Correction(row, s.clock)]
    && ((s'.platforms == s.platforms && s'.sweeps[k].freed == s.sweeps[k].freed)
        || (s'.platforms == s.platforms.Ending(row.id) && s'.sweeps[k].freed == s.sweeps[k].freed + {row.id}))
  }

  lemma RowSettledIsOnward(s: State, s': State, k: nat, row: Row)
    requires k in s.sweeps && k in s'.sweeps && row.id in s.platforms.created && s.platforms.Sound()
    requires RowSettled(s, s', k, row) && Beside(s, s') && OnlyCalled(s.sweeps[k], s'.sweeps[k])
    ensures Onward(s, s.sweeps[k], s', s'.sweeps[k])
    ensures Tidy(s, s.sweeps[k]) ==> Tidy(s', s'.sweeps[k])
    ensures forall r :: r in Outstanding(s'.record) <==> r in Outstanding(s.record) && r.id != row.id
  {
    hide Outstanding;
    if s'.platforms != s.platforms || s'.sweeps[k].freed != s.sweeps[k].freed {
      EndingIsOnward(s, s', s.sweeps[k], s'.sweeps[k], row.id);
    }
    forall r
      ensures r in Outstanding(s'.record) <==> r in Outstanding(s.record) && r.id != row.id
    {
      CorrectionRetires(s.record, Correction(row, s.clock), r);
    }
  }

  lemma HalfQuietOnward(s: State, a: Agent, s': State, a': Agent, asked: seq<string>, fleets: map<string, seq<string>>)
    requires Onward(s, a, s', a') && HalfQuiet(s, a, asked, fleets) && Tidy(s', a')
    ensures HalfQuiet(s', a', asked, fleets)
  {
    hide MachineWaits, Outstanding, Tidy, Kept, NoneWaits;
    forall i | 0 <= i < |asked|
      ensures Kept(s', a', asked[i]) && (!a'.dryRun ==> NoneWaits(s', asked[i], a'.now, fleets))
    {
      KeptOnward(s, a, s', a', asked[i]);
    }
  }

  /** The rows done so far, and the platforms before them, stay settled as one more row is. */
  lemma OneMoreRow(s: State, s': State, k: nat, rows: seq<Row>, row: Row, dryRun: bool, now: Timestamp,
                   handled: set<string>, listed: map<string, set<string>>, names: seq<string>,
                   fleets: map<string, seq<string>>, keys: set<string>)
    requires k in s.sweeps && k in s'.sweeps && row.id in s.platforms.created && Sound(s)
    requires Beside(s, s') && OnlyCalled(s.sweeps[k], s'.sweeps[k])
    requires if !dryRun && RowWaits(row, handled, listed, now, s.ledger, fleets, keys) then RowSettled(s, s', k, row)
             else LeftAlone(s, s', k)
    ensures !dryRun && NoRowWaits(s, rows, now, handled, listed, fleets, keys) ==>
              NoRowWaits(s', rows + [row], now, handled, listed, fleets, keys)
    ensures HalfQuiet(s, s.sweeps[k], names, fleets) ==> HalfQuiet(s', s'.sweeps[k], names, fleets)
    ensures SameRows(s, s')
  {
    hide Outstanding, RowWaits, AgentSound, RowSound, RowsRead, Kept, NoneWaits;
    if !dryRun && RowWaits(row, handled, listed, now, s.ledger, fleets, keys) {
      RowSettledIsOnward(s, s', k, row);
    } else {
      LeftAloneIsOnward(s, s', k);
    }
    if HalfQuiet(s, s.sweeps[k], names, fleets) {
      HalfQuietOnward(s, s.sweeps[k], s', s'.sweeps[k], names, fleets);
    }
  }

  /** What a quiet world has become after the first rows, what was decided of them, and what the sweep
      has called. */
  ghost predicate RowsQuiet(w: World, s0: State, s: State, k: nat, done: seq<Row>, all: seq<Row>, cases: seq<Case>,
                            handled: set<string>, listed: map<string, set<string>>, names: seq<string>,
                            calls0: seq<Called>, calls: seq<Called>)
    requires k in s0.sweeps && k in s.sweeps
  {
    var a := s0.sweeps[k];
    && Beside(s0, s) && SameRows(s0, s) && RowsAsMet(w, s0, done, cases, handled, listed, a.dryRun, a.now)
    && (HalfQuiet(s0, a, names, w.fleets) ==> HalfQuiet(s, s.sweeps[k], names, w.fleets))
    && (!a.dryRun ==> NoRowWaits(s, done, a.now, handled, listed, w.fleets, w.keys))
    && (a.dryRun
        || (forall row :: row in all ==> !RowWaits(row, handled, listed, a.now, s0.ledger, w.fleets, w.keys)) ==>
          LeftAlone(s0, s, k) && calls == calls0)
  }

  /** Each row was decided as it is in a world where nothing fails. */
  predicate RowsAsMet(w: World, s: State, rows: seq<Row>, cases: seq<Case>, handled: set<string>,
                      listed: map<string, set<string>>, dryRun: bool, now: Timestamp) {
    |cases| == |rows| && forall i :: 0 <= i < |cases| ==>
      RowEntry(cases[i], handled, listed, dryRun, now)
      == RowEntry(RowMet(rows[i], s.ledger, w.fleets, w.keys), handled, listed, dryRun, now)
  }

  lemma NoRowsQuiet(w: World, s: State, k: nat, all: seq<Row>, handled: set<string>, listed: map<string, set<string>>,
                    names: seq<string>, calls: seq<Called>)
    requires k in s.sweeps
    ensures RowsQuiet(w, s, s, k, [], all, [], handled, listed, names, calls, calls)
  {
    NoFurther(s);
    NoRowsNoWaiting(s, s.sweeps[k].now, handled, listed, w.fleets, w.keys);
  }

  lemma OneMoreRowQuiet(w: World, s0: State, s: State, s': State, k: nat, done: seq<Row>, all: seq<Row>,
                        cases: seq<Case>, row: Row, c: Case, handled: set<string>, listed: map<string, set<string>>,
                        names: seq<string>, calls0: seq<Called>, calls: seq<Called>)
    requires k in s0.sweeps && k in s.sweeps && k in s'.sweeps && OnlyCalled(s0.sweeps[k], s.sweeps[k])
    requires row.id in s.platforms.created && Sound(s) && row in all
    requires RowsQuiet(w, s0, s, k, done, all, cases, handled, listed, names, calls0, calls)
    requires Beside(s, s') && OnlyCalled(s.sweeps[k], s'.sweeps[k])
    requires var a, met := s.sweeps[k], RowMet(row, s.ledger, w.fleets, w.keys);
             RowEntry(c, handled, listed, a.dryRun, a.now) == RowEntry(met, handled, listed, a.dryRun, a.now)
    requires var a := s.sweeps[k];
             if !a.dryRun && RowWaits(row, handled, listed, a.now, s.ledger, w.fleets, w.keys) then
               RowSettled(s, s', k, row)
             else
               LeftAlone(s, s', k)
    ensures var a := s.sweeps[k];
            RowsQuiet(w, s0, s', k, done + [row], all, cases + [c], handled, listed, names, calls0,
                      calls + CallOf(RowEntry(c, handled, listed, a.dryRun, a.now)))
  {
    hide Outstanding, RowWaits, AgentSound, RowSound, RowsRead, HalfQuiet, NoRowWaits, Sound, RowSettled, RowEntry,
         RowMet;
    var a := s.sweeps[k];
    OneMoreRow(s, s', k, done, row, a.dryRun, a.now, handled, listed, names, w.fleets, w.keys);
    hide SameRows;
    assert Beside(s0, s') && SameRows(s0, s') by { Further(s0, s, s'); }
    NoCallNoTrace(calls, RowEntry(c, handled, listed, a.dryRun, a.now));
    WaitingIsCalling(row, handled, listed, a.dryRun, a.now, s.ledger, w.fleets, w.keys);
  }

  lemma WaitingIsCalling(row: Row, handled: set<string>, listed: map<string, set<string>>, dryRun: bool, now: Timestamp,
                         ledger: seq<LedgerRow>, fleets: map<string, seq<string>>, keys: set<string>)
    ensures RowEntry(RowMet(row, ledger, fleets, keys), handled, listed, dryRun, now).called ==>
              !dryRun && RowWaits(row, handled, listed, now, ledger, fleets, keys)
  {
  }

  /** What the record half has done. */
  ghost predicate RowsDone(cases: seq<Case>, handled: set<string>, listed: map<string, set<string>>,
                           fleets: map<string, seq<string>>, keys: set<string>, dryRun: bool, now: Timestamp,
                           deeds: seq<Act>, deeds': seq<Act>) {
    && deeds' == deeds + RecordDeeds(cases, handled, listed, dryRun, now)
    && forall i :: 0 <= i < |cases| ==> HonestCase(cases[i], handled, listed, fleets, keys, dryRun, now)
  }

  lemma NoRowsDone(handled: set<string>, listed: map<string, set<string>>, fleets: map<string, seq<string>>,
                   keys: set<string>, dryRun: bool, now: Timestamp, deeds: seq<Act>)
    ensures RowsDone([], handled, listed, fleets, keys, dryRun, now, deeds, deeds)
  {
    assert deeds + [] == deeds;
  }

  lemma OneMoreRowDone(cases: seq<Case>, c: Case, handled: set<string>, listed: map<string, set<string>>,
                       fleets: map<string, seq<string>>, keys: set<string>, dryRun: bool, now: Timestamp,
                       deeds: seq<Act>, deeds': seq<Act>)
    requires RowsDone(cases, handled, listed, fleets, keys, dryRun, now, deeds, deeds')
    requires HonestCase(c, handled, listed, fleets, keys, dryRun, now)
    ensures RowsDone(cases + [c], handled, listed, fleets, keys, dryRun, now, deeds,
                     deeds' + CaseDeeds(c, handled, listed, dryRun, now))
  {
    hide HonestCase, CaseDeeds;
    OneMoreCase(cases, c, handled, listed, dryRun, now);
    var before, more := RecordDeeds(cases, handled, listed, dryRun, now), CaseDeeds(c, handled, listed, dryRun, now);
    assert deeds + before + more == deeds + (before + more);
  }

  /** The record half: every outstanding row, judged against what the platforms said. */
  method RunRecordHalf(w: World, k: nat, outstanding: seq<Row>, dryRun: bool, now: Timestamp, handled: set<string>,
                       listed: map<string, set<string>>, outcome: SweepOutcome, ghost before: seq<Entry>,
                       ghost base: seq<Called>, ghost names: seq<string>)
    returns (outcome': SweepOutcome, ghost cases: seq<Case>)
    requires w.Valid() && k in w.s.sweeps
    requires var a := w.s.sweeps[k];
             && a.dryRun == dryRun && a.now == now && a.rows == outstanding && a.asked == a.providers
             && handled == HandledIn(a) && listed == ListedIn(a)
    requires outcome == Tally(before, dryRun) && CallsOf(w.log, k) == base + CallsIn(before)
    modifies w
    ensures w.Valid() && old(w.log) <= w.log
    ensures k in w.s.sweeps && OnlyCalled(old(w.s).sweeps[k], w.s.sweeps[k])
    ensures |cases| == |outstanding| && forall j :: 0 <= j < |cases| ==> cases[j].row == outstanding[j]
    ensures RowsTallied(cases, dryRun, now, handled, listed, before, base, outcome', CallsOf(w.log, k))
    ensures RowsDone(cases, handled, listed, w.fleets, w.keys, dryRun, now, old(DeedsOf(w.log, k)), DeedsOf(w.log, k))
    ensures w.Quiet() ==> RowsQuiet(w, old(w.s), w.s, k, outstanding, outstanding, cases, handled, listed, names,
                                    old(CallsOf(w.log, k)), CallsOf(w.log, k))
  {
    hide Replay, IsRun, Sound, CallsOf, DeedsOf, CallOf, RowEntry, Tally, Noted, RowsTallied, RowWaits, RowsQuiet,
         LeftAlone, Place, HandledIn, ListedIn, Select, Outstanding, Beside, RowsDone, CaseDeeds, HonestCase;
    outcome', cases := outcome, [];
    RowsTalliedNothing(dryRun, now, handled, listed, before, base);
    NoRowsQuiet(w, w.s, k, outstanding, handled, listed, names, CallsOf(w.log, k));
    NoRowsDone(handled, listed, w.fleets, w.keys, dryRun, now, DeedsOf(w.log, k));
    var j := 0;
    assert outstanding[..0] == [];
    while j < |outstanding|
      invariant 0 <= j <= |outstanding| && |cases| == j && (forall i :: 0 <= i < j ==> cases[i].row == outstanding[i])
      invariant w.Valid() && old(w.log) <= w.log
      invariant k in w.s.sweeps && OnlyCalled(old(w.s).sweeps[k], w.s.sweeps[k])
      invariant RowsTallied(cases, dryRun, now, handled, listed, before, base, outcome', CallsOf(w.log, k))
      invariant RowsDone(cases, handled, listed, w.fleets, w.keys, dryRun, now, old(DeedsOf(w.log, k)),
                         DeedsOf(w.log, k))
      invariant w.Quiet() ==>
                  RowsQuiet(w, old(w.s), w.s, k, outstanding[..j], outstanding, cases, handled, listed, names,
                            old(CallsOf(w.log, k)), CallsOf(w.log, k))
    {
      ghost var s1, calls, deeds, outcome1 := w.s, CallsOf(w.log, k), DeedsOf(w.log, k), outcome';
      var row := outstanding[j];
      assert outstanding[..j + 1] == outstanding[..j] + [row];
      CallsTeachNoPlace(old(w.s).sweeps[k], w.s.sweeps[k]);
      ghost var c;
      outcome', c := SettleRow(w, k, row, dryRun, now, handled, listed, outcome');
      RowsTalliedMore(cases, dryRun, now, handled, listed, before, base, outcome1, calls, c);
      OneMoreRowDone(cases, c, handled, listed, w.fleets, w.keys, dryRun, now, old(DeedsOf(w.log, k)), deeds);
      if w.Quiet() {
        OneMoreRowQuiet(w, old(w.s), s1, w.s, k, outstanding[..j], outstanding, cases, row, c, handled, listed, names,
                        old(CallsOf(w.log, k)), calls);
      }
      cases := cases + [c];
      j := j + 1;
    }
    assert outstanding[..j] == outstanding;
  }

  lemma NoCallNoTrace(calls: seq<Called>, e: Entry)
    ensures !e.called ==> calls + CallOf(e) == calls
  {
  }

  lemma NoRowsNoWaiting(s: State, now: Timestamp, handled: set<string>, listed: map<string, set<string>>,
                        fleets: map<string, seq<string>>, keys: set<string>)
    ensures NoRowWaits(s, [], now, handled, listed, fleets, keys)
  {
  }

  // ---- The whole sweep ----

  function HandledOn(s: State, names: seq<string>, now: Timestamp): set<string> {
    set p, m | p in Members(names) && m in s.platforms.On(p) && StandingOf(m, now) != Unknown :: m.id
  }

  function RunningOn(s: State, names: seq<string>): map<string, set<string>> {
    map p | p in Members(names) :: Ids(s.platforms.On(p))
  }

  /** From here, with the clock at `now`, a sweep of these platforms whose every call succeeds has no
      release to make and no row to retire. */
  ghost predicate SweepIdle(s: State, names: seq<string>, now: Timestamp, fleets: map<string, seq<string>>,
                            keys: set<string>) {
    && PlatformsIdle(s, names, now, fleets)
    && forall row :: row in Outstanding(s.record) ==>
         !RowWaits(row, HandledOn(s, names, now), RunningOn(s, names), now, s.ledger, fleets, keys)
  }

  /** After a quiet platform half, a row the sweep has not freed is placed as the platforms now stand. */
  lemma PlacesAgree(s: State, a: Agent, names: seq<string>, fleets: map<string, seq<string>>, row: Row)
    requires HalfQuiet(s, a, names, fleets) && a.listed.Keys <= Members(names) && row.id !in a.freed
    ensures Place(row, HandledIn(a), ListedIn(a)) == Place(row, HandledOn(s, names, a.now), RunningOn(s, names))
  {
    hide Tidy, NoneWaits, StandingOf;
    forall p | p in Members(names)
      ensures Kept(s, a, p)
    {
      var i :| 0 <= i < |names| && names[i] == p;
      assert Kept(s, a, names[i]);
    }
    assert row.id in HandledIn(a) <==> row.id in HandledOn(s, names, a.now);
    forall p | p in Members(names)
      ensures row.id in Ids(a.listed[p]) <==> row.id in Ids(s.platforms.On(p))
    {
      assert Kept(s, a, p);
    }
  }

  lemma QuietSweepIsIdle(s: State, a: Agent, names: seq<string>, fleets: map<string, seq<string>>, keys: set<string>)
    requires HalfQuiet(s, a, names, fleets) && a.listed.Keys <= Members(names) && !a.dryRun
    requires NoRowWaits(s, a.rows, a.now, HandledIn(a), ListedIn(a), fleets, keys)
    ensures SweepIdle(s, names, a.now, fleets, keys)
  {
    hide HandledIn, ListedIn, HandledOn, RunningOn, Place, Outstanding, NoneWaits, Kept, GateOf;
    forall row | row in Outstanding(s.record)
      ensures !RowWaits(row, HandledOn(s, names, a.now), RunningOn(s, names), a.now, s.ledger, fleets, keys)
    {
      PlacesAgree(s, a, names, fleets, row);
    }
  }

  /** In a world with nothing waiting, the rows read have nothing waiting against the listings taken. */
  lemma IdleRowsDoNotWait(s: State, s1: State, a: Agent, names: seq<string>, fleets: map<string, seq<string>>,
                          keys: set<string>)
    requires SweepIdle(s, names, a.now, fleets, keys) && HalfQuiet(s1, a, names, fleets)
    requires a.listed.Keys <= Members(names) && a.freed == {} && a.rows == Outstanding(s.record)
    requires s1.platforms == s.platforms && s1.ledger == s.ledger
    ensures forall row :: row in a.rows ==> !RowWaits(row, HandledIn(a), ListedIn(a), a.now, s1.ledger, fleets, keys)
  {
    hide HandledIn, ListedIn, HandledOn, RunningOn, Place, Outstanding, NoneWaits, Kept, GateOf;
    assert HandledOn(s1, names, a.now) == HandledOn(s, names, a.now) && RunningOn(s1, names) == RunningOn(s, names) by {
      SamePlatforms(s, s1, names, a.now);
    }
    forall row | row in a.rows
      ensures !RowWaits(row, HandledIn(a), ListedIn(a), a.now, s1.ledger, fleets, keys)
    {
      PlacesAgree(s1, a, names, fleets, row);
    }
  }

  /** What an idle world may still run past its lease. Of the acquired machines on the platforms swept, one
      whose ledger gate is clear is left only when its platform has no release command, or when its label
      no longer carries its stamp: changed to a later one, or to none that reads while no outstanding row of
      it can be acted on. (A stamp of a year before 0000 does not read either.) */
  lemma WhatAQuietSweepLeaves(log: seq<Event>, names: seq<string>, now: Timestamp, fleets: map<string, seq<string>>,
                              keys: set<string>, m: Machine)
    requires IsRun(log) && SweepIdle(Replay(log), names, now, fleets, keys)
    requires var s := Replay(log);
             && m.id in s.leases && s.leases[m.id] <= now && m.id in s.platforms.created
             && s.platforms.created[m.id] in names && m in s.platforms.On(s.platforms.created[m.id])
    requires GateOf(Some(Replay(log).ledger), m.id) == Clear
    ensures var s, p := Replay(log), Replay(log).platforms.created[m.id];
            match StandingOf(m, now)
            case Expired => p in fleets && fleets[p] == []
            case Live => WasRelabelled(log, m.id)
            case Unknown =>
              && (WasRelabelled(log, m.id) || CivilOf(SecondOf(s.leases[m.id])).date.year < 0)
              && forall row :: row in Outstanding(s.record) && row.id == m.id ==> !Reachable(fleets, keys, row)
  {
    hide Replay, IsRun, Sound, ExpiryStamp, StandingOf, GateOf, Outstanding, CivilOf, HandledOn, RunningOn, Without,
         RowWaits, Reachable;
    var s := Replay(log);
    var p := s.platforms.created[m.id];
    EveryRunIsSound(log);
    StampsStay(log, m);
    var i :| 0 <= i < |names| && names[i] == p;
    assert NoneWaits(s, names[i], now, fleets);
    if !WasRelabelled(log, m.id) {
      if CivilOf(SecondOf(s.leases[m.id])).date.year < 0 {
        EarlyStampsDoNotRead(m, s.leases[m.id], now);
      } else {
        StampAgainstRecord(m, s.leases[m.id], now);
      }
    }
    if StandingOf(m, now) == Unknown {
      forall row | row in Outstanding(s.record) && row.id == m.id
        ensures !Reachable(fleets, keys, row)
      {
        UnknownIsJudged(s, names, now, fleets, keys, m, row);
      }
    }
  }

  /** A running machine whose label does not read is left to its row, which waits if it can. */
  lemma UnknownIsJudged(s: State, names: seq<string>, now: Timestamp, fleets: map<string, seq<string>>,
                        keys: set<string>, m: Machine, row: Row)
    requires Sound(s) && row in Outstanding(s.record) && row.id == m.id
    requires m.id in s.leases && s.leases[m.id] <= now && m.id in s.platforms.created
    requires s.platforms.created[m.id] in names && m in s.platforms.On(s.platforms.created[m.id])
    requires StandingOf(m, now) == Unknown && GateOf(Some(s.ledger), m.id) == Clear
    ensures RowWaits(row, HandledOn(s, names, now), RunningOn(s, names), now, s.ledger, fleets, keys)
            <==> Reachable(fleets, keys, row)
  {
    hide ExpiryStamp, StandingOf, GateOf, Outstanding, AgentSound, RowsRead, LostAreReturned, Without;
    assert m.id !in HandledOn(s, names, now) by { OnlyOneRuns(s.platforms, m); }
    OutstandingExact(s.record, row);
    assert RowSound(s.platforms, s.leases, s.lost, row);
    var p := s.platforms.created[m.id];
    assert p in RunningOn(s, names) && m.id in RunningOn(s, names)[p];
  }

  lemma EarlyStampsDoNotRead(machine: Machine, expiresAt: Timestamp, now: Timestamp)
    requires machine.name == Some(ExpiryStamp(expiresAt)) && CivilOf(SecondOf(expiresAt)).date.year < 0
    ensures StandingOf(machine, now) == Unknown
  {
    StampRoundTrip(expiresAt);
  }

  lemma OnlyOneRuns(w: Platforms, m: Machine)
    requires w.Sound() && m.id in w.created && m in w.On(w.created[m.id])
    ensures forall p, m' :: m' in w.On(p) && m'.id == m.id ==> m' == m
  {
    hide Without;
    forall p, m' | m' in w.On(p) && m'.id == m.id
      ensures m' == m
    {
      RunsThere(w, p);
      RunsThere(w, w.created[m.id]);
    }
  }

  lemma IdleBegins(s: State, s1: State, names: seq<string>, now: Timestamp, fleets: map<string, seq<string>>,
                   keys: set<string>)
    requires SweepIdle(s, names, now, fleets, keys) && s1.platforms == s.platforms && s1.ledger == s.ledger
    ensures PlatformsIdle(s1, names, now, fleets)
  {
    hide MachineWaits;
  }

  lemma SamePlatforms(s: State, s1: State, names: seq<string>, now: Timestamp)
    requires s1.platforms == s.platforms
    ensures HandledOn(s1, names, now) == HandledOn(s, names, now) && RunningOn(s1, names) == RunningOn(s, names)
  {
    hide StandingOf;
  }

  lemma {:induction false} NoCallsYet(log: seq<Event>, k: nat)
    requires forall i :: 0 <= i < |log| && log[i].Swept? && log[i].k == k ==> log[i].act.RecordRead?
    ensures CallsOf(log, k) == [] && DeedsOf(log, k) == []
  {
    if log != [] {
      NoCallsYet(log[..|log| - 1], k);
    }
  }

  /** Sound listings of different platforms never share an id. */
  lemma {:induction false} ListingsDoNotRepeat(s: State, a: Agent, planes: seq<Plane>)
    requires AgentSound(s, a) && Reflects(planes, a)
    requires forall i, j :: 0 <= i < j < |planes| ==> planes[i].name != planes[j].name
    ensures NoRepeats(AllSeen(planes))
  {
    SeenAreSound(s, a, planes, |planes|);
    assert planes[..|planes|] == planes;
  }

  lemma {:induction false} SeenAreSound(s: State, a: Agent, planes: seq<Plane>, n: nat)
    requires AgentSound(s, a) && Reflects(planes, a) && n <= |planes|
    requires forall i, j :: 0 <= i < j < |planes| ==> planes[i].name != planes[j].name
    ensures NoRepeats(AllSeen(planes[..n]))
    ensures forall id :: id in AllSeen(planes[..n]) ==>
              id in s.platforms.created && exists i :: 0 <= i < n && planes[i].name == s.platforms.created[id]
  {
    hide AgentSound, Reflects;
    if n > 0 {
      var last := planes[n - 1];
      assert planes[..n][..n - 1] == planes[..n - 1];
      SeenAreSound(s, a, planes, n - 1);
      var before, here := AllSeen(planes[..n - 1]), SeenIds(last);
      assert AllSeen(planes[..n]) == before + here;
      OneListingIsSound(s, a, planes, last);
      forall id | id in before
        ensures id !in here
      {
        var i :| 0 <= i < n - 1 && planes[i].name == s.platforms.created[id];
      }
      NoRepeatsJoins(before, here);
      forall id | id in before + here
        ensures id in s.platforms.created && exists i :: 0 <= i < n && planes[i].name == s.platforms.created[id]
      {
        if id in here { assert planes[n - 1].name == s.platforms.created[id]; }
      }
    }
  }

  lemma NoRepeatsJoins(a: seq<string>, b: seq<string>)
    requires NoRepeats(a) && NoRepeats(b) && forall id :: id in a ==> id !in b
    ensures NoRepeats(a + b)
  {
    forall i, j | 0 <= i < j < |a + b|
      ensures (a + b)[i] != (a + b)[j]
    {
      if i < |a| <= j {
        assert a[i] in a && b[j - |a|] in b;
      }
    }
  }

  lemma OneListingIsSound(s: State, a: Agent, planes: seq<Plane>, plane: Plane)
    requires AgentSound(s, a) && Reflects(planes, a) && plane in planes
    ensures NoRepeats(SeenIds(plane))
    ensures forall id :: id in SeenIds(plane) ==> id in s.platforms.created && s.platforms.created[id] == plane.name
  {
    hide WalkSound, RowsRead, AbsenceSound, TakenNames;
    if plane.Taken? {
      var machines := MachinesOf(plane.seen);
      assert ListingSound(s.platforms, plane.name, machines);
      var ids := SeenIds(plane);
      forall i | 0 <= i < |ids|
        ensures ids[i] == machines[i].id && machines[i] in machines
      {
      }
    }
  }

  lemma DistinctCases(file: seq<Row>, cases: seq<Case>)
    requires |cases| == |Outstanding(file)| && forall j :: 0 <= j < |cases| ==> cases[j].row == Outstanding(file)[j]
    ensures DistinctRows(cases)
  {
    hide Outstanding;
    OutstandingIsDistinct(file);
  }

  lemma DryRunsCallNothing(planes: seq<Plane>, cases: seq<Case>, now: Timestamp)
    ensures CallsIn(Entries(planes, cases, true, now)) == []
  {
    hide PlatformHalf, RecordHalf;
    var entries := Entries(planes, cases, true, now);
    forall e | e in entries
      ensures !e.called
    {
      DryEntry(planes, cases, now, e);
    }
    NobodyCalled(entries);
  }

  lemma DryEntry(planes: seq<Plane>, cases: seq<Case>, now: Timestamp, e: Entry)
    requires e in Entries(planes, cases, true, now)
    ensures !e.called
  {
    hide StandingOf, DueOf, Place;
    if e in PlatformHalf(planes, true, now) {
      PlatformHalfHas(planes, true, now, e);
      var plane :| plane in planes && e in PlaneEntries(plane, true, now);
      if plane.Taken? {
        var i :| 0 <= i < |plane.seen| && e == MachineEntry(plane.seen[i], true, now);
        MachineIsCalledWhenStamped(plane.seen[i], true, now);
      }
    }
  }

  lemma {:induction false} NobodyCalled(entries: seq<Entry>)
    requires forall e :: e in entries ==> !e.called
    ensures CallsIn(entries) == []
  {
    if entries != [] {
      NobodyCalled(entries[..|entries| - 1]);
      assert entries[|entries| - 1] in entries;
    }
  }

  /** The answers a report is made of: each platform's listing as taken, and the rows as read. */
  ghost predicate Asked(planes: seq<Plane>, cases: seq<Case>, a: Agent, names: seq<string>) {
    && |planes| == |names| && (forall i :: 0 <= i < |names| ==> planes[i].name == names[i])
    && Reflects(planes, a)
    && |cases| == |a.rows| && (forall j :: 0 <= j < |cases| ==> cases[j].row == a.rows[j])
  }

  /** Every platform named can be listed from here. */
  predicate Usable(w: World, s: State, providers: seq<string>) {
    forall p :: p in providers ==> w.CanList(s, p)
  }

  lemma UsableStays(w: World, s: State, s': State, providers: seq<string>)
    requires Usable(w, s, providers) && SameRows(s, s')
    ensures Usable(w, s', providers)
  {
    forall p | p in providers
      ensures w.CanList(s', p)
    {
      ListableStays(w, s, s', p);
    }
  }

  lemma NothingOf(log: seq<Event>, k: nat)
    requires IsRun(log) && k !in Replay(log).sweeps
    ensures CallsOf(log, k) == [] && DeedsOf(log, k) == []
  {
    hide Replay, IsRun;
    EverySweepIsTraced(log, k);
    NoCallsYet(log, k);
  }

  lemma BeginningIsTidy(s: State, dryRun: bool, providers: set<string>, templates: map<string, seq<string>>)
    ensures Tidy(s, Beginning(s, Outstanding(s.record), dryRun, providers, templates))
  {
    hide Outstanding;
  }

  lemma HalfTalliedMeans(planes: seq<Plane>, a: Agent, outcome: SweepOutcome, handled: set<string>,
                         listed: map<string, set<string>>, calls: seq<Called>)
    requires HalfTallied(planes, a, [], outcome, handled, listed, calls)
    ensures Reflects(planes, a)
    ensures outcome == Tally(PlatformHalf(planes, a.dryRun, a.now), a.dryRun)
    ensures calls == [] + CallsIn(PlatformHalf(planes, a.dryRun, a.now))
    ensures handled == HandledIn(a) && listed == ListedIn(a)
  {
    hide Reflects, Tally, PlatformHalf, HandledBy, ListedBy, HandledIn, ListedIn, Select;
    ReflectedPlaces(planes, a);
  }

  lemma WholeReport(planes: seq<Plane>, cases: seq<Case>, a: Agent, a': Agent, outcome: SweepOutcome,
                    calls: seq<Called>)
    requires OnlyCalled(a, a') && Reflects(planes, a)
    requires RowsTallied(cases, a.dryRun, a.now, HandledIn(a), ListedIn(a), PlatformHalf(planes, a.dryRun, a.now), [],
                         outcome, calls)
    ensures Reflects(planes, a')
    ensures outcome == Report(planes, cases, a.dryRun, a.now)
    ensures calls == CallsIn(Entries(planes, cases, a.dryRun, a.now))
  {
    hide Tally, PlatformHalf, RecordHalf, HandledBy, ListedBy, HandledIn, ListedIn, Select;
    ReflectedPlaces(planes, a);
  }

  lemma WholeIsDone(planes: seq<Plane>, cases: seq<Case>, a: Agent, fleets: map<string, seq<string>>,
                    keys: set<string>, deeds: seq<Act>, deeds': seq<Act>)
    requires Reflects(planes, a) && HalfDone(planes, fleets, keys, a.dryRun, a.now, [], deeds)
    requires RowsDone(cases, HandledIn(a), ListedIn(a), fleets, keys, a.dryRun, a.now, deeds, deeds')
    ensures deeds' == DeedsFor(planes, cases, fleets, a.dryRun, a.now)
    ensures Honest(planes, cases, fleets, keys, a.dryRun, a.now)
  {
    hide PlatformDeeds, RecordDeeds, HonestPlane, HonestCase, HandledBy, ListedBy, HandledIn, ListedIn, Reflects;
    ReflectedPlaces(planes, a);
  }

  lemma WholeIsDistinct(s: State, k: nat, planes: seq<Plane>, cases: seq<Case>, file: seq<Row>, names: seq<string>)
    requires Sound(s) && k in s.sweeps && s.sweeps[k].rows == Outstanding(file)
    requires forall i, j :: 0 <= i < j < |names| ==> names[i] != names[j]
    requires Asked(planes, cases, s.sweeps[k], names)
    ensures var a := s.sweeps[k];
            && NoneTwice(CallsIn(Entries(planes, cases, a.dryRun, a.now)))
            && (a.dryRun ==> CallsIn(Entries(planes, cases, a.dryRun, a.now)) == [])
    ensures s.sweeps[k].listed.Keys <= s.sweeps[k].asked
  {
    hide Outstanding, Entries, Reflects, AllSeen, Select, DistinctRows, PlatformHalf, RecordHalf;
    var a := s.sweeps[k];
    AgentsAreSound(s, k);
    ListingsDoNotRepeat(s, a, planes);
    DistinctCases(file, cases);
    OneReleasePerMachine(planes, cases, a.dryRun, a.now);
    if a.dryRun {
      DryRunsCallNothing(planes, cases, a.now);
    }
  }

  /** What a quiet sweep has done and said by its end, from how each half left the world. */
  lemma QuietSweepEnds(w: World, s0: State, began: State, halfway: State, s: State, k: nat, names: seq<string>,
                       planes: seq<Plane>, cases: seq<Case>, calls: seq<Called>, calls': seq<Called>)
    requires k in began.sweeps && k in halfway.sweeps && k in s.sweeps
    requires var a, a' := halfway.sweeps[k], s.sweeps[k];
             && OnlyCalled(a, a') && a.listed.Keys <= Members(names) && a.now == s0.clock
             && a.rows == Outstanding(s0.record) && a.dryRun == began.sweeps[k].dryRun
             && Tidy(began, began.sweeps[k]) && began.sweeps[k].freed == {}
             && PlanesQuiet(w, began, halfway, k, names, names, planes, a.now, [], calls)
             && HandledBy(planes, a.now) == HandledIn(a) && ListedBy(planes) == ListedIn(a)
             && RowsQuiet(w, halfway, s, k, a.rows, a.rows, cases, HandledIn(a), ListedIn(a), names, calls, calls')
    requires began.platforms == s0.platforms && began.ledger == s0.ledger && began.record == s0.record
    ensures Beside(began, s) && SameRows(began, s)
    ensures Report(planes, cases, s.sweeps[k].dryRun, s0.clock) == ReportMet(w, s0, names, s.sweeps[k].dryRun)
    ensures s.sweeps[k].dryRun ==> s.platforms == s0.platforms && s.record == s0.record
    ensures Usable(w, s0, names) && !s.sweeps[k].dryRun ==> SweepIdle(s, names, s0.clock, w.fleets, w.keys)
    ensures Usable(w, s0, names) && SweepIdle(s0, names, s0.clock, w.fleets, w.keys) ==>
              calls' == [] && s.platforms == s0.platforms && s.record == s0.record
  {
    hide Outstanding, HalfQuiet, Tidy, HandledIn, ListedIn, RowWaits, NoRowWaits, SweepIdle, PlatformsIdle, HandledBy,
         ListedBy, Report, PlanesAsMet, RowsAsMet, SameRows;
    var a := halfway.sweeps[k];
    Further(began, halfway, s);
    AnswersAsMet(w, s0, began, halfway, names, planes, cases, a.rows, a.dryRun);
    CallsTeachNoPlace(a, s.sweeps[k]);
    if Usable(w, s0, names) {
      assert HalfQuiet(halfway, a, names, w.fleets);
      if !a.dryRun {
        QuietSweepIsIdle(s, s.sweeps[k], names, w.fleets, w.keys);
      }
      if SweepIdle(s0, names, s0.clock, w.fleets, w.keys) {
        IdleBegins(s0, began, names, s0.clock, w.fleets, w.keys);
        IdleRowsDoNotWait(s0, halfway, a, names, w.fleets, w.keys);
      }
    }
  }

  lemma AnswersAsMet(w: World, s0: State, began: State, halfway: State, names: seq<string>, planes: seq<Plane>,
                     cases: seq<Case>, rows: seq<Row>, dryRun: bool)
    requires rows == Outstanding(s0.record)
    requires began.platforms == s0.platforms && began.ledger == s0.ledger && halfway.ledger == s0.ledger
    requires PlanesAsMet(w, began, names, planes, dryRun, s0.clock)
    requires RowsAsMet(w, halfway, rows, cases, HandledBy(planes, s0.clock), ListedBy(planes), dryRun, s0.clock)
    ensures Report(planes, cases, dryRun, s0.clock) == ReportMet(w, s0, names, dryRun)
  {
    hide Alike, HandledBy, ListedBy, Outstanding, RowEntry, PlaneMet, RowMet, Entries, Tally;
    forall i | 0 <= i < |names|
      ensures Alike(planes[i], PlaneMet(w, s0, names[i]), dryRun, s0.clock)
    {
      MetAsBefore(w, s0, began, names[i]);
    }
    AlikeReports(planes, PlanesMet(w, s0, names), cases, RowsMet(w, s0, rows), dryRun, s0.clock);
  }

  lemma UsableByName(w: World, s: State, providers: seq<string>, names: seq<string>)
    requires Members(names) == Members(providers)
    ensures Usable(w, s, names) <==> Usable(w, s, providers)
  {
    hide World.CanList;
    assert forall p :: p in names <==> p in Members(names);
    assert forall p :: p in providers <==> p in Members(providers);
  }

  /** `machine sweep`. `exit` is the process's; `report` is its one artifact, absent when the record
      could not be read at all. */
  method RunSweep(w: World, k: nat, dryRun: bool, providers: seq<string>)
    returns (exit: int, report: Option<SweepOutcome>, ghost planes: seq<Plane>, ghost cases: seq<Case>)
    requires w.Valid() && k !in w.s.sweeps && k !in w.s.readings
    modifies w
    ensures w.Valid() && old(w.log) <= w.log
    ensures report.None? ==> exit == 1 && k !in w.s.sweeps && k !in w.s.readings
    ensures report.None? ==> CallsOf(w.log, k) == [] && DeedsOf(w.log, k) == []
    // The report is the spec's, on what the platforms listed and the rows that were outstanding.
    ensures report.Some? ==>
              && k in w.s.sweeps && w.s.sweeps[k].dryRun == dryRun
              && Asked(planes, cases, w.s.sweeps[k], Ascending(Members(providers)))
              && report.value == Report(planes, cases, dryRun, w.s.sweeps[k].now)
              && exit == SweepExit(report.value)
    // The answers are what was got: the listings taken, the gates read and the releases run are theirs, in order;
    // and what was not asked or not run is what this host had no means to.
    ensures report.Some? ==>
              && DeedsOf(w.log, k) == DeedsFor(planes, cases, w.fleets, dryRun, w.s.sweeps[k].now)
              && Honest(planes, cases, w.fleets, w.keys, dryRun, w.s.sweeps[k].now)
    // The releases run are the spec's: none twice, and none at all in a dry run.
    ensures report.Some? ==>
              && CallsOf(w.log, k) == CallsIn(Entries(planes, cases, dryRun, w.s.sweeps[k].now))
              && NoneTwice(CallsOf(w.log, k))
              && (dryRun ==> CallsOf(w.log, k) == [])
    // And a real run reports as released exactly what was released.
    ensures report.Some? && !dryRun ==> report.value.released == SucceededIds(CallsOf(w.log, k))
    // Where nothing fails, the report is told from the world the sweep began in, and a dry run changes nothing.
    ensures w.Quiet() ==> report == Some(ReportMet(w, old(w.s), Ascending(Members(providers)), dryRun))
    ensures w.Quiet() && dryRun ==> w.s.platforms == old(w.s).platforms && w.s.record == old(w.s).record
                                    && w.s.ledger == old(w.s).ledger
    // A sweep whose every call succeeds leaves nothing for the next one to do at the same clock.
    ensures w.Quiet() ==> report.Some? && w.s.clock == old(w.s).clock == w.s.sweeps[k].now
                          && w.s.sweeps.Keys == old(w.s).sweeps.Keys + {k}
                          && w.s.readings.Keys == old(w.s).readings.Keys + {k} && SameRows(old(w.s), w.s)
    ensures w.Quiet() && !dryRun && Usable(w, old(w.s), providers) ==>
              SweepIdle(w.s, Ascending(Members(providers)), w.s.clock, w.fleets, w.keys)
    // And where there is nothing to do, it does nothing.
    ensures w.Quiet() && Usable(w, old(w.s), providers)
              && SweepIdle(old(w.s), Ascending(Members(providers)), old(w.s).clock, w.fleets, w.keys) ==>
              CallsOf(w.log, k) == [] && w.s.platforms == old(w.s).platforms && w.s.record == old(w.s).record
  {
    hide Replay, IsRun, CallsOf, DeedsOf, Sound, AgentSound, Outstanding, HalfTallied, RowsTallied, HalfQuiet,
         NoRowWaits, SweepIdle, PlatformsIdle, HandledIn, ListedIn, RowWaits, Report, Tidy, Entries, Select,
         DistinctRows, AllSeen,
         PlanesQuiet, RowsQuiet, Usable, HalfDone, RowsDone, DeedsFor, Honest;
    planes, cases := [], [];
    NothingOf(w.log, k);
    var names := Ascending(Members(providers));
    assert Members(names) == Members(providers);
    var ok;
    ghost var read;
    ok, read := w.Begin(k, dryRun, Members(providers));
    if !ok {
      return 1, None, [], [];
    }
    var now, outstanding := w.s.sweeps[k].now, w.s.sweeps[k].rows;
    ghost var began := w.s;

    var outcome, handled, listed;
    outcome, handled, listed, planes := RunPlatformHalf(w, k, names, dryRun, now, outstanding);
    ghost var halfway, a, calls, deeds := w.s, w.s.sweeps[k], CallsOf(w.log, k), DeedsOf(w.log, k);
    HalfTalliedMeans(planes, a, outcome, handled, listed, calls);

    outcome, cases := RunRecordHalf(w, k, outstanding, dryRun, now, handled, listed, outcome,
                                    PlatformHalf(planes, dryRun, now), [], names);
    WholeReport(planes, cases, a, w.s.sweeps[k], outcome, CallsOf(w.log, k));
    WholeIsDone(planes, cases, a, w.fleets, w.keys, deeds, DeedsOf(w.log, k));
    WholeIsDistinct(w.s, k, planes, cases, read, names);
    exit, report := SweepExit(outcome), Some(outcome);
    ReleasedIsWhatWasReleased(planes, cases, now);
    if w.Quiet() {
      BeginningIsTidy(began, dryRun, Members(providers), w.fleets);
      UsableByName(w, old(w.s), providers, names);
      ReflectedPlaces(planes, a);
      QuietSweepEnds(w, old(w.s), began, halfway, w.s, k, names, planes, cases, calls, CallsOf(w.log, k));
    }
  }

  lemma {:induction false} NoCallsNoReleases(log: seq<Event>, k: nat)
    requires CallsOf(log, k) == []
    ensures forall i :: 0 <= i < |log| && log[i].Swept? && log[i].k == k ==> !log[i].act.ReleaseCalled?
  {
    if log != [] {
      NoCallsNoReleases(log[..|log| - 1], k);
      assert forall i :: 0 <= i < |log| - 1 ==> log[..|log| - 1][i] == log[i];
    }
  }

  /** A sweep that began after event `n`, ran no release and left the record as it was has touched nothing. */
  lemma TouchedNothing(log: seq<Event>, n: nat, k: nat)
    requires IsRun(log) && n <= |log| && k !in Replay(log[..n]).readings
    requires CallsOf(log, k) == [] && Replay(log).record == Replay(log[..n]).record
    ensures forall e :: e in log ==> !Touches(e, k)
  {
    hide Replay, CallsOf;
    RunPrefix(log, n);
    EveryReadingIsTraced(log[..n], k);
    NothingWasAppended(log, n);
    NoCallsNoReleases(log, k);
    forall e | e in log
      ensures !Touches(e, k)
    {
      var i :| 0 <= i < |log| && log[i] == e;
      if i < n {
        assert log[..n][i] == e;
      }
    }
  }

  /** Run again with the same arguments at the same clock, a sweep whose every call succeeds releases
      nothing and appends nothing. `n` is where the history stood between the two. */
  method SweepAgain(w: World, k: nat, again: nat, providers: seq<string>)
    returns (report: Option<SweepOutcome>, second: Option<SweepOutcome>, ghost n: nat)
    requires w.Valid() && k != again && {k, again} !! w.s.sweeps.Keys && {k, again} !! w.s.readings.Keys
    requires w.Quiet() && Usable(w, w.s, providers)
    modifies w
    ensures w.Valid() && n <= |w.log| && old(w.log) <= w.log[..n]
    // The first, a real one, was over before the second read the record.
    ensures var settled := Replay(w.log[..n]);
            && k in settled.sweeps && again !in settled.readings
            && k in w.s.sweeps && !w.s.sweeps[k].dryRun
            && report == Some(ReportMet(w, old(w.s), Ascending(Members(providers)), false))
            && second == Some(ReportMet(w, settled, Ascending(Members(providers)), false))
    // The second, a real one at the same clock, released nothing, corrected nothing and changed nothing.
    ensures again in w.s.sweeps && !w.s.sweeps[again].dryRun && w.s.sweeps[again].now == old(w.s).clock
    ensures forall e :: e in w.log ==> !Touches(e, again)
    ensures second.value.released == []
    ensures w.s.platforms == Replay(w.log[..n]).platforms && w.s.record == Replay(w.log[..n]).record
  {
    hide Replay, IsRun, CallsOf, DeedsOf, Sound, Asked, Report, ReportMet, SweepIdle, Entries, Select, DeedsFor,
         Honest, Usable;
    var exit;
    ghost var planes, cases;
    exit, report, planes, cases := RunSweep(w, k, false, providers);
    n := |w.log|;
    ghost var settled, before := w.s, w.log;
    UsableStays(w, old(w.s), settled, providers);
    exit, second, planes, cases := RunSweep(w, again, false, providers);
    assert w.log[..n] == before;
    TouchedNothing(w.log, n, again);
    SweepsStay(w.log, n, k);
  }

  lemma ReportMetAgain(w: World, s: State, s': State, names: seq<string>)
    requires s'.platforms == s.platforms && s'.record == s.record && s'.ledger == s.ledger && s'.clock == s.clock
    ensures ReportMet(w, s', names, false) == ReportMet(w, s, names, false)
  {
    hide PlaneMet, Report, Outstanding;
    forall i | 0 <= i < |names|
      ensures PlaneMet(w, s', names[i]) == PlaneMet(w, s, names[i])
    {
      MetAsBefore(w, s, s', names[i]);
    }
    assert PlanesMet(w, s', names) == PlanesMet(w, s, names);
  }

  /** Rehearsed and then run with the same arguments at the same clock, a sweep whose every call succeeds
      does what the rehearsal said, exactly when every due machine has a release command this host can run.
      `n` is where the history stood between the two. */
  method RehearseThenSweep(w: World, k: nat, again: nat, providers: seq<string>)
    returns (rehearsed: Option<SweepOutcome>, report: Option<SweepOutcome>, ghost n: nat)
    requires w.Valid() && k != again && {k, again} !! w.s.sweeps.Keys && {k, again} !! w.s.readings.Keys
    requires w.Quiet()
    modifies w
    ensures w.Valid() && n <= |w.log| && old(w.log) <= w.log[..n]
    // The rehearsal was over before the other read the record, released and corrected nothing, and changed nothing.
    ensures var between := Replay(w.log[..n]);
            && k in between.sweeps && again !in between.readings
            && between.platforms == old(w.s).platforms && between.record == old(w.s).record
            && between.ledger == old(w.s).ledger
    ensures k in w.s.sweeps && w.s.sweeps[k].dryRun && forall e :: e in w.log ==> !Touches(e, k)
    ensures again in w.s.sweeps && !w.s.sweeps[again].dryRun
    // Both reports are told from the one world.
    ensures rehearsed == Some(ReportMet(w, old(w.s), Ascending(Members(providers)), true))
    ensures report == Some(ReportMet(w, old(w.s), Ascending(Members(providers)), false))
    ensures report.value == rehearsed.value.(dryRun := false)
            <==> EveryDueIsReachable(w, old(w.s), Ascending(Members(providers)))
    ensures report.value.expired == rehearsed.value.expired && report.value.refused == rehearsed.value.refused
    ensures report.value.unknown == rehearsed.value.unknown
    ensures |report.value.released| + |report.value.failed| == |rehearsed.value.released| + |rehearsed.value.failed|
  {
    hide Replay, IsRun, CallsOf, DeedsOf, Sound, Asked, Report, ReportMet, EveryDueIsReachable, SweepIdle, Entries,
         Select, DeedsFor, Honest;
    ghost var planes, cases;
    var exit;
    exit, rehearsed, planes, cases := RunSweep(w, k, true, providers);
    n := |w.log|;
    ghost var between, before := w.s, w.log;
    exit, report, planes, cases := RunSweep(w, again, false, providers);
    assert w.log[..n] == before;
    var names := Ascending(Members(providers));
    ReportMetAgain(w, old(w.s), between, names);
    RehearsalForetells(w, old(w.s), names);
    SweepsStay(w.log, n, k);
    DryRunsTouchNothing(w.log, k);
  }
}
