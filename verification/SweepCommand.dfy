/** `machine sweep`: the two halves of a sweep, run against the world, with the report they make. */
module SweepCommand {
  import opened Wrappers
  import opened Text
  import opened Lease
  import opened Records
  import opened Fleets
  import opened Sweep
  import opened Lifecycle
  import opened SweepRun
  import opened Foresight
  import opened Deeds

  /** What a sweep may have learned from its calls about one machine: nothing but gates and releases. */
  predicate OnlyCalled(a: Agent, a': Agent) {
    a' == a.(cleared := a'.cleared, freed := a'.freed)
  }

  /** The correction a machine's release is followed by, when the record has a row for it. */
  function Retirement(rows: seq<Row>, id: string, at: Timestamp): seq<Row> {
    var row := FirstNaming(rows, id);
    if row.Some? then [Correction(row.value, at)] else []
  }

  /** In a quiet world: the machine was released and its row, if any, corrected. */
  ghost predicate WasReleased(before: State, after: State, k: nat, id: string, rows: seq<Row>)
    requires k in before.sweeps && k in after.sweeps && id in before.platforms.created
  {
    && after.platforms == before.platforms.Ending(id)
    && after.record == before.record + Retirement(rows, id, before.clock)
    && after.sweeps[k].freed == before.sweeps[k].freed + {id}
  }

  ghost predicate LeftAlone(before: State, after: State, k: nat)
    requires k in before.sweeps && k in after.sweeps
  {
    && after.platforms == before.platforms && after.record == before.record
    && after.sweeps[k].freed == before.sweeps[k].freed
  }

  lemma ListedWereCreated(s: State, k: nat, name: string, m: Machine)
    requires Sound(s) && k in s.sweeps && name in s.sweeps[k].listed && m in s.sweeps[k].listed[name]
    ensures m.id in s.platforms.created && s.platforms.created[m.id] == name
  {
    hide WalkSound;
    assert AgentSound(s, s.sweeps[k]);
    assert ListingSound(s.platforms, name, s.sweeps[k].listed[name]);
  }

  lemma RowsWereCreated(s: State, k: nat, row: Row)
    requires Sound(s) && k in s.sweeps && row in s.sweeps[k].rows
    ensures row.id in s.platforms.created
  {
    hide WalkSound;
    assert AgentSound(s, s.sweeps[k]);
    assert RowSound(s.platforms, s.leases, {}, row);
  }

  lemma AgentsAreSound(s: State, k: nat)
    requires Sound(s) && k in s.sweeps
    ensures AgentSound(s, s.sweeps[k])
  {
  }

  lemma ReleasedSinceBefore(before: State, asked: State, after: State, k: nat, id: string, rows: seq<Row>)
    requires k in before.sweeps && k in asked.sweeps && k in after.sweeps
    requires id in before.platforms.created && id in asked.platforms.created
    requires Beside(before, asked) && LeftAlone(before, asked, k) && WasReleased(asked, after, k, id, rows)
    ensures WasReleased(before, after, k, id, rows)
  {
  }

  /** Release one listed machine, and correct the first row that names it, if any. */
  method ReleaseListed(w: World, k: nat, name: string, id: string, outstanding: seq<Row>) returns (call: Call)
    requires w.Valid() && k in w.s.sweeps && name in w.fleets && id in w.s.platforms.created
    requires var a := w.s.sweeps[k];
             && !a.dryRun && a.rows == outstanding && a.templates == w.fleets && id in a.cleared
             && name in a.listed && exists m :: m in a.listed[name] && m.id == id
                                                && StandingOf(m, a.now) == Standing.Expired
    modifies w
    ensures w.Valid() && old(w.log) <= w.log
    ensures k in w.s.sweeps && OnlyCalled(old(w.s).sweeps[k], w.s.sweeps[k])
    ensures CallsOf(w.log, k) == old(CallsOf(w.log, k)) + Made(id, call)
    ensures DeedsOf(w.log, k) == old(DeedsOf(w.log, k)) + Ran(id, Substituted(w.fleets[name], id), call)
    ensures if w.fleets[name] == [] then call == NotMade(NoCommand) else !call.NotMade?
    ensures w.Quiet() ==> Beside(old(w.s), w.s)
    ensures w.Quiet() ==>
              if w.fleets[name] != [] then call == Succeeded && WasReleased(old(w.s), w.s, k, id, outstanding)
              else call == NotMade(NoCommand) && LeftAlone(old(w.s), w.s, k)
  {
    hide Replay, IsRun, Sound, CallsOf, DeedsOf;
    var argv := Substituted(w.fleets[name], id);
    assert DueByStamp(w.s.sweeps[k], id, argv);
    call := w.RunRelease(k, argv, id);
    if call.Succeeded? {
      var row := FirstNaming(outstanding, id);
      if row.Some? {
        w.Retire(k, row.value);
      }
    }
  }

  /** A quiet sweep has a release to make of this listed machine. */
  predicate MachineWaits(m: Machine, now: Timestamp, ledger: seq<LedgerRow>, template: seq<string>) {
    StandingOf(m, now) == Standing.Expired && GateOf(Some(ledger), m.id) == Clear && template != []
  }

  /** The expired branch of the loop body: gate, then release. */
  method SettleExpired(w: World, k: nat, name: string, m: Machine, dryRun: bool, now: Timestamp,
                       outstanding: seq<Row>, outcome: SweepOutcome)
    returns (outcome': SweepOutcome, ghost gate: Gate, ghost call: Call)
    requires w.Valid() && k in w.s.sweeps && name in w.fleets && StandingOf(m, now) == Standing.Expired
    requires var a := w.s.sweeps[k];
             && a.dryRun == dryRun && a.now == now && a.rows == outstanding && a.templates == w.fleets
             && name in a.listed && m in a.listed[name]
    requires m.id in w.s.platforms.created
    modifies w
    ensures w.Valid() && old(w.log) <= w.log
    ensures k in w.s.sweeps && OnlyCalled(old(w.s).sweeps[k], w.s.sweeps[k])
    ensures outcome' == match gate
                        case Clear => Noted(outcome, ReleaseEntry(m.id, dryRun, call))
                        case Holding(reason) => Noted(outcome, Entry(m.id, Verdict.Refused(reason), true, false))
                        case Unreadable(reason) => Noted(outcome, Entry(m.id, Verdict.Failed(reason), true, false))
    ensures CallsOf(w.log, k) == old(CallsOf(w.log, k)) + if gate == Clear && !dryRun then Made(m.id, call) else []
    ensures DeedsOf(w.log, k) == old(DeedsOf(w.log, k)) + GateThenRelease(m.id, gate, w.fleets[name], call, dryRun)
    ensures HonestSeen(Seen(m, gate, call), w.fleets[name], dryRun, now)
    ensures w.Quiet() ==> Beside(old(w.s), w.s)
    ensures w.Quiet() ==>
              var waits := !dryRun && GateOf(Some(old(w.s).ledger), m.id) == Clear && w.fleets[name] != [];
              && gate == GateOf(Some(old(w.s).ledger), m.id)
              && (gate == Clear && !dryRun ==> call == Met(m, old(w.s).ledger, w.fleets[name]).call)
              && if waits then WasReleased(old(w.s), w.s, k, m.id, outstanding) else LeftAlone(old(w.s), w.s, k)
  {
    hide Replay, IsRun, Sound, CallsOf, DeedsOf, StandingOf, GateOf, WasReleased;
    outcome' := outcome.(expired := outcome.expired + 1);
    var answer := w.AskGate(k, m.id);
    gate, call := answer, Succeeded;
    match answer {
      case Holding(reason) =>
        outcome' := outcome'.(refused := outcome'.refused + [(m.id, reason)]);
      case Unreadable(reason) =>
        outcome' := outcome'.(failed := outcome'.failed + [(m.id, reason)]);
      case Clear =>
        if dryRun {
          outcome' := outcome'.(released := outcome'.released + [m.id]);
          return;
        }
        ghost var asked := w.s;
        var made := ReleaseListed(w, k, name, m.id, outstanding);
        if w.Quiet() && w.fleets[name] != [] {
          ReleasedSinceBefore(old(w.s), asked, w.s, k, m.id, outstanding);
        }
        call := made;
        match made {
          case Succeeded =>
            outcome' := outcome'.(released := outcome'.released + [m.id]);
          case FailedWith(why) =>
            outcome' := outcome'.(failed := outcome'.failed + [(m.id, why)]);
          case NotMade(why) =>
            outcome' := outcome'.(failed := outcome'.failed + [(m.id, why)]);
        }
    }
  }

  /** One listed machine, judged by its own stamp. */
  method SettleMachine(w: World, k: nat, name: string, m: Machine, dryRun: bool, now: Timestamp,
                       outstanding: seq<Row>, outcome: SweepOutcome, handled: set<string>)
    returns (outcome': SweepOutcome, handled': set<string>, ghost seen: Seen)
    requires w.Valid() && k in w.s.sweeps && name in w.fleets
    requires var a := w.s.sweeps[k];
             && a.dryRun == dryRun && a.now == now && a.rows == outstanding && a.templates == w.fleets
             && name in a.listed && m in a.listed[name]
    modifies w
    ensures w.Valid() && old(w.log) <= w.log
    ensures k in w.s.sweeps && OnlyCalled(old(w.s).sweeps[k], w.s.sweeps[k])
    ensures seen.machine == m
    ensures outcome' == Noted(outcome, MachineEntry(seen, dryRun, now))
    ensures handled' == if StandingOf(m, now) == Unknown then handled else handled + {m.id}
    ensures CallsOf(w.log, k) == old(CallsOf(w.log, k)) + CallOf(MachineEntry(seen, dryRun, now))
    ensures DeedsOf(w.log, k) == old(DeedsOf(w.log, k)) + SeenDeeds(seen, w.fleets[name], dryRun, now)
    ensures HonestSeen(seen, w.fleets[name], dryRun, now)
    ensures m.id in old(w.s).platforms.created && old(w.s).platforms.created[m.id] == name
    ensures w.Quiet() ==> Beside(old(w.s), w.s)
    ensures w.Quiet() ==>
              var waits := !dryRun && MachineWaits(m, now, old(w.s).ledger, w.fleets[name]);
              && MachineEntry(seen, dryRun, now) == MachineEntry(Met(m, old(w.s).ledger, w.fleets[name]), dryRun, now)
              && (MachineEntry(seen, dryRun, now).called <==> waits)
              && if waits then WasReleased(old(w.s), w.s, k, m.id, outstanding) else LeftAlone(old(w.s), w.s, k)
  {
    hide Replay, IsRun, Sound, CallsOf, DeedsOf, StandingOf, GateOf, WasReleased;
    ListedWereCreated(w.s, k, name, m);
    outcome', handled' := outcome, handled;
    match StandingOf(m, now) {
      case Live =>
        handled' := handled' + {m.id};
        seen := Seen(m, Clear, Succeeded);
      case Unknown =>
        outcome' := outcome'.(unknown := outcome'.unknown + [(m.id, if m.name.Some? then m.name.value else "")]);
        seen := Seen(m, Clear, Succeeded);
      case Expired =>
        handled' := handled' + {m.id};
        ghost var gate, call;
        outcome', gate, call := SettleExpired(w, k, name, m, dryRun, now, outstanding, outcome');
        seen := Seen(m, gate, call);
    }
  }

  /** Release by the argv a row carries, and correct the row after a success. */
  method ReleaseRecorded(w: World, k: nat, row: Row) returns (call: Call)
    requires w.Valid() && k in w.s.sweeps && row.id in w.s.platforms.created
    requires var a := w.s.sweeps[k];
             && !a.dryRun && row in a.rows && row.id in a.cleared
             && a.asked == a.providers && RowIsDue(a, row)
    modifies w
    ensures w.Valid() && old(w.log) <= w.log
    ensures k in w.s.sweeps && OnlyCalled(old(w.s).sweeps[k], w.s.sweeps[k])
    ensures CallsOf(w.log, k) == old(CallsOf(w.log, k)) + Made(row.id, call)
    ensures DeedsOf(w.log, k) == old(DeedsOf(w.log, k)) + Ran(row.id, Substituted(row.release, row.id), call)
    ensures var met := CallMet(row, w.fleets, w.keys); if met.NotMade? then call == met else !call.NotMade?
    ensures w.Quiet() ==> Beside(old(w.s), w.s)
    ensures w.Quiet() ==> call == CallMet(row, w.fleets, w.keys)
    ensures w.Quiet() ==>
              if Reachable(w.fleets, w.keys, row) then
                && w.s.platforms == old(w.s).platforms.Ending(row.id)
                && w.s.record == old(w.s).record + [Correction(row, old(w.s).clock)]
                && w.s.sweeps[k].freed == old(w.s).sweeps[k].freed + {row.id}
              else LeftAlone(old(w.s), w.s, k)
  {
    hide Replay, IsRun, Sound, CallsOf, DeedsOf, RowIsDue;
    if row.provider !in w.fleets {
      return NotMade(UnknownProvider);
    }
    if row.provider !in w.keys {
      return NotMade(CredentialMissing);
    }
    var argv := Substituted(row.release, row.id);
    assert DueByRecord(w.s.sweeps[k], row.id, argv);
    call := w.RunRelease(k, argv, row.id);
    if call.Succeeded? {
      w.Retire(k, row);
    }
  }

  /** A row this host can release from: its platform is known, its key is held, and it names a command. */
  predicate Reachable(fleets: map<string, seq<string>>, keys: set<string>, row: Row) {
    row.provider in fleets && row.provider in keys && row.release != []
  }

  /** The verdict on a row: the clock decides first, and only a reached lease asks the gate. */
  method Judging(w: World, k: nat, row: Row, now: Timestamp) returns (due: Due, ghost gate: Gate)
    requires w.Valid() && k in w.s.sweeps
    modifies w
    ensures w.Valid() && old(w.log) <= w.log && CallsOf(w.log, k) == old(CallsOf(w.log, k))
    ensures DeedsOf(w.log, k) == old(DeedsOf(w.log, k)) + if Reached(row, now) then [GateRead(row.id, gate)] else []
    ensures due == DueOf(row, now, gate)
    ensures k in w.s.sweeps && OnlyCalled(old(w.s).sweeps[k], w.s.sweeps[k])
    ensures w.s.sweeps[k].freed == old(w.s).sweeps[k].freed
    ensures due == Due.Expired ==> row.id in w.s.sweeps[k].cleared
    ensures old(w.s).platforms.created.Keys <= w.s.platforms.created.Keys
    ensures w.Quiet() ==> Beside(old(w.s), w.s) && LeftAlone(old(w.s), w.s, k)
    ensures w.Quiet() && Reached(row, now) ==> gate == GateOf(Some(old(w.s).ledger), row.id)
  {
    hide Replay, IsRun, Sound, CallsOf, DeedsOf, GateOf;
    gate := Clear;
    match row.expiresAt {
      case None => due := Due.Failed(LeaseUnreadable);
      case Some(expiresAt) =>
        if expiresAt > now {
          due := Due.Live;
        } else {
          var answer := w.AskGate(k, row.id);
          gate := answer;
          due := match answer
            case Clear => Due.Expired
            case Holding(reason) => Due.Refused(reason)
            case Unreadable(reason) => Due.Failed(reason);
        }
    }
  }

  /** A row whose lease is reached, whose gate is clear and whose machine this host can release. */
  predicate RowIsRipe(row: Row, now: Timestamp, ledger: seq<LedgerRow>, fleets: map<string, seq<string>>,
                      keys: set<string>) {
    Reached(row, now) && GateOf(Some(ledger), row.id) == Clear && Reachable(fleets, keys, row)
  }

  /** A quiet sweep has something left to do about this row. */
  predicate RowWaits(row: Row, handled: set<string>, listed: map<string, set<string>>, now: Timestamp,
                     ledger: seq<LedgerRow>, fleets: map<string, seq<string>>, keys: set<string>) {
    match Place(row, handled, listed)
    case Handled => false
    case Gone => true
    case Judge => RowIsRipe(row, now, ledger, fleets, keys)
  }

  /** The judged arm of the record half's loop body. */
  method SettleJudged(w: World, k: nat, row: Row, dryRun: bool, now: Timestamp, outcome: SweepOutcome)
    returns (outcome': SweepOutcome, ghost c: Case)
    requires w.Valid() && k in w.s.sweeps && row.id in w.s.platforms.created
    requires var a := w.s.sweeps[k];
             && a.dryRun == dryRun && a.now == now && row in a.rows && a.asked == a.providers
             && Place(row, HandledIn(a), ListedIn(a)) == Judge
    modifies w
    ensures w.Valid() && old(w.log) <= w.log
    ensures k in w.s.sweeps && OnlyCalled(old(w.s).sweeps[k], w.s.sweeps[k])
    ensures c.row == row
    ensures outcome' == Noted(outcome, JudgedEntry(c, dryRun, now))
    ensures CallsOf(w.log, k) == old(CallsOf(w.log, k)) + CallOf(JudgedEntry(c, dryRun, now))
    ensures DeedsOf(w.log, k) == old(DeedsOf(w.log, k)) + JudgedDeeds(c, dryRun, now)
    ensures HonestJudged(c, w.fleets, w.keys, dryRun, now)
    ensures w.Quiet() ==> Beside(old(w.s), w.s)
    ensures w.Quiet() ==> JudgedEntry(c, dryRun, now)
                          == JudgedEntry(RowMet(row, old(w.s).ledger, w.fleets, w.keys), dryRun, now)
    ensures w.Quiet() ==>
              if dryRun || !RowIsRipe(row, now, old(w.s).ledger, w.fleets, w.keys) then LeftAlone(old(w.s), w.s, k)
              else
                && w.s.record == old(w.s).record + [Correction(row, old(w.s).clock)]
                && w.s.platforms == old(w.s).platforms.Ending(row.id)
                && w.s.sweeps[k].freed == old(w.s).sweeps[k].freed + {row.id}
  {
    hide Replay, IsRun, Sound, CallsOf, DeedsOf, Place, HandledIn, ListedIn, GateOf, Outstanding;
    ghost var a := w.s.sweeps[k];
    outcome' := outcome;
    var due;
    ghost var gate;
    due, gate := Judging(w, k, row, now);
    c := Case(row, gate, Succeeded);
    match due {
      case Live =>
      case Failed(reason) =>
        outcome' := outcome'.(failed := outcome'.failed + [(row.id, reason)]);
      case Refused(reason) =>
        outcome' := outcome'.(expired := outcome'.expired + 1,
                              refused := outcome'.refused + [(row.id, reason)]);
      case Expired =>
        outcome' := outcome'.(expired := outcome'.expired + 1);
        if dryRun {
          outcome' := outcome'.(released := outcome'.released + [row.id]);
          return;
        }
        assert RowIsDue(w.s.sweeps[k], row) by { JudgedIsDue(a, w.s.sweeps[k], row); }
        var call := ReleaseRecorded(w, k, row);
        c := Case(row, gate, call);
        match call {
          case Succeeded => outcome' := outcome'.(released := outcome'.released + [row.id]);
          case FailedWith(why) => outcome' := outcome'.(failed := outcome'.failed + [(row.id, why)]);
          case NotMade(why) => outcome' := outcome'.(failed := outcome'.failed + [(row.id, why)]);
        }
    }
  }

  /** The record half's loop body, for one row. */
  method SettleRow(w: World, k: nat, row: Row, dryRun: bool, now: Timestamp, handled: set<string>,
                   listed: map<string, set<string>>, outcome: SweepOutcome)
    returns (outcome': SweepOutcome, ghost c: Case)
    requires w.Valid() && k in w.s.sweeps
    requires var a := w.s.sweeps[k];
             && a.dryRun == dryRun && a.now == now && row in a.rows && a.asked == a.providers
             && handled == HandledIn(a) && listed == ListedIn(a)
    modifies w
    ensures w.Valid() && old(w.log) <= w.log
    ensures k in w.s.sweeps && OnlyCalled(old(w.s).sweeps[k], w.s.sweeps[k])
    ensures c.row == row
    ensures outcome' == Noted(outcome, RowEntry(c, handled, listed, dryRun, now))
    ensures CallsOf(w.log, k) == old(CallsOf(w.log, k)) + CallOf(RowEntry(c, handled, listed, dryRun, now))
    ensures DeedsOf(w.log, k) == old(DeedsOf(w.log, k)) + CaseDeeds(c, handled, listed, dryRun, now)
    ensures HonestCase(c, handled, listed, w.fleets, w.keys, dryRun, now)
    ensures row.id in old(w.s).platforms.created
    ensures w.Quiet() ==> Beside(old(w.s), w.s)
    ensures w.Quiet() ==> RowEntry(c, handled, listed, dryRun, now)
                          == RowEntry(RowMet(row, old(w.s).ledger, w.fleets, w.keys), handled, listed, dryRun, now)
    ensures w.Quiet() ==>
              if dryRun || !RowWaits(row, handled, listed, now, old(w.s).ledger, w.fleets, w.keys) then
                LeftAlone(old(w.s), w.s, k)
              else
                && w.s.record == old(w.s).record + [Correction(row, old(w.s).clock)]
                && if Place(row, handled, listed) == Gone then
                     w.s.platforms == old(w.s).platforms && w.s.sweeps[k].freed == old(w.s).sweeps[k].freed
                   else
                     w.s.platforms == old(w.s).platforms.Ending(row.id)
                     && w.s.sweeps[k].freed == old(w.s).sweeps[k].freed + {row.id}
  {
    hide Replay, IsRun, Sound, CallsOf, DeedsOf, Place, HandledIn, ListedIn, GateOf, Outstanding, RowIsRipe,
         JudgedEntry, CallMet, JudgedDeeds, HonestJudged;
    RowsWereCreated(w.s, k, row);
    outcome' := outcome;
    c := Case(row, Clear, Succeeded);
    match Place(row, handled, listed) {
      case Handled =>
      case Gone =>
        if !dryRun {
          w.Retire(k, row);
        }
      case Judge =>
        outcome', c := SettleJudged(w, k, row, dryRun, now, outcome);
    }
  }

  lemma JudgedIsDue(a: Agent, a': Agent, row: Row)
    requires OnlyCalled(a, a') && Place(row, HandledIn(a), ListedIn(a)) == Judge
    requires row.expiresAt.Some? && row.expiresAt.value <= a.now
    ensures RowIsDue(a', row)
  {
    CallsTeachNoPlace(a, a');
  }

  lemma CallsTeachNoPlace(a: Agent, a': Agent)
    requires OnlyCalled(a, a')
    ensures HandledIn(a') == HandledIn(a) && ListedIn(a') == ListedIn(a)
  {
  }

  // ---- What the platform half leaves ----

  /** The answers collected are the listings the sweep took. */
  ghost predicate Reflects(planes: seq<Plane>, a: Agent) {
    && a.listed.Keys == TakenNames(planes)
    && forall plane :: plane in planes && plane.Taken? ==>
         plane.name in a.listed && a.listed[plane.name] == MachinesOf(plane.seen)
  }

  lemma ReflectedPlaces(planes: seq<Plane>, a: Agent)
    requires Reflects(planes, a)
    ensures HandledBy(planes, a.now) == HandledIn(a)
    ensures ListedBy(planes) == ListedIn(a)
  {
    hide StandingOf;
    forall plane | plane in planes && plane.Taken?
      ensures forall m :: m in a.listed[plane.name] <==> exists seen :: seen in plane.seen && seen.machine == m
    {
      var machines := MachinesOf(plane.seen);
      forall m
        ensures m in machines <==> exists seen :: seen in plane.seen && seen.machine == m
      {
        if m in machines {
          var i :| 0 <= i < |machines| && machines[i] == m;
          assert plane.seen[i] in plane.seen;
        }
        if seen :| seen in plane.seen && seen.machine == m {
          var i :| 0 <= i < |plane.seen| && plane.seen[i] == seen;
          assert machines[i] == m;
        }
      }
    }
    forall id
      ensures id in HandledBy(planes, a.now) <==> id in HandledIn(a)
    {
      if id in HandledIn(a) {
        var p, m :| p in a.listed && m in a.listed[p] && StandingOf(m, a.now) != Unknown && m.id == id;
        var plane :| plane in planes && plane.Taken? && plane.name == p;
        var seen :| seen in plane.seen && seen.machine == m;
      }
      if id in HandledBy(planes, a.now) {
        var plane, seen :| plane in planes && plane.Taken? && seen in plane.seen
                           && StandingOf(seen.machine, a.now) != Unknown && seen.machine.id == id;
        assert seen.machine in a.listed[plane.name];
      }
    }
    forall p | p in a.listed
      ensures ListedOn(planes, p) == Ids(a.listed[p])
    {
      forall id
        ensures id in ListedOn(planes, p) <==> id in Ids(a.listed[p])
      {
        if id in Ids(a.listed[p]) {
          var m :| m in a.listed[p] && m.id == id;
          var plane :| plane in planes && plane.Taken? && plane.name == p;
          var seen :| seen in plane.seen && seen.machine == m;
        }
        if id in ListedOn(planes, p) {
          var plane, seen :| plane in planes && plane.Taken? && plane.name == p && seen in plane.seen
              && seen.machine.id == id;
          assert seen.machine in a.listed[p];
        }
      }
    }
  }
}
