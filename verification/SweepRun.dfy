/** The sweep as it runs: asking the platforms, the record, the ledger and the release commands in a
    world where everyone else keeps acting between any two of its calls. */
module SweepRun {
  import opened Wrappers
  import opened Text
  import opened Records
  import opened Fleets
  import opened Pages
  import opened Sweep
  import opened Lifecycle
  import opened Provenance

  /** What happens before one call is answered: what everyone else does first, and whether the call
      itself fails. */
  datatype Turn = Turn(others: seq<Event>, refused: bool)

  /** The release an act is, if it is one. */
  function CallIn(act: Act): seq<Called> {
    if act.ReleaseCalled? then [Called(act.id, act.succeeded)] else []
  }

  /** The releases a sweep ran, in order. */
  ghost function CallsOf(log: seq<Event>, k: nat): seq<Called> {
    if log == [] then []
    else
      var e := log[|log| - 1];
      CallsOf(log[..|log| - 1], k)
      + if e.Swept? && e.k == k then CallIn(e.act) else []
  }

  lemma CallsOfLast(log: seq<Event>, e: Event, k: nat)
    ensures CallsOf(log + [e], k) ==
            CallsOf(log, k) + if e.Swept? && e.k == k then CallIn(e.act) else []
  {
    assert (log + [e])[..|log|] == log;
  }

  /** An act a report has to answer for: a listing taken or given up, a gate read, a release run. */
  function DeedIn(act: Act): seq<Act> {
    if act.ListingTaken? || act.ListingFailed? || act.GateRead? || act.ReleaseCalled? then [act] else []
  }

  /** All a sweep has to answer for, in the order it did it. */
  ghost function DeedsOf(log: seq<Event>, k: nat): seq<Act> {
    if log == [] then []
    else
      var e := log[|log| - 1];
      DeedsOf(log[..|log| - 1], k)
      + if e.Swept? && e.k == k then DeedIn(e.act) else []
  }

  lemma DeedsOfLast(log: seq<Event>, e: Event, k: nat)
    ensures DeedsOf(log + [e], k) ==
            DeedsOf(log, k) + if e.Swept? && e.k == k then DeedIn(e.act) else []
  {
    assert (log + [e])[..|log|] == log;
  }

  /** The release a call ran, if it ran one. */
  function Ran(id: string, argv: seq<string>, call: Call): seq<Act> {
    if call.NotMade? then [] else [ReleaseCalled(id, argv, call.Succeeded?)]
  }

  /** Of some events, those that can happen one after another from here, and are not acts of this sweep. */
  function Occurring(s: State, events: seq<Event>, k: nat): seq<Event>
    decreases |events|
  {
    if events == [] then []
    else if !(events[0].Swept? && events[0].k == k) && Enabled(s, events[0]) then
      [events[0]] + Occurring(Apply(s, events[0]), events[1..], k)
    else Occurring(s, events[1..], k)
  }

  lemma NextOccurs(s: State, events: seq<Event>, k: nat)
    requires events != []
    ensures Occurring(s, events, k) ==
            if !(events[0].Swept? && events[0].k == k) && Enabled(s, events[0]) then
              [events[0]] + Occurring(Apply(s, events[0]), events[1..], k)
            else Occurring(s, events[1..], k)
  {
  }

  lemma NothingOccurs(s: State, k: nat)
    ensures Occurring(s, [], k) == []
  {
  }

  /** The parts of the world no sweep in progress touches. */
  predicate Beside(s: State, s': State) {
    s'.leases == s.leases && s'.ledger == s.ledger && s'.clock == s.clock && s'.returned == s.returned
    && s'.readings == s.readings && s'.sweeps.Keys == s.sweeps.Keys
  }

  lemma SomeoneElseActs(s: State, e: Event, k: nat)
    requires Sound(s) && Enabled(s, e) && !(e.Swept? && e.k == k)
    ensures var s' := Apply(s, e);
            && (k in s'.sweeps <==> k in s.sweeps) && (k in s'.sweeps ==> s'.sweeps[k] == s.sweeps[k])
            && (k in s'.readings <==> k in s.readings) && (k in s'.readings ==> s'.readings[k] == s.readings[k])
            && s.platforms.created.Keys <= s'.platforms.created.Keys
  {
    hide Apply, Enabled, AgentSound, RowsRead, OrdersKept;
    SweepsStep(s, e, k);
    ReadingsStep(s, e, k);
    StepIsLater(s, e);
  }

  /** What asking one platform may teach a sweep: that it was asked, its pages, and a listing if one was made. */
  ghost predicate OnlyAsked(a: Agent, a': Agent, name: string, machines: Option<seq<Machine>>) {
    && a' == a.(asked := a.asked + {name}, walks := a'.walks, listed := a'.listed)
    && a'.listed == (if machines.Some? then a.listed[name := machines.value] else a.listed)
    && a'.walks.Keys <= a.walks.Keys + {name}
  }

  /** A listing that fits in the pages a walk may read. */
  predicate Fits(standing: Roster, rows: Option<nat>) {
    rows.Some? ==> |standing.rows| <= Start(MAX_LIST_PAGES, rows.value)
  }

  /** An undisturbed walk that is still not complete at the last page it may read. */
  lemma UnstillIsTooMany(walk: Walk, standing: Roster)
    requires Still(walk, standing) && |walk.standings| == MAX_LIST_PAGES && !Complete(walk)
    ensures !Fits(standing, walk.rows)
  {
    assert walk.standings[|walk.standings| - 1] == standing;
  }

  lemma CompleteFits(walk: Walk, standing: Roster)
    requires Still(walk, standing) && Complete(walk) && |walk.standings| <= MAX_LIST_PAGES
    ensures Fits(standing, walk.rows)
  {
    assert walk.standings[|walk.standings| - 1] == standing;
    if walk.rows.Some? {
      PagesGrow(|walk.standings|, MAX_LIST_PAGES, walk.rows.value);
    }
  }

  lemma NothingWalked(rows: Option<nat>, standing: Roster)
    ensures Listed(Walk(rows, [])) == [] && Still(Walk(rows, []), standing)
  {
  }

  lemma OnePageMore(walk: Walk, standing: Roster)
    ensures var longer := Walk(walk.rows, walk.standings + [standing]);
            && Listed(longer) == Listed(walk) + Page(standing, |walk.standings|, walk.rows)
            && forall before :: Still(walk, before) && before == standing ==> Still(longer, standing)
  {
    hide Page;
    var longer := Walk(walk.rows, walk.standings + [standing]);
    assert longer.standings[..|walk.standings|] == walk.standings;
  }

  class World {
    /** The release template of each platform this tool has an adapter for. */
    const fleets: map<string, seq<string>>
    /** The rows a page of each platform that lists in pages. */
    const pages: map<string, nat>
    /** The platforms whose credential this host holds. */
    const keys: set<string>
    const schedule: nat -> Turn
    var turn: nat
    var s: State
    ghost var log: seq<Event>

    constructor (fleets: map<string, seq<string>>, pages: map<string, nat>, keys: set<string>, schedule: nat -> Turn)
      requires forall p :: p in pages ==> pages[p] > 0
      ensures Valid() && s == GENESIS && log == []
      ensures this.fleets == fleets && this.pages == pages && this.keys == keys && this.schedule == schedule
    {
      this.fleets, this.pages, this.keys, this.schedule := fleets, pages, keys, schedule;
      turn, s, log := 0, GENESIS, [];
      new;
      EmptyRun();
      EveryRunIsSound([]);
    }

    /** The world is where its history leads, and every event of that history could happen. */
    ghost predicate Valid()
      reads this
    {
      IsRun(log) && s == Replay(log) && Sound(s) && forall p :: p in pages ==> pages[p] > 0
    }

    function PageSize(name: string): (r: Option<nat>)
      ensures name in pages ==> r == Some(pages[name])
      ensures name !in pages ==> r == None
    {
      if name in pages then Some(pages[name]) else None
    }

    /** What this host gets for asking the platform, when no call fails: its machines, if it knows it, holds
        its key, and its pages are not too many. */
    function Reply(s: State, name: string): (r: Result<seq<Machine>, Reason>)
      ensures r.Ok? <==> name in fleets && name in keys && Fits(s.platforms.RosterOf(name), PageSize(name))
    {
      if name !in fleets then Err(UnknownProvider)
      else if name !in keys then Err(CredentialMissing)
      else if !Fits(s.platforms.RosterOf(name), PageSize(name)) then Err(CallFailed)
      else Ok(s.platforms.On(name))
    }

    predicate CanList(s: State, name: string) { Reply(s, name).Ok? }

    /** Nobody else acts and no call fails. */
    ghost predicate Quiet() {
      forall n :: schedule(n) == Turn([], false)
    }

    method Happen(e: Event)
      requires Valid() && Enabled(s, e)
      modifies this`s, this`log
      ensures Valid() && log == old(log) + [e] && s == Apply(old(s), e)
    {
      RunExtends(log, e);
      SoundStays(s, e);
      log := log + [e];
      s := Apply(s, e);
    }

    /** Everyone else's turn, those of their events that cannot happen being skipped. */
    method Others(k: nat) returns (refused: bool)
      requires Valid()
      modifies this
      ensures Valid() && old(log) <= log && CallsOf(log, k) == old(CallsOf(log, k))
      ensures DeedsOf(log, k) == old(DeedsOf(log, k))
      ensures (k in s.sweeps <==> k in old(s.sweeps)) && (k in s.sweeps ==> s.sweeps[k] == old(s.sweeps)[k])
      ensures (k in s.readings <==> k in old(s.readings)) && (k in s.readings ==> s.readings[k] == old(s.readings)[k])
      ensures old(s).platforms.created.Keys <= s.platforms.created.Keys
      ensures turn == old(turn) + 1 && refused == schedule(old(turn)).refused
      ensures log == old(log) + Occurring(old(s), schedule(old(turn)).others, k)
      ensures Quiet() ==> !refused && s == old(s)
    {
      hide Replay, IsRun, Apply, Enabled, Sound, CallsOf, DeedsOf, Occurring;
      var others := schedule(turn).others;
      refused := schedule(turn).refused;
      turn := turn + 1;
      var i := 0;
      assert others[0..] == others;
      while i < |others|
        invariant 0 <= i <= |others| && turn == old(turn) + 1
        invariant Valid() && old(log) <= log && CallsOf(log, k) == old(CallsOf(log, k))
        invariant DeedsOf(log, k) == old(DeedsOf(log, k))
        invariant (k in s.sweeps <==> k in old(s.sweeps)) && (k in s.sweeps ==> s.sweeps[k] == old(s.sweeps)[k])
        invariant (k in s.readings <==> k in old(s.readings))
                  && (k in s.readings ==> s.readings[k] == old(s.readings)[k])
        invariant old(s).platforms.created.Keys <= s.platforms.created.Keys
        invariant others == [] ==> s == old(s)
        invariant log + Occurring(s, others[i..], k) == old(log) + Occurring(old(s), others, k)
      {
        var e := others[i];
        NextOccurs(s, others[i..], k);
        assert others[i..][1..] == others[i + 1..];
        if !(e.Swept? && e.k == k) && Enabled(s, e) {
          SomeoneElseActs(s, e, k);
          CallsOfLast(log, e, k);
          DeedsOfLast(log, e, k);
          ghost var before := log;
          Happen(e);
          assert before + ([e] + Occurring(s, others[i + 1..], k)) == log + Occurring(s, others[i + 1..], k);
        }
        i := i + 1;
      }
      assert others[i..] == [] && Occurring(s, [], k) == [] by { NothingOccurs(s, k); }
    }

    /** Take one act of sweep `k`. */
    method Take(k: nat, act: Act)
      requires Valid() && Enabled(s, Swept(k, act))
      modifies this`s, this`log
      ensures Valid() && log == old(log) + [Swept(k, act)] && s == Apply(old(s), Swept(k, act))
      ensures CallsOf(log, k) == old(CallsOf(log, k)) + CallIn(act)
      ensures DeedsOf(log, k) == old(DeedsOf(log, k)) + DeedIn(act)
    {
      CallsOfLast(log, Swept(k, act), k);
      DeedsOfLast(log, Swept(k, act), k);
      Happen(Swept(k, act));
    }

    /** The outstanding rows are read, and then the clock; everyone else may act in between. */
    method Begin(k: nat, dryRun: bool, providers: set<string>) returns (ok: bool, ghost read: seq<Row>)
      requires Valid() && k !in s.sweeps && k !in s.readings
      modifies this
      ensures Valid() && old(log) <= log && CallsOf(log, k) == old(CallsOf(log, k))
      ensures DeedsOf(log, k) == old(DeedsOf(log, k))
      ensures ok ==> k in s.sweeps && s.sweeps[k] == Beginning(s, Outstanding(read), dryRun, providers, fleets)
      ensures !ok ==> k !in s.sweeps && k !in s.readings
      ensures Quiet() ==> ok && read == old(s).record && s.sweeps.Keys == old(s).sweeps.Keys + {k}
                          && s.readings.Keys == old(s).readings.Keys + {k}
      ensures Quiet() ==> Beside(old(s).(sweeps := s.sweeps, readings := s.readings), s)
      ensures Quiet() ==> s.platforms == old(s).platforms && s.record == old(s).record
    {
      hide Replay, IsRun, Sound, CallsOf, DeedsOf, Outstanding;
      var refused := Others(k);
      ok, read := !refused, [];
      if ok {
        read := s.record;
        Take(k, RecordRead);
        var late := Others(k);
        Take(k, Began(dryRun, providers, fleets));
      }
    }

    /** One page of a platform's listing, everyone else acting before it is read. */
    method ReadPage(k: nat, name: string, rows: Option<nat>, ghost walk: Walk)
      returns (shown: Option<seq<Machine>>, last: bool, ghost longer: Walk)
      requires Valid() && k in s.sweeps && name in s.sweeps[k].providers && name !in s.sweeps[k].asked
      requires HasNext(s.sweeps[k], name, rows) && walk == WalkOf(s.sweeps[k], name, rows) && walk.rows == rows
      modifies this
      ensures Valid() && old(log) <= log && CallsOf(log, k) == old(CallsOf(log, k)) && k in s.sweeps
      ensures DeedsOf(log, k) == old(DeedsOf(log, k))
      ensures shown.None? ==> s.sweeps[k] == old(s).sweeps[k]
      ensures shown.Some? ==>
                && s.sweeps[k] == old(s).sweeps[k].(walks := old(s).sweeps[k].walks[name := longer])
                && longer.rows == rows && |longer.standings| == |walk.standings| + 1
                && Listed(longer) == Listed(walk) + shown.value && last == Complete(longer)
      ensures Quiet() ==> Beside(old(s), s) && s.platforms == old(s).platforms && s.record == old(s).record
      ensures Quiet() ==> shown.Some?
      ensures Quiet() && Still(walk, s.platforms.RosterOf(name)) ==> Still(longer, s.platforms.RosterOf(name))
    {
      hide Replay, IsRun, Sound, CallsOf, DeedsOf, Complete, Listed, Still;
      longer, last := walk, false;
      var refused := Others(k);
      if refused {
        return None, false, walk;
      }
      var standing := s.platforms.RosterOf(name);
      var read := if name in s.sweeps[k].walks then |s.sweeps[k].walks[name].standings| else 0;
      shown := Some(Page(standing, read, rows));
      longer := Walk(rows, walk.standings + [standing]);
      OnePageMore(walk, standing);
      Take(k, PageRead(name, rows, standing));
      last := Complete(s.sweeps[k].walks[name]);
    }

    /** The pages of a platform's listing, to the last or to the hundredth. */
    method ReadPages(k: nat, name: string) returns (found: Option<seq<Machine>>, ghost walk: Walk)
      requires Valid() && k in s.sweeps && name in s.sweeps[k].providers && name !in s.sweeps[k].asked
      requires name !in s.sweeps[k].walks
      modifies this
      ensures Valid() && old(log) <= log && CallsOf(log, k) == old(CallsOf(log, k)) && k in s.sweeps
      ensures DeedsOf(log, k) == old(DeedsOf(log, k))
      ensures found.Some? ==> && s.sweeps[k] == old(s).sweeps[k].(walks := old(s).sweeps[k].walks[name := walk])
                              && walk.rows == PageSize(name) && Complete(walk) && found.value == Listed(walk)
      ensures found.None? ==> && s.sweeps[k] == old(s).sweeps[k].(walks := s.sweeps[k].walks)
                              && s.sweeps[k].walks.Keys <= old(s).sweeps[k].walks.Keys + {name}
      ensures Quiet() ==> Beside(old(s), s) && s.platforms == old(s).platforms && s.record == old(s).record
      ensures Quiet() ==> (found.Some? <==> Fits(s.platforms.RosterOf(name), PageSize(name)))
      ensures Quiet() && found.Some? ==> found.value == s.platforms.On(name)
    {
      hide Replay, IsRun, Sound, CallsOf, DeedsOf, Complete, Listed, Still, Fits;
      var rows, machines, page := PageSize(name), [], 0;
      walk := Walk(rows, []);
      NothingWalked(rows, s.platforms.RosterOf(name));
      while true
        invariant Valid() && old(log) <= log && CallsOf(log, k) == old(CallsOf(log, k)) && k in s.sweeps
        invariant DeedsOf(log, k) == old(DeedsOf(log, k))
        invariant 0 <= page < MAX_LIST_PAGES && |walk.standings| == page && walk.rows == rows
                  && machines == Listed(walk)
        invariant s.sweeps[k] == if page == 0 then old(s).sweeps[k]
                                 else old(s).sweeps[k].(walks := old(s).sweeps[k].walks[name := walk])
        invariant page > 0 ==> !Complete(walk)
        invariant Quiet() ==> Beside(old(s), s) && s.platforms == old(s).platforms && s.record == old(s).record
        invariant Quiet() ==> Still(walk, s.platforms.RosterOf(name))
        decreases MAX_LIST_PAGES - page
      {
        var shown, last;
        shown, last, walk := ReadPage(k, name, rows, walk);
        if shown.None? {
          return None, walk;
        }
        machines := machines + shown.value;
        page := page + 1;
        if last {
          if Quiet() {
            UndisturbedIsWhole(walk, s.platforms.RosterOf(name));
            CompleteFits(walk, s.platforms.RosterOf(name));
          }
          return Some(machines), walk;
        }
        if page >= MAX_LIST_PAGES {
          if Quiet() {
            UnstillIsTooMany(walk, s.platforms.RosterOf(name));
          }
          return None, walk;
        }
      }
    }

    /** A platform that could not be listed is asked no more. */
    method GiveUp(k: nat, name: string)
      requires Valid() && k in s.sweeps && name in s.sweeps[k].providers && name !in s.sweeps[k].asked
      modifies this
      ensures Valid() && old(log) <= log && CallsOf(log, k) == old(CallsOf(log, k)) && k in s.sweeps
      ensures DeedsOf(log, k) == old(DeedsOf(log, k)) + [ListingFailed(name)]
      ensures s.sweeps[k] == old(s).sweeps[k].(asked := old(s).sweeps[k].asked + {name})
      ensures Beside(old(s), s) && s.platforms == old(s).platforms && s.record == old(s).record
    {
      hide Replay, IsRun, Sound, CallsOf, DeedsOf;
      Take(k, ListingFailed(name));
    }

    /** A complete walk makes a listing. */
    method Conclude(k: nat, name: string, machines: seq<Machine>)
      requires Valid() && k in s.sweeps && name in s.sweeps[k].providers && name !in s.sweeps[k].asked
      requires name in s.sweeps[k].walks && Complete(s.sweeps[k].walks[name])
               && machines == Listed(s.sweeps[k].walks[name])
      modifies this
      ensures Valid() && old(log) <= log && CallsOf(log, k) == old(CallsOf(log, k)) && k in s.sweeps
      ensures DeedsOf(log, k) == old(DeedsOf(log, k)) + [ListingTaken(name, machines)]
      ensures var a := old(s).sweeps[k];
              s.sweeps[k] == a.(asked := a.asked + {name}, listed := a.listed[name := machines])
      ensures Beside(old(s), s) && s.platforms == old(s).platforms && s.record == old(s).record
    {
      hide Replay, IsRun, Sound, CallsOf, DeedsOf, Complete, Listed;
      Take(k, ListingTaken(name, machines));
    }

    /** Ask one platform what runs on it: it must be one this tool knows and holds the key of, and every page
        must be read, of no more than a hundred. */
    method Listing(k: nat, name: string) returns (r: Result<seq<Machine>, Reason>)
      requires Valid() && k in s.sweeps && name in s.sweeps[k].providers && name !in s.sweeps[k].asked
      requires name !in s.sweeps[k].walks
      modifies this
      ensures Valid() && old(log) <= log && CallsOf(log, k) == old(CallsOf(log, k))
      ensures DeedsOf(log, k) ==
              old(DeedsOf(log, k)) + [if r.Ok? then ListingTaken(name, r.value) else ListingFailed(name)]
      ensures k in s.sweeps
      ensures OnlyAsked(old(s).sweeps[k], s.sweeps[k], name, if r.Ok? then Some(r.value) else None)
      ensures r.Ok? ==> name in fleets && name in s.sweeps[k].walks && s.sweeps[k].walks[name].rows == PageSize(name)
      ensures r.Ok? ==> Complete(s.sweeps[k].walks[name]) && r.value == Listed(s.sweeps[k].walks[name])
      ensures Quiet() ==> Beside(old(s), s) && s.platforms == old(s).platforms && s.record == old(s).record
      ensures name !in fleets <==> r == Err(UnknownProvider)
      ensures name in fleets && name !in keys <==> r == Err(CredentialMissing)
      ensures r.Err? && name in fleets && name in keys ==> r == Err(CallFailed)
      ensures Quiet() ==> r == Reply(old(s), name)
    {
      hide Replay, IsRun, Sound, CallsOf, DeedsOf, Complete, Listed, Fits;
      if name !in fleets {
        GiveUp(k, name);
        return Err(UnknownProvider);
      }
      if name !in keys {
        GiveUp(k, name);
        return Err(CredentialMissing);
      }
      var found;
      ghost var walk;
      found, walk := ReadPages(k, name);
      if found.None? {
        GiveUp(k, name);
        return Err(CallFailed);
      }
      Conclude(k, name, found.value);
      return Ok(found.value);
    }

    /** One gate reading. */
    method AskGate(k: nat, id: string) returns (gate: Gate)
      requires Valid() && k in s.sweeps
      modifies this
      ensures Valid() && old(log) <= log && CallsOf(log, k) == old(CallsOf(log, k))
      ensures DeedsOf(log, k) == old(DeedsOf(log, k)) + [GateRead(id, gate)]
      ensures k in s.sweeps && s.sweeps[k] ==
              var a := old(s).sweeps[k];
              a.(cleared := if gate == Clear then a.cleared + {id} else a.cleared - {id})
      ensures old(s).platforms.created.Keys <= s.platforms.created.Keys
      ensures Quiet() ==> gate == GateOf(Some(old(s).ledger), id)
      ensures Quiet() ==> Beside(old(s), s) && s.platforms == old(s).platforms && s.record == old(s).record
    {
      hide Replay, IsRun, Sound, CallsOf, DeedsOf, GateOf;
      var refused := Others(k);
      gate := if refused then GateOf(None, id) else GateOf(Some(s.ledger), id);
      Take(k, GateRead(id, gate));
    }

    /** Run one release command. */
    method RunRelease(k: nat, argv: seq<string>, id: string) returns (call: Call)
      requires Valid() && k in s.sweeps && id in s.platforms.created
      requires var a := s.sweeps[k];
               !a.dryRun && id in a.cleared && (DueByStamp(a, id, argv) || DueByRecord(a, id, argv))
      modifies this
      ensures Valid() && old(log) <= log
      ensures CallsOf(log, k) == old(CallsOf(log, k)) + Made(id, call)
      ensures DeedsOf(log, k) == old(DeedsOf(log, k)) + Ran(id, argv, call)
      ensures k in s.sweeps && s.sweeps[k] ==
              var a := old(s).sweeps[k]; a.(freed := if call.Succeeded? then a.freed + {id} else a.freed)
      ensures if argv == [] then call == NotMade(NoCommand) else !call.NotMade?
      ensures call.NotMade? ==> s == old(s)
      ensures Quiet() ==> Beside(old(s), s) && s.record == old(s).record
      ensures Quiet() && argv != [] ==> call == Succeeded && s.platforms == old(s).platforms.Ending(id)
    {
      hide Replay, IsRun, Sound, CallsOf, DeedsOf, DueByStamp, DueByRecord;
      if argv == [] {
        return NotMade(NoCommand);
      }
      var refused := Others(k);
      if refused {
        Take(k, ReleaseCalled(id, argv, false));
        return FailedWith(CallFailed);
      }
      Take(k, ReleaseCalled(id, argv, true));
      return Succeeded;
    }

    /** Append the correction that retires a row. A failure is said and not raised. */
    method Retire(k: nat, row: Row)
      requires Valid() && k in s.sweeps
      requires var a := s.sweeps[k]; !a.dryRun && row in a.rows && (row.id in a.freed || GoneByListing(a, row))
      modifies this
      ensures Valid() && old(log) <= log && CallsOf(log, k) == old(CallsOf(log, k))
      ensures DeedsOf(log, k) == old(DeedsOf(log, k))
      ensures k in s.sweeps && s.sweeps[k] == old(s).sweeps[k]
      ensures Quiet() ==> Beside(old(s), s) && s.platforms == old(s).platforms
                          && s.record == old(s).record + [Correction(row, old(s).clock)]
    {
      hide Replay, IsRun, Sound, CallsOf, DeedsOf, GoneByListing;
      var refused := Others(k);
      if !refused {
        Take(k, CorrectionWritten(row));
      }
    }
  }
}
