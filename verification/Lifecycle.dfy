/** Everything that can happen to the machines, the record and the ledger, as one step system:
    acquires, operators, applies, platforms ending machines by themselves, and any number of sweeps
    interleaved with all of them and with each other. Any call may fail; a failed call is a step
    that did not happen.

    Assumed of the platforms: an id names one machine, on one platform, and is never used again; a page
    that is read shows the rows standing on it at that moment, in an order new ones join at the end and a
    row leaves only after its machine has ended; and after a release that exits zero the machine it names
    is not running. */
module Lifecycle {
  import opened Wrappers
  import opened Text
  import opened Lease
  import opened Records
  import opened Fleets
  import opened Pages
  import opened Sweep

  // ---- The platforms ----

  /** The rows every platform lists, in order; the platform each id was ever created on; and the machines
      that have ended. A platform may go on listing a row whose machine has ended, until it drops it. */
  datatype Platforms = Platforms(fleet: map<string, seq<Machine>>, created: map<string, string>, ended: set<string>) {
    function RowsOf(provider: string): seq<Machine> {
      if provider in fleet then fleet[provider] else []
    }

    function RosterOf(provider: string): Roster { Roster(RowsOf(provider), ended) }

    /** The machines running on a platform, in listing order. */
    function On(provider: string): seq<Machine> { Without(RowsOf(provider), ended) }

    predicate Running(id: string) {
      id in created && id !in ended
    }

    /** It existed, and does not any more. */
    predicate Ended(id: string) { id in ended }

    /** A platform lists each machine once, and only machines created on it; and a machine is listed until
        it ends. */
    predicate Sound() {
      && ended <= created.Keys
      && (forall p :: p in fleet ==>
            DistinctMachines(fleet[p]) && (forall m :: m in fleet[p] ==> m.id in created && created[m.id] == p))
      && (forall id :: id in created && id !in ended ==> id in Ids(RowsOf(created[id])))
    }

    function Adding(provider: string, machine: Machine): Platforms {
      this.(fleet := fleet[provider := RowsOf(provider) + [machine]], created := created[machine.id := provider])
    }

    function Ending(id: string): Platforms { this.(ended := ended + {id}) }

    function Dropping(id: string): Platforms
      requires id in created
    {
      this.(fleet := fleet[created[id] := Without(RowsOf(created[id]), {id})])
    }

    function Renaming(id: string, name: Option<string>): Platforms
      requires id in created
    {
      this.(fleet := fleet[created[id] := Renamed(RowsOf(created[id]), id, name)])
    }
  }

  function Renamed(machines: seq<Machine>, id: string, name: Option<string>): (r: seq<Machine>)
    ensures |r| == |machines|
    ensures forall i :: 0 <= i < |r| ==>
              r[i] == if machines[i].id == id then Machine(id, name) else machines[i]
  {
    seq(|machines|, i requires 0 <= i < |machines| =>
      if machines[i].id == id then Machine(id, name) else machines[i])
  }

  lemma RenamedIds(machines: seq<Machine>, id: string, name: Option<string>)
    ensures Ids(Renamed(machines, id, name)) == Ids(machines)
    ensures DistinctMachines(machines) ==> DistinctMachines(Renamed(machines, id, name))
  {
    var r := Renamed(machines, id, name);
    assert forall i :: 0 <= i < |r| ==> r[i] in r && machines[i] in machines && r[i].id == machines[i].id;
    forall x
      ensures x in Ids(r) <==> x in Ids(machines)
    {
      if m :| m in r && m.id == x {
        var i :| 0 <= i < |r| && r[i] == m;
        assert machines[i].id == x;
      }
      if m :| m in machines && m.id == x {
        var i :| 0 <= i < |machines| && machines[i] == m;
        assert r[i].id == x;
      }
    }
  }

  /** A platform runs the machines it lists that have not ended. */
  lemma RunsThere(w: Platforms, provider: string)
    ensures forall m :: m in w.On(provider) <==> m in w.RowsOf(provider) && !w.Ended(m.id)
    ensures DistinctMachines(w.RowsOf(provider)) ==> DistinctMachines(w.On(provider))
  {
    WithoutKeeps(w.RowsOf(provider), w.ended);
  }

  /** An order of machines that were created, once the platform's has moved on from it, stays one the
      platform's has moved on from. */
  ghost predicate OrdersKept(w: Platforms, w': Platforms) {
    forall p, ids: seq<string> :: (forall id :: id in ids ==> id in w.created) && Follows(ids, Order(w.RowsOf(p)))
      ==> Follows(ids, Order(w'.RowsOf(p)))
  }

  /** What has ended stays ended, no id changes platform, and orders are kept. */
  ghost predicate Grown(w: Platforms, w': Platforms) {
    && w.ended <= w'.ended
    && (forall id :: id in w.created ==> id in w'.created && w'.created[id] == w.created[id])
    && OrdersKept(w, w')
  }

  lemma AddingKeeps(w: Platforms, provider: string, machine: Machine)
    requires w.Sound() && machine.id !in w.created
    ensures w.Adding(provider, machine).Sound()
    ensures Grown(w, w.Adding(provider, machine))
  {
    hide Follows;
    var w' := w.Adding(provider, machine);
    assert Order(w'.RowsOf(provider)) == Order(w.RowsOf(provider)) + [machine.id];
    forall p, ids: seq<string> | (forall id :: id in ids ==> id in w.created) && Follows(ids, Order(w.RowsOf(p)))
      ensures Follows(ids, Order(w'.RowsOf(p)))
    {
      if p == provider {
        FollowsAdding(ids, Order(w.RowsOf(p)), machine.id);
      }
    }
    forall id | id in w'.created && id !in w'.ended
      ensures id in Ids(w'.RowsOf(w'.created[id]))
    {
      IdsJoin(w.RowsOf(provider), [machine], id);
    }
  }

  lemma EndingKeeps(w: Platforms, id: string)
    requires w.Sound() && id in w.created
    ensures w.Ending(id).Sound() && w.Ending(id).Ended(id)
    ensures Grown(w, w.Ending(id))
  {
    hide Follows;
    assert forall p :: w.Ending(id).RowsOf(p) == w.RowsOf(p);
  }

  lemma DroppingKeeps(w: Platforms, id: string)
    requires w.Sound() && w.Ended(id)
    ensures w.Dropping(id).Sound()
    ensures Grown(w, w.Dropping(id))
  {
    hide Follows;
    var home, w' := w.created[id], w.Dropping(id);
    WithoutKeeps(w.RowsOf(home), {id});
    OrderOfWithout(w.RowsOf(home), id);
    forall p, ids: seq<string> | (forall x :: x in ids ==> x in w.created) && Follows(ids, Order(w.RowsOf(p)))
      ensures Follows(ids, Order(w'.RowsOf(p)))
    {
      if p == home {
        FollowsEnding(ids, Order(w.RowsOf(p)), id);
      }
    }
    forall other | other in w'.created && other !in w'.ended
      ensures other in Ids(w'.RowsOf(w'.created[other]))
    {
      IdsWithout(w.RowsOf(home), {id}, other);
    }
  }

  lemma RenamingKeeps(w: Platforms, id: string, name: Option<string>)
    requires w.Sound() && id in w.created
    ensures w.Renaming(id, name).Sound()
    ensures Grown(w, w.Renaming(id, name))
  {
    RenamedIds(w.RowsOf(w.created[id]), id, name);
    assert Order(Renamed(w.RowsOf(w.created[id]), id, name)) == Order(w.RowsOf(w.created[id]));
    var after := w.Renaming(id, name);
    forall p | p in after.fleet
      ensures forall m :: m in after.fleet[p] ==> m.id in w.created && w.created[m.id] == p
    {
      forall m | m in after.fleet[p]
        ensures m.id in w.created && w.created[m.id] == p
      {
        assert m.id in Ids(after.fleet[p]);
        assert Ids(after.fleet[p]) == Ids(w.RowsOf(p));
      }
    }
  }

  // ---- The world ----

  /** What one sweep has learned and done so far. Of each listing it keeps what the platform listed when each
      page was read; the sweep itself saw only the pages. */
  datatype Agent = Agent(
    dryRun: bool,
    now: Timestamp,
    providers: set<string>,
    templates: map<string, seq<string>>,
    rows: seq<Row>,
    asked: set<string>,
    walks: map<string, Walk>,
    listed: map<string, seq<Machine>>,
    cleared: set<string>,
    freed: set<string>)

  /** `readings` holds the outstanding rows each sweep read before it began; `lost`, the machines whose rows
      a sweep retired while they had not ended. */
  datatype State = State(
    platforms: Platforms,
    leases: map<string, Timestamp>,
    record: seq<Row>,
    ledger: seq<LedgerRow>,
    clock: Timestamp,
    returned: set<string>,
    lost: set<string>,
    readings: map<nat, seq<Row>>,
    sweeps: map<nat, Agent>)

  const GENESIS := State(Platforms(map[], map[], {}), map[], [], [], 0, {}, {}, map[], map[])

  // ---- What can happen ----

  datatype Event =
    | Created(id: string, provider: string, lease: Timestamp)
    | Recorded(row: Row)
    | StrangerCreated(id: string, provider: string, name: Option<string>)
    | Relabelled(id: string, name: Option<string>)
    | EndedByItself(id: string)
    | RowDropped(id: string)
    | OperatorReleased(id: string)
    | OperatorRecorded(id: string, readable: bool, provider: string, release: seq<string>, profileHash: string)
    | Applied(apply: LedgerRow)
    | Ticked(to: Timestamp)
    | Swept(k: nat, act: Act)

  /** What a sweep does that anything else can see, or that it later acts on. */
  datatype Act =
    | RecordRead
    | Began(dryRun: bool, providers: set<string>, templates: map<string, seq<string>>)
    | PageRead(provider: string, rows: Option<nat>, standing: Roster)
    | ListingTaken(provider: string, machines: seq<Machine>)
    | ListingFailed(provider: string)
    | GateRead(id: string, gate: Gate)
    | ReleaseCalled(id: string, argv: seq<string>, succeeded: bool)
    | CorrectionWritten(row: Row)

  /** The ids the listings of a sweep settle: every listed machine that carried a lease. */
  function HandledIn(a: Agent): set<string> {
    set p, m | p in a.listed && m in a.listed[p] && StandingOf(m, a.now) != Unknown :: m.id
  }

  function ListedIn(a: Agent): map<string, set<string>> {
    map p | p in a.listed :: Ids(a.listed[p])
  }

  /** The platform half's ground for a release by this command: listed, with a stamp whose lease is reached,
      on a platform whose release template the command is, with the id put in. */
  predicate DueByStamp(a: Agent, id: string, argv: seq<string>) {
    exists p :: p in a.listed && p in a.templates && argv == Substituted(a.templates[p], id)
      && exists m :: m in a.listed[p] && m.id == id && StandingOf(m, a.now) == Standing.Expired
  }

  predicate RowIsDue(a: Agent, row: Row) {
    Place(row, HandledIn(a), ListedIn(a)) == Judge && row.expiresAt.Some? && row.expiresAt.value <= a.now
  }

  /** The record half's: every platform has been asked, none of them settled this machine or was
      listed without it, the recorded lease is reached, and the command is the one the row records, with
      the id put in. */
  predicate DueByRecord(a: Agent, id: string, argv: seq<string>) {
    && a.asked == a.providers
    && exists row :: row in a.rows && row.id == id && RowIsDue(a, row) && argv == Substituted(row.release, id)
  }

  predicate GoneByListing(a: Agent, row: Row) {
    a.asked == a.providers && Place(row, HandledIn(a), ListedIn(a)) == Gone
  }

  /** The walk of a platform's pages so far. */
  function WalkOf(a: Agent, p: string, rows: Option<nat>): Walk {
    if p in a.walks then a.walks[p] else Walk(rows, [])
  }

  /** There is a next page to read, of the size the walk began with. */
  predicate HasNext(a: Agent, p: string, rows: Option<nat>) {
    (rows.Some? ==> rows.value > 0) && (p in a.walks ==> a.walks[p].rows == rows && !Complete(a.walks[p]))
  }

  /** When a sweep in progress may take an act. */
  predicate May(s: State, a: Agent, act: Act) {
    match act
    case RecordRead => false
    case Began(_, _, _) => false
    case PageRead(p, rows, standing) =>
      p in a.providers && p !in a.asked && HasNext(a, p, rows) && standing == s.platforms.RosterOf(p)
    case ListingTaken(p, machines) =>
      p in a.providers && p !in a.asked && p in a.walks && Complete(a.walks[p]) && machines == Listed(a.walks[p])
    case ListingFailed(p) => p in a.providers && p !in a.asked
    case GateRead(id, gate) => gate == GateOf(Some(s.ledger), id) || gate == GateOf(None, id)
    case ReleaseCalled(id, argv, _) =>
      && !a.dryRun && id in s.platforms.created && id in a.cleared
      && argv != [] && (DueByStamp(a, id, argv) || DueByRecord(a, id, argv))
    case CorrectionWritten(row) => !a.dryRun && row in a.rows && (row.id in a.freed || GoneByListing(a, row))
  }

  predicate Enabled(s: State, e: Event) {
    match e
    case Created(id, _, _) => id !in s.platforms.created
    case Recorded(row) =>
      // Acquire has created the machine before it appends this row, and both carry one lease.
      row.releasedAt.None? && row.id in s.leases && row.id in s.platforms.created
      && row.provider == s.platforms.created[row.id] && row.expiresAt == Some(s.leases[row.id])
    case StrangerCreated(id, _, _) => id !in s.platforms.created
    case Relabelled(id, _) => id in s.platforms.created
    case EndedByItself(id) => id in s.platforms.created
    case RowDropped(id) => id in s.platforms.created && s.platforms.Ended(id)
    case OperatorReleased(id) => id in s.platforms.created
    case OperatorRecorded(id, _, _, _, _) => id in s.returned
    case Applied(_) => true
    case Ticked(to) => s.clock <= to
    case Swept(k, act) =>
      if act.RecordRead? then k !in s.readings
      else if act.Began? then k in s.readings && k !in s.sweeps
      else k in s.sweeps && May(s, s.sweeps[k], act)
  }

  /** What a sweep knows after an act. */
  function Learned(a: Agent, act: Act): Agent {
    match act
    case RecordRead => a
    case Began(_, _, _) => a
    case PageRead(p, rows, standing) =>
      a.(walks := a.walks[p := Walk(rows, WalkOf(a, p, rows).standings + [standing])])
    case ListingTaken(p, machines) => a.(asked := a.asked + {p}, listed := a.listed[p := machines])
    case ListingFailed(p) => a.(asked := a.asked + {p})
    case GateRead(id, gate) => a.(cleared := if gate == Clear then a.cleared + {id} else a.cleared - {id})
    case ReleaseCalled(id, _, succeeded) => if succeeded then a.(freed := a.freed + {id}) else a
    case CorrectionWritten(_) => a
  }

  /** A sweep begins with the rows it read and the clock as it now is. */
  function Beginning(s: State, rows: seq<Row>, dryRun: bool, providers: set<string>,
                     templates: map<string, seq<string>>): Agent {
    Agent(dryRun, s.clock, providers, templates, rows, {}, map[], map[], {}, {})
  }

  function PlatformsAfter(s: State, e: Event): Platforms
    requires Enabled(s, e)
  {
    match e
    case Created(id, p, lease) => s.platforms.Adding(p, Machine(id, Some(ExpiryStamp(lease))))
    case StrangerCreated(id, p, name) => s.platforms.Adding(p, Machine(id, name))
    case Relabelled(id, name) => s.platforms.Renaming(id, name)
    case EndedByItself(id) => s.platforms.Ending(id)
    case RowDropped(id) => s.platforms.Dropping(id)
    case OperatorReleased(id) => s.platforms.Ending(id)
    case Swept(_, act) =>
      if act.ReleaseCalled? && act.succeeded then s.platforms.Ending(act.id) else s.platforms
    case _ => s.platforms
  }

  function RecordAfter(s: State, e: Event): seq<Row> {
    match e
    case Recorded(row) => s.record + [row]
    case OperatorRecorded(id, readable, provider, release, profileHash) =>
      s.record + [CorrectionRow(if readable then Some(s.record) else None,
                                id, provider, release, profileHash, s.clock)]
    case Swept(_, act) =>
      if act.CorrectionWritten? then s.record + [Correction(act.row, s.clock)] else s.record
    case _ => s.record
  }

  function SweepsAfter(s: State, e: Event): map<nat, Agent>
    requires Enabled(s, e)
  {
    match e
    case Swept(k, act) =>
      if act.RecordRead? then s.sweeps
      else s.sweeps[k := if act.Began? then Beginning(s, s.readings[k], act.dryRun, act.providers, act.templates)
                         else Learned(s.sweeps[k], act)]
    case _ => s.sweeps
  }

  function Apply(s: State, e: Event): State
    requires Enabled(s, e)
  {
    State(PlatformsAfter(s, e),
          if e.Created? then s.leases[e.id := e.lease] else s.leases,
          RecordAfter(s, e),
          if e.Applied? then s.ledger + [e.apply] else s.ledger,
          if e.Ticked? then e.to else s.clock,
          if e.OperatorReleased? then s.returned + {e.id} else s.returned,
          if e.Swept? && e.act.CorrectionWritten? && !s.platforms.Ended(e.act.row.id) then s.lost + {e.act.row.id}
          else s.lost,
          if e.Swept? && e.act.RecordRead? then s.readings[e.k := Outstanding(s.record)] else s.readings,
          SweepsAfter(s, e))
  }

  // ---- Runs ----

  /** Where a list of events leads, those that cannot happen being skipped. */
  function Replay(log: seq<Event>): State {
    if log == [] then GENESIS
    else
      var s := Replay(log[..|log| - 1]);
      if Enabled(s, log[|log| - 1]) then Apply(s, log[|log| - 1]) else s
  }

  /** Every event could happen when it did. */
  predicate IsRun(log: seq<Event>) {
    forall i :: 0 <= i < |log| ==> Enabled(Replay(log[..i]), log[i])
  }

  lemma RunPrefix(log: seq<Event>, n: nat)
    requires IsRun(log) && n <= |log|
    ensures IsRun(log[..n])
  {
    hide Replay, Enabled;
    forall i | 0 <= i < n
      ensures Enabled(Replay(log[..n][..i]), log[..n][i])
    {
      assert log[..n][..i] == log[..i];
    }
  }

  lemma RunStep(log: seq<Event>, n: nat)
    requires IsRun(log) && n < |log|
    ensures Enabled(Replay(log[..n]), log[n])
    ensures Replay(log[..n + 1]) == Apply(Replay(log[..n]), log[n])
  {
    hide Enabled, Apply;
    assert log[..n + 1][..n] == log[..n];
  }

  /** A run that is not empty is a shorter run and one more event. */
  lemma LastStep(log: seq<Event>) returns (before: seq<Event>, e: Event)
    requires IsRun(log) && log != []
    ensures log == before + [e] && IsRun(before) && Enabled(Replay(before), e)
    ensures Replay(log) == Apply(Replay(before), e)
  {
    hide Enabled, Apply;
    var n := |log| - 1;
    before, e := log[..n], log[n];
    RunPrefix(log, n);
    RunStep(log, n);
    assert log[..n + 1] == log;
  }

  lemma RunExtends(log: seq<Event>, e: Event)
    requires IsRun(log) && Enabled(Replay(log), e)
    ensures IsRun(log + [e]) && Replay(log + [e]) == Apply(Replay(log), e)
  {
    hide Enabled, Apply;
    var longer := log + [e];
    assert longer[..|log|] == log;
    forall i | 0 <= i < |longer|
      ensures Enabled(Replay(longer[..i]), longer[i])
    {
      if i < |log| { assert longer[..i] == log[..i]; }
    }
  }

  // ---- What every run keeps ----

  /** An acquisition row names a machine this tool created, under its platform and its lease; a
      correction names one that has ended, or one that was lost. */
  predicate RowSound(w: Platforms, leases: map<string, Timestamp>, lost: set<string>, row: Row) {
    if row.releasedAt.None? then
      row.id in leases && row.id in w.created && w.created[row.id] == row.provider
      && row.expiresAt == Some(leases[row.id])
    else w.Ended(row.id) || row.id in lost
  }

  predicate ListingSound(w: Platforms, p: string, machines: seq<Machine>) {
    DistinctMachines(machines) && forall m :: m in machines ==> m.id in w.created && w.created[m.id] == p
  }

  /** The standings of a walk are of this platform, each moved on from the ones before it, and the platform
      now moved on from each. */
  ghost predicate WalkSound(w: Platforms, p: string, walk: Walk) {
    && (walk.rows.Some? ==> walk.rows.value > 0)
    && Chained(walk.standings)
    && (forall n :: 0 <= n < |walk.standings| ==>
          ListingSound(w, p, walk.standings[n].rows) && MovedOn(walk.standings[n], w.RosterOf(p)))
  }

  /** A machine of a row that was not running when some page was read has ended. */
  predicate AbsenceSound(w: Platforms, walk: Walk, id: string) {
    forall n :: 0 <= n < |walk.standings| && !walk.standings[n].Lives(id) ==> w.Ended(id)
  }

  predicate RowsRead(w: Platforms, leases: map<string, Timestamp>, rows: seq<Row>) {
    forall row :: row in rows ==> row.releasedAt.None? && RowSound(w, leases, {}, row)
  }

  ghost predicate AgentSound(s: State, a: Agent) {
    && a.listed.Keys <= a.asked <= a.providers && a.listed.Keys <= a.walks.Keys
    && (forall id :: id in a.freed ==> s.platforms.Ended(id))
    && (forall p :: p in a.walks ==> WalkSound(s.platforms, p, a.walks[p]))
    && (forall p :: p in a.listed ==>
          Complete(a.walks[p]) && a.listed[p] == Listed(a.walks[p]) && ListingSound(s.platforms, p, a.listed[p]))
    && RowsRead(s.platforms, s.leases, a.rows)
    && (forall row :: row in a.rows && row.provider in a.walks ==>
          AbsenceSound(s.platforms, a.walks[row.provider], row.id))
  }

  /** A lost machine's row is one the record has as returned. */
  predicate LostAreReturned(s: State) {
    forall id :: id in s.lost ==> exists row :: row in s.record && row.id == id && row.releasedAt.Some?
  }

  ghost predicate Sound(s: State) {
    && s.platforms.Sound()
    && s.leases.Keys <= s.platforms.created.Keys
    && (forall row :: row in s.record ==> RowSound(s.platforms, s.leases, s.lost, row))
    && (forall id :: id in s.returned ==> s.platforms.Ended(id))
    && LostAreReturned(s)
    && (forall k :: k in s.readings ==> RowsRead(s.platforms, s.leases, s.readings[k]))
    && (forall k :: k in s.sweeps ==> AgentSound(s, s.sweeps[k]))
  }

  /** What a step can do to the machines: a machine that has ended stays ended, and no id changes
      platform or lease. */
  ghost predicate Later(w: Platforms, leases: map<string, Timestamp>, w': Platforms, leases': map<string, Timestamp>) {
    && (forall id :: w.Ended(id) ==> w'.Ended(id))
    && (forall id :: id in w.created ==> id in w'.created && w'.created[id] == w.created[id])
    && (forall id :: id in leases ==> id in leases' && leases'[id] == leases[id])
    && OrdersKept(w, w')
  }

  lemma StaysAsItIs(w: Platforms)
    ensures Grown(w, w)
  {
  }

  lemma ReleasedWasCreated(s: State, e: Event)
    requires Enabled(s, e) && e.Swept? && e.act.ReleaseCalled?
    ensures e.act.id in s.platforms.created
  {
    hide GateOf, DueByStamp, DueByRecord;
  }

  lemma PlatformsStep(s: State, e: Event)
    requires s.platforms.Sound() && Enabled(s, e)
    ensures PlatformsAfter(s, e).Sound() && Grown(s.platforms, PlatformsAfter(s, e))
  {
    hide May, ExpiryStamp, Outstanding, Without, Renamed, Grown, Platforms.Sound;
    StaysAsItIs(s.platforms);
    match e
    case Created(id, p, lease) => AddingKeeps(s.platforms, p, Machine(id, Some(ExpiryStamp(lease))));
    case StrangerCreated(id, p, name) => AddingKeeps(s.platforms, p, Machine(id, name));
    case Relabelled(id, name) => RenamingKeeps(s.platforms, id, name);
    case EndedByItself(id) => EndingKeeps(s.platforms, id);
    case RowDropped(id) => DroppingKeeps(s.platforms, id);
    case OperatorReleased(id) => EndingKeeps(s.platforms, id);
    case Swept(_, act) =>
      if act.ReleaseCalled? {
        ReleasedWasCreated(s, e);
        EndingKeeps(s.platforms, act.id);
      }
    case _ =>
  }

  lemma StepIsLater(s: State, e: Event)
    requires s.platforms.Sound() && s.leases.Keys <= s.platforms.created.Keys && Enabled(s, e)
    ensures var s' := Apply(s, e);
            && s'.platforms.Sound() && s'.leases.Keys <= s'.platforms.created.Keys
            && Later(s.platforms, s.leases, s'.platforms, s'.leases)
  {
    hide May, ExpiryStamp, RecordAfter, SweepsAfter, OrdersKept, Outstanding, Without, Renamed, Platforms.Sound;
    PlatformsStep(s, e);
    if e.Created? {
      assert e.id !in s.platforms.created && e.id in Apply(s, e).platforms.created;
    }
    hide Enabled, PlatformsAfter;
  }

  lemma WalkStaysSound(w: Platforms, w': Platforms, leases: map<string, Timestamp>, leases': map<string, Timestamp>,
                       p: string, walk: Walk)
    requires WalkSound(w, p, walk) && Later(w, leases, w', leases') && w'.Sound()
    ensures WalkSound(w', p, walk)
  {
    hide Follows, Distinct, Chained;
    forall n | 0 <= n < |walk.standings|
      ensures ListingSound(w', p, walk.standings[n].rows) && MovedOn(walk.standings[n], w'.RosterOf(p))
    {
      var before := walk.standings[n];
      OrderIsIds(before.rows);
      OrderIsIds(w'.RowsOf(p));
      assert forall id :: id in w.ended ==> w.Ended(id);
      assert Follows(before.Ids(), Order(w.RowsOf(p)));
    }
  }

  /** What a sweep knew stays true as the world moves on. */
  lemma KnowledgeLasts(s: State, s': State, a: Agent)
    requires AgentSound(s, a) && Later(s.platforms, s.leases, s'.platforms, s'.leases) && s'.platforms.Sound()
    ensures AgentSound(s', a)
  {
    hide WalkSound, OrdersKept;
    forall p | p in a.walks
      ensures WalkSound(s'.platforms, p, a.walks[p])
    {
      WalkStaysSound(s.platforms, s'.platforms, s.leases, s'.leases, p, a.walks[p]);
    }
  }

  /** One more page: the order it was read in follows those before it, and the platform's follows it. */
  lemma PageReadIsSound(s: State, s': State, a: Agent, p: string, rows: Option<nat>)
    requires Sound(s) && AgentSound(s, a) && HasNext(a, p, rows)
    requires Later(s.platforms, s.leases, s'.platforms, s'.leases) && s'.platforms.Sound()
    ensures WalkSound(s'.platforms, p, Walk(rows, WalkOf(a, p, rows).standings + [s.platforms.RosterOf(p)]))
  {
    hide Follows, Distinct, RowsRead, LostAreReturned;
    var walk, now := WalkOf(a, p, rows), s.platforms.RosterOf(p);
    var longer := Walk(rows, walk.standings + [now]);
    FollowsItself(now.Ids());
    assert Distinct(now.Ids()) by { StandingIsDistinct(s.platforms, p); }
    assert ListingSound(s.platforms, p, now.rows);
    assert MovedOn(now, now);
    hide MovedOn;
    assert p in a.walks ==> WalkSound(s.platforms, p, walk);
    assert WalkSound(s.platforms, p, longer);
    WalkStaysSound(s.platforms, s'.platforms, s.leases, s'.leases, p, longer);
  }

  lemma StandingIsDistinct(w: Platforms, p: string)
    requires w.Sound()
    ensures Distinct(w.RosterOf(p).Ids()) && ListingSound(w, p, w.RowsOf(p))
  {
  }

  /** A machine of a row that is not running when a page is read has ended. */
  lemma AbsentHasEnded(s: State, a: Agent, p: string, rows: Option<nat>, row: Row)
    requires Sound(s) && AgentSound(s, a) && row in a.rows && row.provider == p
    ensures AbsenceSound(s.platforms, Walk(rows, WalkOf(a, p, rows).standings + [s.platforms.RosterOf(p)]), row.id)
  {
    hide WalkSound, MovedOn, Distinct, LostAreReturned;
    var standings, now := WalkOf(a, p, rows).standings, s.platforms.RosterOf(p);
    OrderIsIds(now.rows);
    assert RowSound(s.platforms, s.leases, {}, row);
    forall n | 0 <= n < |standings + [now]| && !(standings + [now])[n].Lives(row.id)
      ensures s.platforms.Ended(row.id)
    {
      if n == |standings| {
        assert (standings + [now])[n] == now;
      }
    }
  }

  lemma PageReadMissesOnlyTheEnded(s: State, s': State, a: Agent, p: string, rows: Option<nat>)
    requires Sound(s) && AgentSound(s, a) && Later(s.platforms, s.leases, s'.platforms, s'.leases)
    ensures forall row :: row in a.rows && row.provider == p ==>
              AbsenceSound(s'.platforms, Walk(rows, WalkOf(a, p, rows).standings + [s.platforms.RosterOf(p)]), row.id)
  {
    hide Sound, AgentSound, OrdersKept;
    forall row | row in a.rows && row.provider == p
      ensures AbsenceSound(s'.platforms, Walk(rows, WalkOf(a, p, rows).standings + [s.platforms.RosterOf(p)]), row.id)
    {
      AbsentHasEnded(s, a, p, rows, row);
    }
  }

  lemma TakenIsSound(w: Platforms, p: string, walk: Walk)
    requires WalkSound(w, p, walk)
    ensures ListingSound(w, p, Listed(walk))
  {
    hide Follows, Distinct, Listed;
    ListedIsDistinct(walk);
    forall m | m in Listed(walk)
      ensures m.id in w.created && w.created[m.id] == p
    {
      ShownStood(walk, m);
    }
  }

  /** An act leaves a sweep knowing only what is so. */
  lemma LearningIsSound(s: State, a: Agent, act: Act, s': State)
    requires Sound(s) && AgentSound(s, a) && May(s, a, act)
    requires Later(s.platforms, s.leases, s'.platforms, s'.leases) && s'.platforms.Sound()
    requires act.ReleaseCalled? && act.succeeded ==> s'.platforms.Ended(act.id)
    ensures AgentSound(s', Learned(a, act))
  {
    hide DueByStamp, DueByRecord, GoneByListing, GateOf, WalkSound, OrdersKept, ListingSound, Listed, Complete,
         RowsRead;
    KnowledgeLasts(s, s', a);
    match act
    case PageRead(p, rows, standing) =>
      PageReadIsSound(s, s', a, p, rows);
      PageReadMissesOnlyTheEnded(s, s', a, p, rows);
    case ListingTaken(p, machines) => TakenIsSound(s'.platforms, p, a.walks[p]);
    case _ =>
  }

  lemma OutstandingIsRead(s: State)
    requires Sound(s)
    ensures RowsRead(s.platforms, s.leases, Outstanding(s.record))
  {
    hide Outstanding, AgentSound;
    forall row | row in Outstanding(s.record)
      ensures row.releasedAt.None? && RowSound(s.platforms, s.leases, {}, row)
    {
      OutstandingExact(s.record, row);
    }
  }

  lemma ReadingsStaySound(s: State, e: Event)
    requires Sound(s) && Enabled(s, e)
    ensures forall k :: k in Apply(s, e).readings ==>
              RowsRead(Apply(s, e).platforms, Apply(s, e).leases, Apply(s, e).readings[k])
  {
    hide May, AgentSound, PlatformsAfter, RecordAfter, SweepsAfter, Outstanding, OrdersKept;
    StepIsLater(s, e);
    OutstandingIsRead(s);
  }

  lemma BeginningIsSound(s: State, rows: seq<Row>, dryRun: bool, providers: set<string>,
                         templates: map<string, seq<string>>)
    requires RowsRead(s.platforms, s.leases, rows)
    ensures AgentSound(s, Beginning(s, rows, dryRun, providers, templates))
  {
  }

  lemma SweepsStaySound(s: State, e: Event)
    requires Sound(s) && Enabled(s, e)
    ensures forall k :: k in Apply(s, e).sweeps ==> AgentSound(Apply(s, e), Apply(s, e).sweeps[k])
  {
    hide May, Learned, Beginning, AgentSound, PlatformsAfter, RecordAfter, Later, RowsRead;
    var s' := Apply(s, e);
    StepIsLater(s, e);
    forall k | k in s'.sweeps
      ensures AgentSound(s', s'.sweeps[k])
    {
      if e.Swept? && e.k == k && !e.act.RecordRead? {
        if e.act.Began? {
          BeginningIsSound(s, s.readings[k], e.act.dryRun, e.act.providers, e.act.templates);
          KnowledgeLasts(s, s', s'.sweeps[k]);
        } else {
          ReleaseEnds(s, e);
          LearningIsSound(s, s.sweeps[k], e.act, s');
        }
      } else {
        KnowledgeLasts(s, s', s.sweeps[k]);
      }
    }
  }

  lemma ReleaseEnds(s: State, e: Event)
    requires s.platforms.Sound() && Enabled(s, e)
    ensures e.Swept? && e.act.ReleaseCalled? && e.act.succeeded ==> Apply(s, e).platforms.Ended(e.act.id)
    ensures e.OperatorReleased? ==> Apply(s, e).platforms.Ended(e.id)
  {
    hide DueByStamp, DueByRecord, GoneByListing, GateOf, RecordAfter, SweepsAfter;
    if e.Swept? && e.act.ReleaseCalled? {
      EndingKeeps(s.platforms, e.act.id);
    } else if e.OperatorReleased? {
      EndingKeeps(s.platforms, e.id);
    }
  }

  lemma RecordStaysSound(s: State, e: Event)
    requires Sound(s) && Enabled(s, e)
    ensures forall row :: row in Apply(s, e).record ==>
              RowSound(Apply(s, e).platforms, Apply(s, e).leases, Apply(s, e).lost, row)
    ensures LostAreReturned(Apply(s, e))
  {
    hide May, AgentSound, Outstanding, PlatformsAfter, SweepsAfter, OrdersKept, RowsRead;
    StepIsLater(s, e);
    var s' := Apply(s, e);
    assert s.record <= s'.record;
    forall id | id in s'.lost
      ensures exists row :: row in s'.record && row.id == id && row.releasedAt.Some?
    {
      if id in s.lost {
        var row :| row in s.record && row.id == id && row.releasedAt.Some?;
        assert row in s'.record;
      } else {
        assert Correction(e.act.row, s.clock) in s'.record;
      }
    }
  }

  lemma SoundStays(s: State, e: Event)
    requires Sound(s) && Enabled(s, e)
    ensures Sound(Apply(s, e))
  {
    StepIsLater(s, e);
    ReleaseEnds(s, e);
    RecordStaysSound(s, e);
    ReadingsStaySound(s, e);
    SweepsStaySound(s, e);
    hide AgentSound, RowSound, RowsRead, LostAreReturned, OrdersKept, Enabled, PlatformsAfter, RecordAfter, SweepsAfter;
  }

  /** Over every run: platforms run only what was created on them, rows name machines under their platform
      and lease, and sweeps know only what is so. */
  lemma {:induction false} EveryRunIsSound(log: seq<Event>)
    requires IsRun(log)
    ensures Sound(Replay(log))
  {
    hide Apply, Enabled;
    if log != [] {
      hide Sound, Replay;
      var before, e := LastStep(log);
      EveryRunIsSound(before);
      SoundStays(Replay(before), e);
    }
  }

  /** Only its own acts change what a sweep knows. */
  lemma SweepsStep(s: State, e: Event, k: nat)
    requires Enabled(s, e)
    ensures var sweeps := Apply(s, e).sweeps;
            if e.Swept? && e.k == k && !e.act.RecordRead? then
              && k in sweeps
              && sweeps[k] == if e.act.Began? then
                                Beginning(s, s.readings[k], e.act.dryRun, e.act.providers, e.act.templates)
                              else Learned(s.sweeps[k], e.act)
            else (k in sweeps <==> k in s.sweeps) && (k in sweeps ==> sweeps[k] == s.sweeps[k])
    ensures e.Swept? ==>
              if e.act.RecordRead? then e.k !in s.readings
              else if e.act.Began? then e.k in s.readings && e.k !in s.sweeps
              else e.k in s.sweeps && May(s, s.sweeps[e.k], e.act)
  {
    hide May, Learned, Beginning, PlatformsAfter, RecordAfter;
  }

  // ---- Whose row is retired ----

  /** A sweep listed a row's platform page by page, and its machine moved up past the pages read between two
      of them. */
  ghost predicate SlippedPast(a: Agent, row: Row) {
    row.provider in a.walks && Slipped(a.walks[row.provider], row.id)
  }

  /** Of a machine that is still running, a listing that was taken lacks it exactly when it slipped. */
  lemma RunningIsMissedExactly(s: State, a: Agent, row: Row)
    requires AgentSound(s, a) && row in a.rows && row.provider in a.listed && !s.platforms.Ended(row.id)
    ensures row.id !in Ids(a.listed[row.provider]) <==> SlippedPast(a, row)
  {
    hide Slipped, Listed, Chained, Complete;
    var walk := a.walks[row.provider];
    assert WalkSound(s.platforms, row.provider, walk);
    assert Throughout(walk, row.id);
    MissingExactly(walk, row.id);
  }

  /** The machine of a row a sweep retires has ended, unless it slipped past the pages. */
  lemma RetiredRowHasEnded(s: State, a: Agent, row: Row)
    requires AgentSound(s, a) && row in a.rows && (row.id in a.freed || GoneByListing(a, row))
    ensures s.platforms.Ended(row.id) || SlippedPast(a, row)
  {
    hide WalkSound, Slipped;
    if !s.platforms.Ended(row.id) {
      RunningIsMissedExactly(s, a, row);
    }
  }

  /** Whatever is interleaved between the acts of a sweep, the machine of a row it retires, as gone or as
      released, has ended by then, unless it slipped past the pages of that sweep's listing; and a machine
      that still runs then did slip, its platform being one that is listed in pages. */
  lemma NoRunningMachineIsRetired(log: seq<Event>, i: nat, k: nat, row: Row)
    requires IsRun(log) && i < |log| && log[i] == Swept(k, CorrectionWritten(row))
    ensures var s := Replay(log[..i]);
            && k in s.sweeps && !s.sweeps[k].dryRun
            && (s.platforms.Ended(row.id) || SlippedPast(s.sweeps[k], row))
    ensures var s := Replay(log[..i]);
            row.provider in s.sweeps[k].walks && s.sweeps[k].walks[row.provider].rows.None? ==>
              s.platforms.Ended(row.id)
  {
    hide Replay, AgentSound, GoneByListing, Slipped;
    RunPrefix(log, i);
    EveryRunIsSound(log[..i]);
    var s := Replay(log[..i]);
    assert Enabled(s, log[i]);
    RetiredRowHasEnded(s, s.sweeps[k], row);
    if row.provider in s.sweeps[k].walks && s.sweeps[k].walks[row.provider].rows.None? {
      OneDocumentMissesNothing(s.sweeps[k].walks[row.provider], row.id);
    }
  }

  // ---- Every leased machine stays within reach ----

  predicate WasRelabelled(log: seq<Event>, id: string) {
    exists e :: e in log && e.Relabelled? && e.id == id
  }

  predicate WasRecorded(log: seq<Event>, id: string) {
    exists e :: e in log && e.Recorded? && e.row.id == id
  }

  /** A running machine still carries the text it was created with, unless someone changed it. */
  predicate Stamped(log: seq<Event>, s: State, m: Machine) {
    m.id in s.platforms.created && m in s.platforms.On(s.platforms.created[m.id]) && m.id in s.leases
    ==> m.name == Some(ExpiryStamp(s.leases[m.id])) || WasRelabelled(log, m.id)
  }

  lemma {:induction false} StampsStay(log: seq<Event>, m: Machine)
    requires IsRun(log)
    ensures Stamped(log, Replay(log), m)
  {
    hide ExpiryStamp, Apply, Enabled;
    if log != [] {
      hide Stamped, Sound, Replay;
      var before, e := LastStep(log);
      StampsStay(before, m);
      EveryRunIsSound(before);
      StampStep(before, Replay(before), e, m);
    }
  }

  lemma StampStep(log: seq<Event>, s: State, e: Event, m: Machine)
    requires Sound(s) && Enabled(s, e) && Stamped(log, s, m)
    ensures Stamped(log + [e], Apply(s, e), m)
  {
    hide ExpiryStamp, Sound, Enabled, PlatformsAfter, RecordAfter, SweepsAfter;
    var after := log + [e];
    assert WasRelabelled(log, m.id) ==> WasRelabelled(after, m.id);
    assert after[|log|] == e;
    assert e.Relabelled? && e.id == m.id ==> WasRelabelled(after, m.id);
    hide WasRelabelled;
    var w := Apply(s, e).platforms;
    if m.id in w.created && m in w.On(w.created[m.id]) {
      LabelsStay(s, e, m);
    }
  }

  /** A machine that runs with this label ran with it before, or was just created with it, or was relabelled;
      and only a creation leases an id. */
  lemma LabelsStay(s: State, e: Event, m: Machine)
    requires Sound(s) && Enabled(s, e)
    requires var w := Apply(s, e).platforms; m.id in w.created && m in w.On(w.created[m.id])
    ensures || (m.id in s.platforms.created && m in s.platforms.On(s.platforms.created[m.id]))
            || (e.Created? && m == Machine(e.id, Some(ExpiryStamp(e.lease))))
            || (e.StrangerCreated? && m.id == e.id && m.id !in s.leases)
            || (e.Relabelled? && e.id == m.id)
    ensures var leases := Apply(s, e).leases;
            if e.Created? && e.id == m.id then m.id in leases && leases[m.id] == e.lease && m.id !in s.platforms.created
            else (m.id in leases <==> m.id in s.leases) && (m.id in leases ==> leases[m.id] == s.leases[m.id])
    ensures m.id in s.platforms.created ==> Apply(s, e).platforms.created[m.id] == s.platforms.created[m.id]
  {
    hide ExpiryStamp, May, RecordAfter, SweepsAfter, AgentSound, RowSound, RowsRead, LostAreReturned, Outstanding;
    hide Platforms.On, DistinctMachines;
    var w, w' := s.platforms, Apply(s, e).platforms;
    RunsThere(w', w'.created[m.id]);
    if m.id in w.created {
      RunsThere(w, w.created[m.id]);
    }
    if e.RowDropped? {
      WithoutKeeps(w.RowsOf(w.created[e.id]), {e.id});
    }
  }

  lemma RecordOnlyGrows(s: State, e: Event)
    requires Enabled(s, e)
    ensures s.record <= Apply(s, e).record
    ensures e.Recorded? ==> e.row in Apply(s, e).record
  {
    hide Enabled, PlatformsAfter, SweepsAfter, CorrectionRow, Correction;
  }

  lemma {:induction false} RecordedRowsStay(log: seq<Event>, id: string)
    requires IsRun(log) && WasRecorded(log, id)
    ensures exists row :: row in Replay(log).record && row.id == id
    decreases |log|
  {
    hide Replay, Enabled, Apply;
    var before, last := LastStep(log);
    RecordOnlyGrows(Replay(before), last);
    if !(last.Recorded? && last.row.id == id) {
      var e :| e in log && e.Recorded? && e.row.id == id;
      assert e in before;
      RecordedRowsStay(before, id);
    }
  }

  /** A sweep retired this machine's row while the machine had not ended. */
  predicate MisretiredAt(log: seq<Event>, i: nat, id: string) {
    && i < |log| && log[i].Swept? && log[i].act.CorrectionWritten? && log[i].act.row.id == id
    && !Replay(log[..i]).platforms.Ended(id)
  }

  predicate Misretired(log: seq<Event>, id: string) {
    exists i: nat :: i < |log| && MisretiredAt(log, i, id)
  }

  lemma MisretiredBefore(log: seq<Event>, e: Event, i: nat, id: string)
    requires i < |log|
    ensures MisretiredAt(log + [e], i, id) <==> MisretiredAt(log, i, id)
  {
    hide Replay;
    assert (log + [e])[..i] == log[..i];
  }

  lemma MisretiredLast(log: seq<Event>, e: Event, id: string)
    ensures MisretiredAt(log + [e], |log|, id)
            <==> e.Swept? && e.act.CorrectionWritten? && e.act.row.id == id && !Replay(log).platforms.Ended(id)
  {
    hide Replay;
    assert (log + [e])[..|log|] == log;
  }

  lemma MisretiredMore(log: seq<Event>, e: Event, id: string)
    ensures Misretired(log + [e], id) <==> Misretired(log, id) || MisretiredAt(log + [e], |log|, id)
  {
    hide MisretiredAt;
    forall i: nat | i < |log|
      ensures MisretiredAt(log + [e], i, id) <==> MisretiredAt(log, i, id)
    {
      MisretiredBefore(log, e, i, id);
    }
  }

  lemma {:induction false} LostExactly(log: seq<Event>, id: string)
    requires IsRun(log)
    ensures id in Replay(log).lost <==> Misretired(log, id)
    decreases |log|
  {
    hide Replay, Apply, Enabled, MisretiredAt;
    if log == [] {
      EmptyRun();
      assert !Misretired([], id);
    } else {
      hide Misretired;
      var before, e := LastStep(log);
      LostExactly(before, id);
      LostStep(Replay(before), e);
      MisretiredLast(before, e, id);
      MisretiredMore(before, e, id);
    }
  }

  lemma EmptyRun()
    ensures IsRun([]) && Replay([]) == GENESIS
  {
  }

  lemma LostStep(s: State, e: Event)
    requires Enabled(s, e)
    ensures Apply(s, e).lost ==
            if e.Swept? && e.act.CorrectionWritten? && !s.platforms.Ended(e.act.row.id) then s.lost + {e.act.row.id}
            else s.lost
  {
  }

  /** A row that returns nothing was recorded by an acquire. */
  lemma {:induction false} PurchasesWereRecorded(log: seq<Event>, row: Row)
    requires IsRun(log) && row in Replay(log).record && row.releasedAt.None?
    ensures WasRecorded(log, row.id)
    decreases |log|
  {
    if log != [] {
      hide Replay, Enabled;
      var before, e := LastStep(log);
      PurchaseStep(Replay(before), e, row);
      if row in Replay(before).record {
        PurchasesWereRecorded(before, row);
      }
      assert log[|before|] == e;
    }
  }

  lemma PurchaseStep(s: State, e: Event, row: Row)
    requires Enabled(s, e) && row in Apply(s, e).record && row.releasedAt.None?
    ensures row in s.record || (e.Recorded? && e.row == row)
  {
    hide Enabled, PlatformsAfter, SweepsAfter;
  }

  lemma RecordedMeansOutstanding(s: State, id: string)
    requires Sound(s) && s.platforms.Running(id) && id !in s.lost
    requires exists row :: row in s.record && row.id == id
    ensures exists row :: row in Outstanding(s.record) && row.id == id
              && row.provider == s.platforms.created[id] && id in s.leases && row.expiresAt == Some(s.leases[id])
  {
    hide AgentSound, Outstanding;
    assert NeverReturned(s.record, id);
    NamedAndNotReturned(s.record, id);
    var row :| row in Outstanding(s.record) && row.id == id;
    OutstandingExact(s.record, row);
    assert row in s.record && row.releasedAt.None?;
    assert RowSound(s.platforms, s.leases, s.lost, row);
    assert row in Outstanding(s.record);
  }

  /** The record has the machine as running, under its platform and its lease. */
  predicate OnTheBooks(s: State, id: string) {
    && id in s.platforms.created && id in s.leases
    && exists row :: row in Outstanding(s.record) && row.id == id
         && row.provider == s.platforms.created[id] && row.expiresAt == Some(s.leases[id])
  }

  lemma BookedWasRecorded(log: seq<Event>, id: string)
    requires IsRun(log) && OnTheBooks(Replay(log), id)
    ensures WasRecorded(log, id) && !Misretired(log, id)
  {
    hide Replay, Outstanding, Misretired;
    var s := Replay(log);
    EveryRunIsSound(log);
    LostExactly(log, id);
    var row :| row in Outstanding(s.record) && row.id == id;
    OutstandingExact(s.record, row);
    PurchasesWereRecorded(log, row);
    hide AgentSound, RowSound, RowsRead;
  }

  lemma BookedMeans(s: State, id: string)
    requires id in s.platforms.created && id in s.leases
    requires exists row :: row in Outstanding(s.record) && row.id == id
               && row.provider == s.platforms.created[id] && row.expiresAt == Some(s.leases[id])
    ensures OnTheBooks(s, id)
  {
  }

  /** Over every run of acquires, hand releases, label changes and sweeps, with any calls failing: a
      machine bought with a lease that is still running carries its stamp unless its label was changed;
      and the record has it as running exactly when its row was written and no sweep retired it in
      error. So it is in reach exactly when it carries its stamp, or that holds. */
  lemma LeasedMachinesStayInReach(log: seq<Event>, m: Machine)
    requires IsRun(log)
    requires var s := Replay(log);
             m.id in s.leases && m.id in s.platforms.created && m in s.platforms.On(s.platforms.created[m.id])
    ensures m.name == Some(ExpiryStamp(Replay(log).leases[m.id])) || WasRelabelled(log, m.id)
    ensures OnTheBooks(Replay(log), m.id) <==> WasRecorded(log, m.id) && !Misretired(log, m.id)
  {
    hide Replay, ExpiryStamp, Sound, OnTheBooks, Misretired;
    StampsStay(log, m);
    if OnTheBooks(Replay(log), m.id) {
      BookedWasRecorded(log, m.id);
    }
    if WasRecorded(log, m.id) && !Misretired(log, m.id) {
      RecordedRowsStay(log, m.id);
      EveryRunIsSound(log);
      RunsThere(Replay(log).platforms, Replay(log).platforms.created[m.id]);
      LostExactly(log, m.id);
      RecordedMeansOutstanding(Replay(log), m.id);
      BookedMeans(Replay(log), m.id);
    }
  }

  // ---- The exceptions are real ----

  /** A machine whose row was not written and whose label was cleared is running with neither. */
  lemma OutOfReach()
    ensures var log := [Created("m", "p", 0), Relabelled("m", None)];
            && IsRun(log)
            && Replay(log).platforms.On("p") == [Machine("m", None)] && "m" in Replay(log).leases
            && Outstanding(Replay(log).record) == []
  {
    hide ExpiryStamp, IsRun, Replay;
    var made, cleared := Created("m", "p", 0), Relabelled("m", None);
    assert IsRun([]) && Replay([]) == GENESIS by { EmptyRun(); }
    RunExtends([], made);
    assert [] + [made] == [made] && [made] + [cleared] == [made, cleared];
    RunExtends([made], cleared);
    assert Outstanding([]) == [] by { assert NewestFirst<Row>([]) == []; }
    var rows, w := [Machine("m", None)], Replay([made, cleared]).platforms;
    assert Without(rows, {}) == rows by { assert rows[1..] == []; }
    assert w.RowsOf("p") == rows && w.ended == {};
  }
}
