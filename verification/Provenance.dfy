/** Where a sweep's releases come from: every release call in a run is traced back to the clock
    reading, the listing or the record row, and the ledger it was decided on. */
module Provenance {
  import opened Wrappers
  import opened Text
  import opened Lease
  import opened Records
  import opened Fleets
  import opened Pages
  import opened Sweep
  import opened Lifecycle

  predicate ActAt(log: seq<Event>, i: int, k: nat, act: Act) {
    0 <= i < |log| && log[i] == Swept(k, act)
  }

  /** Event `g` is the last time this sweep read the gate for `id`, and it read clear. */
  predicate LastGateWasClear(log: seq<Event>, k: nat, id: string, g: int) {
    && ActAt(log, g, k, GateRead(id, Clear))
    && forall j :: g < j < |log| ==> !(log[j].Swept? && log[j].k == k && log[j].act.GateRead? && log[j].act.id == id)
  }

  predicate Listing(log: seq<Event>, k: nat, i: int) {
    0 <= i < |log| && log[i].Swept? && log[i].k == k && log[i].act.ListingTaken?
  }

  /** Event `r` is the sweep's reading of the record, and these were the outstanding rows. */
  predicate ReadAt(log: seq<Event>, k: nat, r: int, rows: seq<Row>) {
    ActAt(log, r, k, RecordRead) && rows == Outstanding(Replay(log[..r]).record)
  }

  ghost predicate ReadBefore(log: seq<Event>, k: nat, b: int, rows: seq<Row>) {
    exists r :: r < b && ReadAt(log, k, r, rows)
  }

  lemma ReadStays(log: seq<Event>, e: Event, k: nat, b: int, rows: seq<Row>)
    requires ReadBefore(log, k, b, rows)
    ensures ReadBefore(log + [e], k, b, rows)
  {
    hide Replay, Outstanding;
    var r :| r < b && ReadAt(log, k, r, rows);
    assert (log + [e])[..r] == log[..r];
    assert ReadAt(log + [e], k, r, rows);
  }

  /** Over every run: the rows a sweep has read are those that were outstanding when it read them, and a sweep
      that has read none has done nothing. */
  lemma {:induction false} EveryReadingIsTraced(log: seq<Event>, k: nat)
    requires IsRun(log)
    ensures k in Replay(log).readings ==> ReadBefore(log, k, |log|, Replay(log).readings[k])
    ensures k in Replay(log).sweeps ==> k in Replay(log).readings
    ensures k !in Replay(log).readings ==> forall i :: 0 <= i < |log| && log[i].Swept? ==> log[i].k != k
    decreases |log|
  {
    if log != [] {
      hide Replay, Apply, Enabled, ReadBefore, Beginning, Learned, Outstanding;
      var before, e := LastStep(log);
      EveryReadingIsTraced(before, k);
      var s := Replay(before);
      SweepsStep(s, e, k);
      ReadingsStep(s, e, k);
      if e.Swept? && e.k == k && e.act.RecordRead? {
        NewReading(before, k);
      } else if k in s.readings {
        ReadStays(before, e, k, |before|, s.readings[k]);
        ReadLater(log, k, |before|, |log|, s.readings[k]);
      }
    }
  }

  lemma ReadingsStep(s: State, e: Event, k: nat)
    requires Enabled(s, e)
    ensures var readings := Apply(s, e).readings;
            if e.Swept? && e.k == k && e.act.RecordRead? then k in readings && readings[k] == Outstanding(s.record)
            else (k in readings <==> k in s.readings) && (k in readings ==> readings[k] == s.readings[k])
  {
    hide Outstanding, PlatformsAfter, RecordAfter, SweepsAfter;
  }

  lemma NewReading(log: seq<Event>, k: nat)
    ensures ReadBefore(log + [Swept(k, RecordRead)], k, |log| + 1, Outstanding(Replay(log).record))
  {
    hide Replay, Outstanding;
    var log' := log + [Swept(k, RecordRead)];
    assert log'[..|log|] == log;
    assert ReadAt(log', k, |log|, Outstanding(Replay(log).record));
  }

  lemma ReadLater(log: seq<Event>, k: nat, b: int, c: int, rows: seq<Row>)
    requires ReadBefore(log, k, b, rows) && b <= c
    ensures ReadBefore(log, k, c, rows)
  {
  }

  /** The sweep's knowledge, event by event. `b` is the event it began with. */
  ghost predicate Traced(log: seq<Event>, a: Agent, k: nat, b: int) {
    && ActAt(log, b, k, Began(a.dryRun, a.providers, a.templates))
    && a.now == Replay(log[..b]).clock
    && ReadBefore(log, k, b, a.rows)
    && (forall p :: p in a.listed ==> exists l :: b < l < |log| && ActAt(log, l, k, ListingTaken(p, a.listed[p])))
    && (forall l :: Listing(log, k, l) ==>
          b < l && log[l].act.provider in a.listed && a.listed[log[l].act.provider] == log[l].act.machines)
    && (forall id :: id in a.cleared ==> exists g :: b < g && LastGateWasClear(log, k, id, g))
  }

  lemma NewSweepIsTraced(log: seq<Event>, k: nat, dryRun: bool, providers: set<string>,
                         templates: map<string, seq<string>>, rows: seq<Row>)
    requires forall i :: 0 <= i < |log| && log[i].Swept? && log[i].k == k ==> log[i].act.RecordRead?
    requires ReadBefore(log, k, |log|, rows)
    ensures var log' := log + [Swept(k, Began(dryRun, providers, templates))];
            Traced(log', Beginning(Replay(log), rows, dryRun, providers, templates), k, |log|)
  {
    hide Replay, Outstanding;
    ReadStays(log, Swept(k, Began(dryRun, providers, templates)), k, |log|, rows);
    hide ReadBefore;
    var log' := log + [Swept(k, Began(dryRun, providers, templates))];
    assert log'[..|log|] == log;
    assert ActAt(log', |log|, k, Began(dryRun, providers, templates));
    forall l
      ensures !Listing(log', k, l)
    {
      if 0 <= l < |log| { assert log'[l] == log[l]; }
    }
    hide ActAt, Listing, LastGateWasClear;
  }

  lemma ListedStaysTraced(log: seq<Event>, a: Agent, k: nat, b: int, e: Event, p: string)
    requires Traced(log, a, k, b) && p in a.listed
    ensures exists l :: b < l < |log + [e]| && ActAt(log + [e], l, k, ListingTaken(p, a.listed[p]))
  {
    var l :| b < l < |log| && ActAt(log, l, k, ListingTaken(p, a.listed[p]));
    assert ActAt(log + [e], l, k, ListingTaken(p, a.listed[p]));
  }

  lemma GateStaysTraced(log: seq<Event>, a: Agent, k: nat, b: int, e: Event, id: string)
    requires Traced(log, a, k, b) && id in a.cleared
    requires !(e.Swept? && e.k == k && e.act.GateRead? && e.act.id == id)
    ensures exists g :: b < g && LastGateWasClear(log + [e], k, id, g)
  {
    var g :| b < g && LastGateWasClear(log, k, id, g);
    assert LastGateWasClear(log + [e], k, id, g);
  }

  /** Someone else's event, or one of the sweep's own that tells it nothing. */
  lemma StaysTraced(log: seq<Event>, a: Agent, k: nat, b: int, e: Event)
    requires Traced(log, a, k, b)
    requires !e.Swept? || e.k != k || e.act.RecordRead? || e.act.PageRead? || e.act.ListingFailed?
             || e.act.ReleaseCalled?
             || e.act.CorrectionWritten?
    ensures Traced(log + [e], a, k, b)
  {
    hide Outstanding, Replay, ReadBefore;
    ReadStays(log, e, k, b, a.rows);
    var log' := log + [e];
    assert log'[..b] == log[..b];
    forall p | p in a.listed
      ensures exists l :: b < l < |log'| && ActAt(log', l, k, ListingTaken(p, a.listed[p]))
    {
      ListedStaysTraced(log, a, k, b, e, p);
    }
    forall l | Listing(log', k, l)
      ensures b < l && log'[l].act.provider in a.listed && a.listed[log'[l].act.provider] == log'[l].act.machines
    {
      assert Listing(log, k, l);
    }
    forall id | id in a.cleared
      ensures exists g :: b < g && LastGateWasClear(log', k, id, g)
    {
      GateStaysTraced(log, a, k, b, e, id);
    }
  }

  lemma ListingIsTraced(log: seq<Event>, a: Agent, k: nat, b: int, p: string, machines: seq<Machine>)
    requires Traced(log, a, k, b) && p !in a.listed
    ensures Traced(log + [Swept(k, ListingTaken(p, machines))], Learned(a, ListingTaken(p, machines)), k, b)
  {
    hide Outstanding, Replay, ReadBefore;
    var e := Swept(k, ListingTaken(p, machines));
    ReadStays(log, e, k, b, a.rows);
    var log', a' := log + [e], Learned(a, ListingTaken(p, machines));
    assert log'[..b] == log[..b];
    assert ActAt(log', |log|, k, ListingTaken(p, machines));
    forall q | q in a'.listed
      ensures exists l :: b < l < |log'| && ActAt(log', l, k, ListingTaken(q, a'.listed[q]))
    {
      if q != p { ListedStaysTraced(log, a, k, b, e, q); }
    }
    forall l | Listing(log', k, l)
      ensures b < l && log'[l].act.provider in a'.listed && a'.listed[log'[l].act.provider] == log'[l].act.machines
    {
      if l < |log| { assert Listing(log, k, l); }
    }
    forall id | id in a'.cleared
      ensures exists g :: b < g && LastGateWasClear(log', k, id, g)
    {
      GateStaysTraced(log, a, k, b, e, id);
    }
  }

  lemma GateReadIsTraced(log: seq<Event>, a: Agent, k: nat, b: int, id: string, gate: Gate)
    requires Traced(log, a, k, b)
    ensures Traced(log + [Swept(k, GateRead(id, gate))], Learned(a, GateRead(id, gate)), k, b)
  {
    hide Outstanding, Replay, ReadBefore;
    var e := Swept(k, GateRead(id, gate));
    ReadStays(log, e, k, b, a.rows);
    var log', a' := log + [e], Learned(a, GateRead(id, gate));
    assert log'[..b] == log[..b];
    forall q | q in a'.listed
      ensures exists l :: b < l < |log'| && ActAt(log', l, k, ListingTaken(q, a'.listed[q]))
    {
      ListedStaysTraced(log, a, k, b, e, q);
    }
    forall l | Listing(log', k, l)
      ensures b < l && log'[l].act.provider in a'.listed && a'.listed[log'[l].act.provider] == log'[l].act.machines
    {
      assert Listing(log, k, l);
    }
    forall other | other in a'.cleared
      ensures exists g :: b < g && LastGateWasClear(log', k, other, g)
    {
      if other == id {
        assert LastGateWasClear(log', k, id, |log|);
      } else {
        GateStaysTraced(log, a, k, b, e, other);
      }
    }
  }

  /** Over every run, everything a sweep knows has its event. */
  lemma {:induction false} EverySweepIsTraced(log: seq<Event>, k: nat)
    requires IsRun(log)
    ensures k in Replay(log).sweeps ==> exists b :: Traced(log, Replay(log).sweeps[k], k, b)
    ensures k !in Replay(log).sweeps ==> forall i :: 0 <= i < |log| && log[i].Swept? && log[i].k == k ==>
                                           log[i].act.RecordRead?
    decreases |log|
  {
    if log != [] {
      hide Replay, Apply, Enabled, Traced, Beginning, Learned, AgentSound, ReadBefore, Outstanding;
      var before, e := LastStep(log);
      EverySweepIsTraced(before, k);
      EveryReadingIsTraced(before, k);
      var s := Replay(before);
      SweepsStep(s, e, k);
      if e.Swept? && e.k == k && e.act.Began? {
        NewSweepIsTraced(before, k, e.act.dryRun, e.act.providers, e.act.templates, s.readings[k]);
      } else if k in s.sweeps {
        var b :| Traced(before, s.sweeps[k], k, b);
        EveryRunIsSound(before);
        if e.Swept? && e.k == k && e.act.ListingTaken? { NotAskedTwice(s, k, e); }
        SweepStepIsTraced(before, s.sweeps[k], k, b, e);
      }
    }
  }

  lemma NotAskedTwice(s: State, k: nat, e: Event)
    requires Sound(s) && Enabled(s, e) && e.Swept? && e.k == k && e.act.ListingTaken?
    ensures e.act.provider !in s.sweeps[k].listed
  {
  }

  lemma SweepStepIsTraced(log: seq<Event>, a: Agent, k: nat, b: int, e: Event)
    requires Traced(log, a, k, b)
    requires e.Swept? && e.k == k ==> !e.act.Began? && (e.act.ListingTaken? ==> e.act.provider !in a.listed)
    ensures Traced(log + [e], if e.Swept? && e.k == k then Learned(a, e.act) else a, k, b)
  {
    hide Traced, Listed;
    if !e.Swept? || e.k != k {
      StaysTraced(log, a, k, b, e);
    } else {
      match e.act
      case ListingTaken(p, machines) => ListingIsTraced(log, a, k, b, p, machines);
      case GateRead(id, gate) => GateReadIsTraced(log, a, k, b, id, gate);
      case ReleaseCalled(_, _, _) =>
        StaysTraced(log, a, k, b, e);
        ForgetsFreed(log + [e], a, k, b, Learned(a, e.act).freed);
      case ListingFailed(p) =>
        StaysTraced(log, a, k, b, e);
        ForgetsAsked(log + [e], a, k, b, Learned(a, e.act).asked);
      case PageRead(p, rows, standing) =>
        StaysTraced(log, a, k, b, e);
        ForgetsWalks(log + [e], a, k, b, Learned(a, e.act).walks);
      case RecordRead => StaysTraced(log, a, k, b, e);
      case CorrectionWritten(_) => StaysTraced(log, a, k, b, e);
    }
  }

  lemma ForgetsFreed(log: seq<Event>, a: Agent, k: nat, b: int, freed: set<string>)
    requires Traced(log, a, k, b)
    ensures Traced(log, a.(freed := freed), k, b)
  {
  }

  lemma ForgetsWalks(log: seq<Event>, a: Agent, k: nat, b: int, walks: map<string, Walk>)
    requires Traced(log, a, k, b)
    ensures Traced(log, a.(walks := walks), k, b)
  {
  }

  lemma ForgetsAsked(log: seq<Event>, a: Agent, k: nat, b: int, asked: set<string>)
    requires Traced(log, a, k, b)
    ensures Traced(log, a.(asked := asked), k, b)
  {
  }

  // ---- Why a machine was released ----

  /** A listing this sweep took shows `id` with a stamp whose lease was reached at `now`, and the command is
      that platform's template with the id put in. */
  ghost predicate ListedExpired(log: seq<Event>, k: nat, id: string, now: Timestamp, l: int,
                                templates: map<string, seq<string>>, argv: seq<string>) {
    && Listing(log, k, l)
    && log[l].act.provider in templates && argv == Substituted(templates[log[l].act.provider], id)
    && exists m :: m in log[l].act.machines && m.id == id && StandingOf(m, now) == Standing.Expired
  }

  /** No listing this sweep took shows `id` with any lease, and one of its own platform shows it. */
  ghost predicate ListedUnstampedAtMost(log: seq<Event>, k: nat, row: Row, now: Timestamp) {
    forall l :: Listing(log, k, l) ==>
      && (forall m :: m in log[l].act.machines && m.id == row.id ==> StandingOf(m, now) == Unknown)
      && (log[l].act.provider == row.provider ==> row.id in Ids(log[l].act.machines))
  }

  /** The last time this sweep read the gate for `id`, the newest real apply had left nothing. */
  ghost predicate GateWasClear(log: seq<Event>, k: nat, id: string, b: int) {
    exists g :: b < g && LastGateWasClear(log, k, id, g) && GateOf(Some(Replay(log[..g]).ledger), id) == Clear
  }

  /** The lease was reached at `now`, and the command was the one to run: by a stamp some listing shows, and
      its platform's template; or by an outstanding row whose machine no listing shows a lease on and none of
      its platform's lacks, and the row's own command. */
  ghost predicate LeaseWasReached(log: seq<Event>, k: nat, id: string, now: Timestamp, rows: seq<Row>,
                                  templates: map<string, seq<string>>, argv: seq<string>) {
    || (exists l :: ListedExpired(log, k, id, now, l, templates, argv))
    || (exists row :: row in rows && row.id == id && row.expiresAt.Some? && row.expiresAt.value <= now
          && argv == Substituted(row.release, id) && ListedUnstampedAtMost(log, k, row, now))
  }

  lemma ClearIsTraced(log: seq<Event>, a: Agent, k: nat, b: int, id: string)
    requires IsRun(log) && Traced(log, a, k, b) && id in a.cleared
    ensures GateWasClear(log, k, id, b)
  {
    hide Replay, Outstanding;
    var g :| b < g && LastGateWasClear(log, k, id, g);
    RunStep(log, g);
    SweepsStep(Replay(log[..g]), log[g], k);
  }

  lemma JudgedMeansUnstamped(log: seq<Event>, a: Agent, k: nat, b: int, row: Row)
    requires Traced(log, a, k, b) && RowIsDue(a, row)
    ensures ListedUnstampedAtMost(log, k, row, a.now)
  {
    hide StandingOf, Replay, Outstanding;
    forall l | Listing(log, k, l)
      ensures forall m :: m in log[l].act.machines && m.id == row.id ==> StandingOf(m, a.now) == Unknown
      ensures log[l].act.provider == row.provider ==> row.id in Ids(log[l].act.machines)
    {
      assert a.listed[log[l].act.provider] == log[l].act.machines;
    }
  }

  lemma LeaseIsTraced(log: seq<Event>, a: Agent, k: nat, b: int, id: string, argv: seq<string>)
    requires Traced(log, a, k, b) && (DueByStamp(a, id, argv) || DueByRecord(a, id, argv))
    ensures LeaseWasReached(log, k, id, a.now, a.rows, a.templates, argv)
  {
    hide Replay, Outstanding, StandingOf, Substituted;
    if DueByStamp(a, id, argv) {
      var p :| p in a.listed && p in a.templates && argv == Substituted(a.templates[p], id)
        && exists m :: m in a.listed[p] && m.id == id && StandingOf(m, a.now) == Standing.Expired;
      var l :| b < l < |log| && ActAt(log, l, k, ListingTaken(p, a.listed[p]));
      assert ListedExpired(log, k, id, a.now, l, a.templates, argv);
    } else {
      hide RowIsDue, ListedUnstampedAtMost;
      var row :| row in a.rows && row.id == id && RowIsDue(a, row) && argv == Substituted(row.release, id);
      JudgedMeansUnstamped(log, a, k, b, row);
      assert row.expiresAt.Some? && row.expiresAt.value <= a.now by { DueRowsAreReached(a, row); }
    }
  }

  lemma DueRowsAreReached(a: Agent, row: Row)
    requires RowIsDue(a, row)
    ensures row.expiresAt.Some? && row.expiresAt.value <= a.now
  {
  }

  /** Over every run: a release call is made by a sweep that is not a dry run; the last time that
      sweep read the gate for the machine, the newest real apply had left nothing behind; the lease was
      reached at the sweep's one clock reading; and the command run was that of the platform that showed the
      stamp, as the tool had it when the sweep began, or of the row that recorded the lease. */
  lemma EveryReleaseIsJustified(log: seq<Event>, i: nat, k: nat, id: string, argv: seq<string>, succeeded: bool)
    requires IsRun(log) && i < |log| && log[i] == Swept(k, ReleaseCalled(id, argv, succeeded))
    ensures exists b, providers, templates, rows ::
              && b < i && ActAt(log, b, k, Began(false, providers, templates)) && ReadBefore(log, k, b, rows)
              && GateWasClear(log[..i], k, id, b)
              && LeaseWasReached(log[..i], k, id, Replay(log[..b]).clock, rows, templates, argv)
    ensures argv != []
  {
    hide Replay, Outstanding, GateWasClear, LeaseWasReached, DueByStamp, DueByRecord, ReadBefore;
    var before := log[..i];
    RunPrefix(log, i);
    RunStep(log, i);
    SweepsStep(Replay(before), log[i], k);
    EverySweepIsTraced(before, k);
    var a := Replay(before).sweeps[k];
    var b :| Traced(before, a, k, b);
    assert before[..b] == log[..b];
    ClearIsTraced(before, a, k, b, id);
    LeaseIsTraced(before, a, k, b, id, argv);
    assert ActAt(log, b, k, Began(false, a.providers, a.templates));
    ReadInPrefix(log, i, k, b, a.rows);
  }

  lemma ReadInPrefix(log: seq<Event>, i: nat, k: nat, b: int, rows: seq<Row>)
    requires i <= |log| && ReadBefore(log[..i], k, b, rows)
    ensures ReadBefore(log, k, b, rows)
  {
    hide Replay, Outstanding;
    var r :| r < b && ReadAt(log[..i], k, r, rows);
    assert log[..i][..r] == log[..r];
    assert ReadAt(log, k, r, rows);
  }

  // ---- A live stamp outranks any row ----

  /** What a sweep only ever adds to. */
  predicate Grew(a: Agent, a': Agent) {
    && a'.now == a.now && a'.providers == a.providers && a.asked <= a'.asked
    && forall p :: p in a.listed ==> p in a'.listed && a'.listed[p] == a.listed[p]
  }

  lemma LearningGrows(s: State, e: Event, k: nat)
    requires Sound(s) && Enabled(s, e) && k in s.sweeps
    ensures k in Apply(s, e).sweeps && Grew(s.sweeps[k], Apply(s, e).sweeps[k])
  {
    hide Apply, Enabled, May, Learned, Sound, Grew;
    SweepsStep(s, e, k);
    GrowingNothing(s.sweeps[k]);
    if e.Swept? && e.k == k && !e.act.RecordRead? {
      if e.act.ListingTaken? {
        NotAskedTwice(s, k, e);
      }
      LearnedGrows(s.sweeps[k], e.act);
    }
  }

  lemma LearnedGrows(a: Agent, act: Act)
    requires act.ListingTaken? ==> act.provider !in a.listed
    ensures Grew(a, Learned(a, act))
  {
  }

  lemma GrowingTwice(a: Agent, a': Agent, a'': Agent)
    requires Grew(a, a') && Grew(a', a'')
    ensures Grew(a, a'')
  {
  }

  lemma GrowingNothing(a: Agent)
    ensures Grew(a, a)
  {
  }

  lemma {:induction false} SweepsOnlyGrow(log: seq<Event>, j: nat, k: nat)
    requires IsRun(log) && j <= |log| && k in Replay(log[..j]).sweeps
    ensures k in Replay(log).sweeps && Grew(Replay(log[..j]).sweeps[k], Replay(log).sweeps[k])
    decreases |log|
  {
    hide Replay, Apply, Enabled, Sound, Grew, IsRun;
    if j == |log| {
      assert log[..j] == log;
      GrowingNothing(Replay(log).sweeps[k]);
    } else {
      var before, e := LastStep(log);
      assert before[..j] == log[..j];
      SweepsOnlyGrow(before, j, k);
      EveryRunIsSound(before);
      LearningGrows(Replay(before), e, k);
      GrowingTwice(Replay(log[..j]).sweeps[k], Replay(before).sweeps[k], Replay(log).sweeps[k]);
    }
  }

  lemma LiveListingBlocks(s: State, a: Agent, p: string, m: Machine)
    requires AgentSound(s, a) && p in a.listed && m in a.listed[p] && StandingOf(m, a.now) == Standing.Live
    ensures forall argv :: !DueByStamp(a, m.id, argv) && !DueByRecord(a, m.id, argv)
  {
    hide StandingOf;
    assert m.id in HandledIn(a);
    forall p', m' | p' in a.listed && m' in a.listed[p'] && m'.id == m.id
      ensures m' == m
    {
      assert ListingSound(s.platforms, p, a.listed[p]) && ListingSound(s.platforms, p', a.listed[p']);
    }
  }

  lemma NotDueAfterListing(log: seq<Event>, l: nat, i: nat, k: nat, m: Machine)
    requires IsRun(log) && l < i < |log|
    requires Listing(log, k, l) && m in log[l].act.machines
    requires k in Replay(log[..l]).sweeps && StandingOf(m, Replay(log[..l]).sweeps[k].now) == Standing.Live
    ensures k in Replay(log[..i]).sweeps
    ensures forall argv ::
              && !DueByStamp(Replay(log[..i]).sweeps[k], m.id, argv)
              && !DueByRecord(Replay(log[..i]).sweeps[k], m.id, argv)
  {
    hide Replay, Enabled, Apply, StandingOf, DueByStamp, DueByRecord, AgentSound;
    RunStep(log, l);
    SweepsStep(Replay(log[..l]), log[l], k);
    RunPrefix(log, i);
    assert log[..i][..l + 1] == log[..l + 1];
    SweepsOnlyGrow(log[..i], l + 1, k);
    EveryRunIsSound(log[..i]);
    LiveListingBlocks(Replay(log[..i]), Replay(log[..i]).sweeps[k], log[l].act.provider, m);
  }

  lemma NotDueBeforeListing(log: seq<Event>, l: nat, i: nat, k: nat, m: Machine)
    requires IsRun(log) && i < l < |log| && k in Replay(log[..i]).sweeps
    requires Listing(log, k, l) && m in log[l].act.machines
    ensures forall argv ::
              && !DueByStamp(Replay(log[..i]).sweeps[k], m.id, argv)
              && !DueByRecord(Replay(log[..i]).sweeps[k], m.id, argv)
  {
    hide Replay, Enabled, Apply, StandingOf, DueByStamp, DueByRecord, AgentSound;
    RunPrefix(log, l);
    assert log[..l][..i] == log[..i];
    SweepsOnlyGrow(log[..l], i, k);
    EveryRunIsSound(log[..l]);
    RunStep(log, l);
    var s := Replay(log[..l]);
    SweepsStep(s, log[l], k);
    AgentsKnow(s, k);
    ShownIsCreated(s, s.sweeps[k], log[l].act.provider, m);
    ListedElsewhere(s, Replay(log[..i]).sweeps[k], s.sweeps[k], log[l].act.provider, m);
  }

  /** A machine a sweep lists with a lease that has not run out is not released by that sweep, before
      the listing or after it, whatever its row says. */
  lemma LiveIsNeverReleased(log: seq<Event>, l: nat, i: nat, k: nat, m: Machine)
    requires IsRun(log) && l < |log| && i < |log|
    requires Listing(log, k, l) && m in log[l].act.machines
    requires k in Replay(log[..l]).sweeps && StandingOf(m, Replay(log[..l]).sweeps[k].now) == Standing.Live
    ensures !(log[i].Swept? && log[i].k == k && log[i].act.ReleaseCalled? && log[i].act.id == m.id)
  {
    hide Replay, Enabled, Apply, StandingOf, DueByStamp, DueByRecord, IsRun;
    RunStep(log, i);
    SweepsStep(Replay(log[..i]), log[i], k);
    if l < i {
      NotDueAfterListing(log, l, i, k, m);
    } else if i < l && k in Replay(log[..i]).sweeps {
      NotDueBeforeListing(log, l, i, k, m);
    }
  }

  /** A platform not yet listed cannot be the ground of an earlier release of a machine it shows later. */
  lemma ListedElsewhere(s: State, earlier: Agent, a: Agent, p: string, m: Machine)
    requires AgentSound(s, a) && Grew(earlier, a)
    requires p in a.providers && p !in a.asked && m.id in s.platforms.created && s.platforms.created[m.id] == p
    ensures forall argv :: !DueByStamp(earlier, m.id, argv) && !DueByRecord(earlier, m.id, argv)
  {
    hide StandingOf, RowIsDue, Listed, WalkSound, RowsRead;
    forall p', m' | p' in earlier.listed && m' in earlier.listed[p']
      ensures m'.id != m.id
    {
      assert ListingSound(s.platforms, p', a.listed[p']);
    }
  }

  lemma ShownIsCreated(s: State, a: Agent, p: string, m: Machine)
    requires AgentSound(s, a) && p in a.walks && m in Listed(a.walks[p])
    ensures m.id in s.platforms.created && s.platforms.created[m.id] == p
  {
    hide Listed;
    TakenIsSound(s.platforms, p, a.walks[p]);
  }

  // ---- What a walk saw ----

  /** What a platform listed each time a sweep read a page of it, reading by reading. */
  function Standings(log: seq<Event>, k: nat, p: string): seq<Roster> {
    if log == [] then []
    else
      var e := log[|log| - 1];
      Standings(log[..|log| - 1], k, p)
      + if e.Swept? && e.k == k && e.act.PageRead? && e.act.provider == p then [e.act.standing] else []
  }

  function WalkedBy(s: State, k: nat, p: string): seq<Roster> {
    if k in s.sweeps then WalkIn(s.sweeps[k], p) else []
  }

  /** Over every run: the standings of a walk are the readings that were made, in order. */
  lemma {:induction false} EveryWalkIsTraced(log: seq<Event>, k: nat, p: string)
    requires IsRun(log)
    ensures WalkedBy(Replay(log), k, p) == Standings(log, k, p)
    decreases |log|
  {
    if log != [] {
      hide Replay, Apply, Enabled;
      var before, e := LastStep(log);
      EveryWalkIsTraced(before, k, p);
      WalkStep(Replay(before), e, k, p);
      assert log[..|log| - 1] == before;
    }
  }

  lemma WalkStep(s: State, e: Event, k: nat, p: string)
    requires Enabled(s, e)
    ensures WalkedBy(Apply(s, e), k, p) ==
            WalkedBy(s, k, p)
            + if e.Swept? && e.k == k && e.act.PageRead? && e.act.provider == p then [e.act.standing] else []
  {
    hide Apply, Enabled, May, Learned;
    SweepsStep(s, e, k);
    if e.Swept? && e.k == k && k in s.sweeps {
      LearnedWalk(s.sweeps[k], e.act, p);
    }
  }

  function WalkIn(a: Agent, p: string): seq<Roster> { if p in a.walks then a.walks[p].standings else [] }

  lemma LearnedWalk(a: Agent, act: Act, p: string)
    ensures WalkIn(Learned(a, act), p) ==
            WalkIn(a, p) + if act.PageRead? && act.provider == p then [act.standing] else []
  {
  }

  /** And each reading was of what stood there and then. */
  lemma EveryStandingWasTrue(log: seq<Event>, i: nat, k: nat, p: string, rows: Option<nat>, standing: Roster)
    requires IsRun(log) && i < |log| && log[i] == Swept(k, PageRead(p, rows, standing))
    ensures standing == Replay(log[..i]).platforms.RosterOf(p)
  {
    hide Replay, Apply;
    RunStep(log, i);
  }

  /** Every reading of a platform's listing was of one whole document. */
  predicate ListedWhole(log: seq<Event>, p: string) {
    forall i :: 0 <= i < |log| && log[i].Swept? && log[i].act.PageRead? && log[i].act.provider == p
        ==> log[i].act.rows.None?
  }

  lemma {:induction false} WholeWalks(log: seq<Event>, k: nat, p: string)
    requires IsRun(log) && ListedWhole(log, p) && k in Replay(log).sweeps && p in Replay(log).sweeps[k].walks
    ensures Replay(log).sweeps[k].walks[p].rows.None?
    decreases |log|
  {
    hide Replay, Apply, Enabled;
    EmptyRun();
    var before, e := LastStep(log);
    WholeStep(Replay(before), e, k, p);
    assert log[|before|] == e;
    assert ListedWhole(before, p) by {
      assert forall i :: 0 <= i < |before| ==> before[i] == log[i];
    }
    if k in Replay(before).sweeps && p in Replay(before).sweeps[k].walks {
      WholeWalks(before, k, p);
    }
  }

  lemma WholeStep(s: State, e: Event, k: nat, p: string)
    requires Enabled(s, e) && k in Apply(s, e).sweeps && p in Apply(s, e).sweeps[k].walks
    ensures || (k in s.sweeps && p in s.sweeps[k].walks
                && Apply(s, e).sweeps[k].walks[p].rows == s.sweeps[k].walks[p].rows)
            || (e.Swept? && e.k == k && e.act.PageRead? && e.act.provider == p
                && Apply(s, e).sweeps[k].walks[p].rows == e.act.rows)
  {
    hide Apply, Listed, Complete;
    SweepsStep(s, e, k);
  }

  /** On a platform always listed as one document: no running machine's row is ever retired, and one bought
      with a lease is on the books exactly when its row was written. */
  lemma UnpagedMachinesStayInReach(log: seq<Event>, m: Machine)
    requires IsRun(log)
    requires var s := Replay(log);
             && m.id in s.leases && m.id in s.platforms.created && m in s.platforms.On(s.platforms.created[m.id])
             && ListedWhole(log, s.platforms.created[m.id])
    ensures !Misretired(log, m.id)
    ensures OnTheBooks(Replay(log), m.id) <==> WasRecorded(log, m.id)
  {
    hide Replay, OnTheBooks, ExpiryStamp, MisretiredAt, SlippedPast, Slipped;
    LeasedMachinesStayInReach(log, m);
    if Misretired(log, m.id) {
      var i: nat :| i < |log| && MisretiredAt(log, i, m.id);
      NeverMisretired(log, i, m.id);
    }
  }

  lemma AgentsKnow(s: State, k: nat)
    requires Sound(s) && k in s.sweeps
    ensures AgentSound(s, s.sweeps[k])
  {
  }

  lemma RetiredIsOfItsPlatform(s: State, k: nat, row: Row)
    requires Sound(s) && Enabled(s, Swept(k, CorrectionWritten(row)))
    ensures row.id in s.platforms.created && s.platforms.created[row.id] == row.provider
  {
    hide WalkSound, Listed, GoneByListing;
    assert AgentSound(s, s.sweeps[k]);
    assert RowSound(s.platforms, s.leases, {}, row);
  }

  lemma UnwalkedHasEnded(s: State, k: nat, row: Row)
    requires Sound(s) && Enabled(s, Swept(k, CorrectionWritten(row))) && row.provider !in s.sweeps[k].walks
    ensures s.platforms.Ended(row.id)
  {
    hide Listed, Slipped;
    RetiredRowHasEnded(s, s.sweeps[k], row);
  }

  lemma {:induction false} CreatedStays(log: seq<Event>, i: nat, id: string)
    requires IsRun(log) && i <= |log| && id in Replay(log[..i]).platforms.created
    ensures id in Replay(log).platforms.created
            && Replay(log).platforms.created[id] == Replay(log[..i]).platforms.created[id]
    decreases |log|
  {
    hide Replay, Apply, Enabled, Sound, OrdersKept;
    if i == |log| {
      assert log[..i] == log;
    } else {
      var before, e := LastStep(log);
      assert before[..i] == log[..i];
      CreatedStays(before, i, id);
      EveryRunIsSound(before);
      SoundlyLater(Replay(before), e);
    }
  }

  lemma SoundlyLater(s: State, e: Event)
    requires Sound(s) && Enabled(s, e)
    ensures Later(s.platforms, s.leases, Apply(s, e).platforms, Apply(s, e).leases)
  {
    hide Apply, Enabled, AgentSound, RowSound, RowsRead, OrdersKept;
    StepIsLater(s, e);
  }

  lemma NeverMisretired(log: seq<Event>, i: nat, id: string)
    requires IsRun(log) && i < |log| && id in Replay(log).platforms.created
             && ListedWhole(log, Replay(log).platforms.created[id])
    ensures !MisretiredAt(log, i, id)
  {
    hide Replay, SlippedPast, Slipped, Enabled, Sound, IsRun, Apply;
    if MisretiredAt(log, i, id) {
      var k, row := log[i].k, log[i].act.row;
      NoRunningMachineIsRetired(log, i, k, row);
      var s := Replay(log[..i]);
      RunPrefix(log, i);
      EveryRunIsSound(log[..i]);
      RunStep(log, i);
      RetiredIsOfItsPlatform(s, k, row);
      CreatedStays(log, i, id);
      assert forall j :: 0 <= j < i ==> log[..i][j] == log[j];
      if row.provider in s.sweeps[k].walks {
        WholeWalks(log[..i], k, row.provider);
      } else {
        UnwalkedHasEnded(s, k, row);
      }
    }
  }

  // ---- What a sweep leaves untouched ----

  /** A sweep once begun is never forgotten, and is a dry run or not for good. */
  lemma {:induction false} SweepsStay(log: seq<Event>, n: nat, k: nat)
    requires IsRun(log) && n <= |log| && k in Replay(log[..n]).sweeps
    ensures k in Replay(log).sweeps && Replay(log).sweeps[k].dryRun == Replay(log[..n]).sweeps[k].dryRun
    decreases |log|
  {
    hide Replay, Apply, Enabled;
    if n == |log| {
      assert log[..n] == log;
    } else {
      var before, e := LastStep(log);
      assert before[..n] == log[..n];
      SweepsStay(before, n, k);
      SweepsStep(Replay(before), e, k);
    }
  }

  /** An act of this sweep that releases a machine or corrects the record. */
  predicate Touches(e: Event, k: nat) {
    e.Swept? && e.k == k && (e.act.ReleaseCalled? || e.act.CorrectionWritten?)
  }

  /** Over every run: a dry run releases nothing and corrects nothing. */
  lemma {:induction false} DryRunsTouchNothing(log: seq<Event>, k: nat)
    requires IsRun(log) && k in Replay(log).sweeps && Replay(log).sweeps[k].dryRun
    ensures forall e :: e in log ==> !Touches(e, k)
    decreases |log|
  {
    hide Replay, Apply, Enabled;
    if log != [] {
      var before, last := LastStep(log);
      SweepsStep(Replay(before), last, k);
      if k in Replay(before).sweeps {
        DryRunsTouchNothing(before, k);
      } else {
        EverySweepIsTraced(before, k);
      }
    }
  }

  lemma CorrectionsAppend(s: State, e: Event)
    requires Enabled(s, e)
    ensures |Apply(s, e).record| >= |s.record|
    ensures e.Swept? && e.act.CorrectionWritten? ==> |Apply(s, e).record| > |s.record|
  {
    hide Enabled, PlatformsAfter, SweepsAfter, CorrectionRow, Correction;
  }

  /** Where the record is no longer than it was, nothing was corrected since. */
  lemma {:induction false} NothingWasAppended(log: seq<Event>, n: nat)
    requires IsRun(log) && n <= |log|
    ensures |Replay(log).record| >= |Replay(log[..n]).record|
    ensures |Replay(log).record| == |Replay(log[..n]).record| ==>
              forall i :: n <= i < |log| && log[i].Swept? ==> !log[i].act.CorrectionWritten?
    decreases |log|
  {
    hide Replay, Apply, Enabled;
    if n == |log| {
      assert log[..n] == log;
    } else {
      var before, e := LastStep(log);
      assert before[..n] == log[..n];
      NothingWasAppended(before, n);
      CorrectionsAppend(Replay(before), e);
    }
  }
}
