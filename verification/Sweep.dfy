/** The decisions of one sweep, and the report they add up to.

    What the platforms, the ledger and the release calls answered is data here (`Plane`, `Case`), so
    that a report is a function of the answers; `SweepRun` asks the questions. */
module Sweep {
  import opened Wrappers
  import opened Lease
  import opened Records
  import opened Fleets

  // ---- The lease on the machine ----

  datatype Standing = Live | Expired | Unknown

  function StandingOf(machine: Machine, now: Timestamp): Standing {
    match machine.name
    case None => Unknown
    case Some(text) =>
      match ExpiryOf(text)
      case None => Unknown
      case Some(expiresAt) => if expiresAt > now then Standing.Live else Standing.Expired
  }

  /** A machine stamped with a lease is expired exactly when the second the lease ends in has begun:
      never later than the record would say so, and less than a second sooner. */
  lemma StampAgainstRecord(machine: Machine, expiresAt: Timestamp, now: Timestamp)
    requires machine.name == Some(ExpiryStamp(expiresAt))
    requires CivilOf(SecondOf(expiresAt)).date.year >= 0
    ensures StandingOf(machine, now) == Standing.Expired <==> Truncated(expiresAt) <= now
    ensures expiresAt <= now ==> StandingOf(machine, now) == Standing.Expired
    ensures StandingOf(machine, now) == Standing.Expired ==> expiresAt < now + NANOS
    ensures StandingOf(machine, now) != Unknown
  {
    StampRoundTrip(expiresAt);
  }

  // ---- The lease in the record ----

  datatype Due = Live | Expired | Refused(reason: Reason) | Failed(reason: Reason)

  function DueOf(row: Row, now: Timestamp, gate: Gate): Due {
    match row.expiresAt
    case None => Due.Failed(LeaseUnreadable)
    case Some(expiresAt) =>
      if expiresAt > now then Due.Live else
        match gate
        case Clear => Due.Expired
        case Holding(reason) => Due.Refused(reason)
        case Unreadable(reason) => Due.Failed(reason)
  }

  datatype Bookkeeping = Handled | Gone | Judge

  /** Where a row goes: handled already, absent from its listed platform, or to be judged. */
  function Place(row: Row, handled: set<string>, listed: map<string, set<string>>): Bookkeeping {
    if row.id in handled then Handled
    else if row.provider in listed && row.id !in listed[row.provider] then Gone
    else Judge
  }

  // ---- What a sweep was told ----

  /** A release: it exited zero, it was run and did not, or nothing was run. */
  datatype Call = Succeeded | FailedWith(why: Reason) | NotMade(why: Reason)

  /** A listed machine, with the answers a due one is met with. */
  datatype Seen = Seen(machine: Machine, gate: Gate, call: Call)

  /** The machines of a listing, as it gave them. */
  function MachinesOf(seen: seq<Seen>): seq<Machine> {
    seq(|seen|, i requires 0 <= i < |seen| => seen[i].machine)
  }

  datatype Plane = Unread(name: string, why: Reason) | Taken(name: string, seen: seq<Seen>)

  /** An outstanding row, with the same. */
  datatype Case = Case(row: Row, gate: Gate, call: Call)

  /** The ids a platform dealt with: every listed machine that carried a lease. */
  function HandledBy(planes: seq<Plane>, now: Timestamp): set<string> {
    set plane, seen | plane in planes && plane.Taken? && seen in plane.seen
                      && StandingOf(seen.machine, now) != Unknown :: seen.machine.id
  }

  function TakenNames(planes: seq<Plane>): set<string> {
    set plane | plane in planes && plane.Taken? :: plane.name
  }

  function ListedOn(planes: seq<Plane>, name: string): set<string> {
    set plane, seen | plane in planes && plane.Taken? && plane.name == name && seen in plane.seen
      :: seen.machine.id
  }

  function ListedBy(planes: seq<Plane>): map<string, set<string>> {
    map name | name in TakenNames(planes) :: ListedOn(planes, name)
  }

  // ---- What it decided ----

  datatype Verdict = Passed | Stranger(name: string) | Refused(reason: Reason) | Failed(reason: Reason) | Released

  /** One decision: `counted` when it was found due, `called` when a release was run. */
  datatype Entry = Entry(id: string, verdict: Verdict, counted: bool, called: bool)

  function ReleaseEntry(id: string, dryRun: bool, call: Call): Entry {
    if dryRun then Entry(id, Released, true, false) else
      match call
      case Succeeded => Entry(id, Released, true, true)
      case FailedWith(why) => Entry(id, Verdict.Failed(why), true, true)
      case NotMade(why) => Entry(id, Verdict.Failed(why), true, false)
  }

  function MachineEntry(seen: Seen, dryRun: bool, now: Timestamp): Entry {
    var id := seen.machine.id;
    match StandingOf(seen.machine, now)
    case Live => Entry(id, Passed, false, false)
    case Unknown => Entry(id, Stranger(if seen.machine.name.Some? then seen.machine.name.value else ""), false, false)
    case Expired =>
      match seen.gate
      case Clear => ReleaseEntry(id, dryRun, seen.call)
      case Holding(reason) => Entry(id, Verdict.Refused(reason), true, false)
      case Unreadable(reason) => Entry(id, Verdict.Failed(reason), true, false)
  }

  function RowEntry(c: Case, handled: set<string>, listed: map<string, set<string>>,
                    dryRun: bool, now: Timestamp): Entry {
    match Place(c.row, handled, listed)
    case Handled => Entry(c.row.id, Passed, false, false)
    case Gone => Entry(c.row.id, Passed, false, false)
    case Judge => JudgedEntry(c, dryRun, now)
  }

  function JudgedEntry(c: Case, dryRun: bool, now: Timestamp): Entry {
    match DueOf(c.row, now, c.gate)
    case Live => Entry(c.row.id, Passed, false, false)
    case Failed(reason) => Entry(c.row.id, Verdict.Failed(reason), false, false)
    case Refused(reason) => Entry(c.row.id, Verdict.Refused(reason), true, false)
    case Expired => ReleaseEntry(c.row.id, dryRun, c.call)
  }

  function PlaneEntries(plane: Plane, dryRun: bool, now: Timestamp): seq<Entry> {
    match plane
    case Unread(name, why) => [Entry(name, Verdict.Failed(why), false, false)]
    case Taken(_, seen) => seq(|seen|, i requires 0 <= i < |seen| => MachineEntry(seen[i], dryRun, now))
  }

  function PlatformHalf(planes: seq<Plane>, dryRun: bool, now: Timestamp): seq<Entry> {
    if planes == [] then []
    else PlatformHalf(planes[..|planes| - 1], dryRun, now) + PlaneEntries(planes[|planes| - 1], dryRun, now)
  }

  function RecordHalf(cases: seq<Case>, handled: set<string>, listed: map<string, set<string>>,
                      dryRun: bool, now: Timestamp): seq<Entry> {
    seq(|cases|, i requires 0 <= i < |cases| => RowEntry(cases[i], handled, listed, dryRun, now))
  }

  /** Every decision of a sweep, in the order it made them. */
  function Entries(planes: seq<Plane>, cases: seq<Case>, dryRun: bool, now: Timestamp): seq<Entry> {
    PlatformHalf(planes, dryRun, now)
    + RecordHalf(cases, HandledBy(planes, now), ListedBy(planes), dryRun, now)
  }

  // ---- The report ----

  datatype SweepOutcome = SweepOutcome(
    dryRun: bool,
    expired: nat,
    released: seq<string>,
    refused: seq<(string, Reason)>,
    failed: seq<(string, Reason)>,
    unknown: seq<(string, string)>)

  function SweepExit(outcome: SweepOutcome): int {
    if outcome.failed == [] then 0 else 1
  }

  /** A release that was run, and whether it exited zero. */
  datatype Called = Called(id: string, succeeded: bool)

  /** The release an entry tells of, if it ran one. */
  function CallOf(e: Entry): seq<Called> { if e.called then [Called(e.id, e.verdict.Released?)] else [] }

  /** The release a call made, if it made one. */
  function Made(id: string, call: Call): seq<Called> { if call.NotMade? then [] else [Called(id, call.Succeeded?)] }

  /** What `f` picks out of the entries, in order. */
  function Select<T>(entries: seq<Entry>, f: Entry -> Option<T>): seq<T> {
    if entries == [] then []
    else
      var last := f(entries[|entries| - 1]);
      Select(entries[..|entries| - 1], f) + if last.Some? then [last.value] else []
  }

  const COUNTED_ID := (e: Entry) => if e.counted then Some(e.id) else None
  const CALL_MADE := (e: Entry) => if e.called then Some(Called(e.id, e.verdict.Released?)) else None
  const RELEASED_ID := (e: Entry) => if e.verdict.Released? then Some(e.id) else None
  const REFUSED_PAIR := (e: Entry) => if e.verdict.Refused? then Some((e.id, e.verdict.reason)) else None
  const FAILED_PAIR := (e: Entry) => if e.verdict.Failed? then Some((e.id, e.verdict.reason)) else None
  const STRANGER_PAIR := (e: Entry) => if e.verdict.Stranger? then Some((e.id, e.verdict.name)) else None

  /** The report of a list of decisions. */
  function Tally(entries: seq<Entry>, dryRun: bool): SweepOutcome {
    SweepOutcome(dryRun, |Select(entries, COUNTED_ID)|, Select(entries, RELEASED_ID),
                 Select(entries, REFUSED_PAIR), Select(entries, FAILED_PAIR), Select(entries, STRANGER_PAIR))
  }

  function Report(planes: seq<Plane>, cases: seq<Case>, dryRun: bool, now: Timestamp): SweepOutcome {
    Tally(Entries(planes, cases, dryRun, now), dryRun)
  }

  lemma SelectLast<T>(entries: seq<Entry>, e: Entry, f: Entry -> Option<T>)
    ensures Select(entries + [e], f) == Select(entries, f) + if f(e).Some? then [f(e).value] else []
  {
    var longer := entries + [e];
    assert longer[..|longer| - 1] == entries;
  }

  /** Recording one more decision, as the sweep does: at most one list grows by one. */
  function Noted(outcome: SweepOutcome, e: Entry): SweepOutcome {
    var counted := outcome.(expired := outcome.expired + if e.counted then 1 else 0);
    match e.verdict
    case Passed => counted
    case Stranger(name) => counted.(unknown := counted.unknown + [(e.id, name)])
    case Refused(reason) => counted.(refused := counted.refused + [(e.id, reason)])
    case Failed(reason) => counted.(failed := counted.failed + [(e.id, reason)])
    case Released => counted.(released := counted.released + [e.id])
  }

  lemma TallyNotes(entries: seq<Entry>, e: Entry, dryRun: bool)
    ensures Tally(entries + [e], dryRun) == Noted(Tally(entries, dryRun), e)
  {
    SelectLast(entries, e, COUNTED_ID);
    SelectLast(entries, e, RELEASED_ID);
    SelectLast(entries, e, REFUSED_PAIR);
    SelectLast(entries, e, FAILED_PAIR);
    SelectLast(entries, e, STRANGER_PAIR);
  }

  // ---- What a report says of each machine and row ----

  /** A listed machine, by its own name: one whose stamp does not read is a stranger; one whose lease has not
      run out is passed; one whose lease has is counted, and is what its gate says, or what its release did. */
  lemma EveryMachineIsReported(o: SweepOutcome, seen: Seen, dryRun: bool, now: Timestamp)
    ensures var id, counted := seen.machine.id, o.(expired := o.expired + 1);
            Noted(o, MachineEntry(seen, dryRun, now)) ==
            match seen.machine.name
            case None => o.(unknown := o.unknown + [(id, "")])
            case Some(text) =>
              match ExpiryOf(text)
              case None => o.(unknown := o.unknown + [(id, text)])
              case Some(expiresAt) =>
                if now < expiresAt then o
                else match seen.gate
                  case Holding(reason) => counted.(refused := o.refused + [(id, reason)])
                  case Unreadable(reason) => counted.(failed := o.failed + [(id, reason)])
                  case Clear =>
                    if dryRun || seen.call == Succeeded then counted.(released := o.released + [id])
                    else counted.(failed := o.failed + [(id, seen.call.why)])
    ensures seen.machine.id in HandledBy([Taken("p", [seen])], now) <==>
              seen.machine.name.Some? && ExpiryOf(seen.machine.name.value).Some?
  {
    hide ExpiryOf;
    assert [Taken("p", [seen])][0] in [Taken("p", [seen])] && [seen][0] in [seen];
  }

  /** A recorded one: passed over where a listing settled it, or its platform was listed without it; failed,
      uncounted, where its lease or its gate cannot be read; passed where its lease has not run out; and
      otherwise counted, and refused, released or failed as a listed one is. */
  lemma EveryRowIsReported(o: SweepOutcome, c: Case, handled: set<string>, listed: map<string, set<string>>,
                           dryRun: bool, now: Timestamp)
    ensures var id, counted := c.row.id, o.(expired := o.expired + 1);
            Noted(o, RowEntry(c, handled, listed, dryRun, now)) ==
            if id in handled || (c.row.provider in listed && id !in listed[c.row.provider]) then o
            else match c.row.expiresAt
              case None => o.(failed := o.failed + [(id, LeaseUnreadable)])
              case Some(expiresAt) =>
                if now < expiresAt then o
                else match c.gate
                  case Holding(reason) => counted.(refused := o.refused + [(id, reason)])
                  case Unreadable(reason) => o.(failed := o.failed + [(id, reason)])
                  case Clear =>
                    if dryRun || c.call == Succeeded then counted.(released := o.released + [id])
                    else counted.(failed := o.failed + [(id, c.call.why)])
    ensures Place(c.row, handled, listed) == Gone <==>
              c.row.id !in handled && c.row.provider in listed && c.row.id !in listed[c.row.provider]
  {
  }

  // ---- What the report means ----

  /** Failures no count covers: an unread platform, and an outstanding row whose
      lease or whose gate could not be read. */
  function Uncounted(entries: seq<Entry>): nat {
    |Select(entries, (e: Entry) => if e.verdict.Failed? && !e.counted then Some(e.id) else None)|
  }

  predicate WellCounted(e: Entry) {
    && (e.counted ==> e.verdict.Released? || e.verdict.Refused? || e.verdict.Failed?)
    && (e.verdict.Released? || e.verdict.Refused? ==> e.counted)
    && (e.called ==> e.counted && (e.verdict.Released? || e.verdict.Failed?))
  }

  lemma {:induction false} PlatformHalfHas(planes: seq<Plane>, dryRun: bool, now: Timestamp, e: Entry)
    ensures e in PlatformHalf(planes, dryRun, now) <==>
            exists plane :: plane in planes && e in PlaneEntries(plane, dryRun, now)
  {
    if planes != [] {
      var shorter, last := planes[..|planes| - 1], planes[|planes| - 1];
      PlatformHalfHas(shorter, dryRun, now, e);
      assert forall plane :: plane in planes <==> plane in shorter || plane == last;
    }
  }

  lemma MachineIsWellCounted(seen: Seen, dryRun: bool, now: Timestamp)
    ensures WellCounted(MachineEntry(seen, dryRun, now))
  {
    hide StandingOf;
  }

  lemma RowIsWellCounted(c: Case, handled: set<string>, listed: map<string, set<string>>, dryRun: bool, now: Timestamp)
    ensures WellCounted(RowEntry(c, handled, listed, dryRun, now))
  {
  }

  lemma PlaneIsWellCounted(plane: Plane, dryRun: bool, now: Timestamp)
    ensures forall e :: e in PlaneEntries(plane, dryRun, now) ==> WellCounted(e)
  {
    hide MachineEntry;
    var entries := PlaneEntries(plane, dryRun, now);
    forall i | 0 <= i < |entries|
      ensures WellCounted(entries[i])
    {
      if plane.Taken? {
        MachineIsWellCounted(plane.seen[i], dryRun, now);
      }
    }
  }

  lemma AllWellCounted(planes: seq<Plane>, cases: seq<Case>, dryRun: bool, now: Timestamp)
    ensures forall e :: e in Entries(planes, cases, dryRun, now) ==> WellCounted(e)
  {
    hide PlaneEntries, RowEntry, WellCounted, HandledBy, ListedBy;
    forall e | e in PlatformHalf(planes, dryRun, now)
      ensures WellCounted(e)
    {
      PlatformHalfHas(planes, dryRun, now, e);
      var plane :| plane in planes && e in PlaneEntries(plane, dryRun, now);
      PlaneIsWellCounted(plane, dryRun, now);
    }
    var handled, listed := HandledBy(planes, now), ListedBy(planes);
    var recorded := RecordHalf(cases, handled, listed, dryRun, now);
    forall i | 0 <= i < |cases|
      ensures WellCounted(recorded[i])
    {
      RowIsWellCounted(cases[i], handled, listed, dryRun, now);
    }
  }

  lemma {:induction false} TallyAccounts(entries: seq<Entry>, dryRun: bool)
    requires forall e :: e in entries ==> WellCounted(e)
    ensures var o := Tally(entries, dryRun);
            o.expired + Uncounted(entries) == |o.released| + |o.refused| + |o.failed|
  {
    if entries != [] {
      TallyAccounts(entries[..|entries| - 1], dryRun);
      assert entries[|entries| - 1] in entries;
    }
  }

  /** Every machine counted as expired lands in exactly one of released, refused and failed, and
      what else is in `failed` is exactly the uncounted failures. */
  lemma EveryExpiredMachineIsAccountedFor(planes: seq<Plane>, cases: seq<Case>, dryRun: bool, now: Timestamp)
    ensures var o := Report(planes, cases, dryRun, now);
            o.expired + Uncounted(Entries(planes, cases, dryRun, now))
            == |o.released| + |o.refused| + |o.failed|
  {
    AllWellCounted(planes, cases, dryRun, now);
    TallyAccounts(Entries(planes, cases, dryRun, now), dryRun);
  }

  /** The field's documentation promises a count of every machine whose lease was read and had run
      out. It is not kept for a recorded machine whose gate could not be read: the platform half
      counts such a machine, the record half does not. */
  lemma AnUnreadableGateIsCountedOnce(row: Row, machine: Machine, now: Timestamp, call: Call)
    requires row.expiresAt.Some? && row.expiresAt.value <= now
    requires StandingOf(machine, now) == Standing.Expired
    ensures var unread := Unreadable(LedgerUnreadable);
            && Report([Taken("p", [Seen(machine, unread, call)])], [], false, now).expired == 1
            && Report([], [Case(row, unread, call)], false, now).expired == 0
            && Report([], [Case(row, unread, call)], false, now).failed == [(row.id, LedgerUnreadable)]
  {
    hide StandingOf, Select;
    var unread := Unreadable(LedgerUnreadable);
    var plane := Taken("p", [Seen(machine, unread, call)]);
    var platform := Entry(machine.id, Verdict.Failed(LedgerUnreadable), true, false);
    var recorded := Entry(row.id, Verdict.Failed(LedgerUnreadable), false, false);
    assert [plane][..0] == [] && PlatformHalf([], false, now) == [];
    assert PlaneEntries(plane, false, now) == [platform];
    assert Entries([plane], [], false, now) == [] + [platform];
    assert TakenNames([]) == {};
    assert Entries([], [Case(row, unread, call)], false, now) == [] + [recorded];
    TallyNotes([], platform, false);
    TallyNotes([], recorded, false);
    EmptyTally();
  }

  lemma {:induction false} SelectJoins<T>(a: seq<Entry>, b: seq<Entry>, f: Entry -> Option<T>)
    ensures Select(a + b, f) == Select(a, f) + Select(b, f)
  {
    if b == [] {
      assert a + b == a;
    } else {
      var n := |b| - 1;
      assert (a + b)[..|a + b| - 1] == a + b[..n];
      SelectJoins(a, b[..n], f);
    }
  }

  function CountOf<T>(xs: seq<T>, p: T -> bool): (n: nat)
    ensures n <= |xs|
  {
    if xs == [] then 0 else CountOf(xs[..|xs| - 1], p) + if p(xs[|xs| - 1]) then 1 else 0
  }

  lemma {:induction false} CountOfNone<T>(xs: seq<T>, p: T -> bool)
    ensures CountOf(xs, p) == 0 <==> forall x :: x in xs ==> !p(x)
  {
    if xs != [] {
      CountOfNone(xs[..|xs| - 1], p);
      assert forall x :: x in xs <==> x in xs[..|xs| - 1] || x == xs[|xs| - 1];
    }
  }

  /** Entries made one from each of some things, counted where a test of the things says so. */
  lemma {:induction false} CountedAre<T>(xs: seq<T>, entries: seq<Entry>, p: T -> bool)
    requires |entries| == |xs| && forall i :: 0 <= i < |xs| ==> (entries[i].counted <==> p(xs[i]))
    ensures |Select(entries, COUNTED_ID)| == CountOf(xs, p)
  {
    if xs != [] {
      var n := |xs| - 1;
      CountedAre(xs[..n], entries[..n], p);
    }
  }

  predicate MachineReached(seen: Seen, now: Timestamp) { StandingOf(seen.machine, now) == Standing.Expired }

  /** A row that is judged, and whose lease was read and has run out. */
  predicate RowReached(c: Case, handled: set<string>, listed: map<string, set<string>>, now: Timestamp) {
    Place(c.row, handled, listed) == Judge && c.row.expiresAt.Some? && c.row.expiresAt.value <= now
  }

  /** The listed machines whose lease was read and has run out. */
  function ReachedMachines(planes: seq<Plane>, now: Timestamp): nat {
    if planes == [] then 0
    else
      var last := planes[|planes| - 1];
      ReachedMachines(planes[..|planes| - 1], now)
      + if last.Taken? then CountOf(last.seen, (seen: Seen) => MachineReached(seen, now)) else 0
  }

  function ReachedRows(planes: seq<Plane>, cases: seq<Case>, now: Timestamp): nat {
    CountOf(cases, (c: Case) => RowReached(c, HandledBy(planes, now), ListedBy(planes), now))
  }

  lemma PlaneCounts(plane: Plane, dryRun: bool, now: Timestamp)
    ensures |Select(PlaneEntries(plane, dryRun, now), COUNTED_ID)| ==
            if plane.Taken? then CountOf(plane.seen, (seen: Seen) => MachineReached(seen, now)) else 0
  {
    var entries := PlaneEntries(plane, dryRun, now);
    match plane {
      case Unread(_, _) =>
        assert entries[..0] == [];
      case Taken(_, seen) =>
        hide StandingOf;
        CountedAre(seen, entries, (seen: Seen) => MachineReached(seen, now));
    }
  }

  lemma {:induction false} PlatformCounts(planes: seq<Plane>, dryRun: bool, now: Timestamp)
    ensures |Select(PlatformHalf(planes, dryRun, now), COUNTED_ID)| == ReachedMachines(planes, now)
  {
    if planes != [] {
      hide PlaneEntries, Select;
      var shorter, last := planes[..|planes| - 1], planes[|planes| - 1];
      PlatformCounts(shorter, dryRun, now);
      PlaneCounts(last, dryRun, now);
      SelectJoins(PlatformHalf(shorter, dryRun, now), PlaneEntries(last, dryRun, now), COUNTED_ID);
    }
  }

  lemma {:induction false} CountsApart<T>(xs: seq<T>, all: T -> bool, some: T -> bool, others: T -> bool)
    requires forall x :: x in xs ==> (all(x) <==> some(x) || others(x)) && !(some(x) && others(x))
    ensures CountOf(xs, all) == CountOf(xs, some) + CountOf(xs, others)
  {
    if xs != [] {
      CountsApart(xs[..|xs| - 1], all, some, others);
    }
  }

  lemma RecordCounts(planes: seq<Plane>, cases: seq<Case>, dryRun: bool, now: Timestamp)
    ensures var handled, listed := HandledBy(planes, now), ListedBy(planes);
            var unread := CountOf(cases, (c: Case) => RowReached(c, handled, listed, now) && c.gate.Unreadable?);
            |Select(RecordHalf(cases, handled, listed, dryRun, now), COUNTED_ID)| + unread
            == ReachedRows(planes, cases, now)
  {
    hide HandledBy, ListedBy, Select;
    var handled, listed := HandledBy(planes, now), ListedBy(planes);
    var counted := (c: Case) => RowReached(c, handled, listed, now) && !c.gate.Unreadable?;
    var unread := (c: Case) => RowReached(c, handled, listed, now) && c.gate.Unreadable?;
    CountedAre(cases, RecordHalf(cases, handled, listed, dryRun, now), counted);
    CountsApart(cases, (c: Case) => RowReached(c, handled, listed, now), counted, unread);
  }

  /** `expired` is the count its documentation promises, of the machines whose lease was read and had
      run out, if and only if the gate could be read for every judged row whose lease had. */
  lemma ExpiredIsTheCountExactly(planes: seq<Plane>, cases: seq<Case>, dryRun: bool, now: Timestamp)
    ensures Report(planes, cases, dryRun, now).expired == ReachedMachines(planes, now) + ReachedRows(planes, cases, now)
            <==> forall c :: c in cases && RowReached(c, HandledBy(planes, now), ListedBy(planes), now) ==>
                   !c.gate.Unreadable?
  {
    hide HandledBy, ListedBy, Select, PlatformHalf, RecordHalf, ReachedMachines, RowReached;
    var handled, listed := HandledBy(planes, now), ListedBy(planes);
    PlatformCounts(planes, dryRun, now);
    RecordCounts(planes, cases, dryRun, now);
    SelectJoins(PlatformHalf(planes, dryRun, now), RecordHalf(cases, handled, listed, dryRun, now), COUNTED_ID);
    CountOfNone(cases, (c: Case) => RowReached(c, handled, listed, now) && c.gate.Unreadable?);
  }

  lemma EmptyTally()
    ensures Tally([], false) == SweepOutcome(false, 0, [], [], [], [])
  {
  }

  /** The exit is zero iff no decision is a failure; a refusal is none. */
  lemma ExitSaysNothingFailed(planes: seq<Plane>, cases: seq<Case>, dryRun: bool, now: Timestamp)
    ensures SweepExit(Report(planes, cases, dryRun, now)) == 0 <==>
            forall e :: e in Entries(planes, cases, dryRun, now) ==> !e.verdict.Failed?
  {
    hide Entries;
    NoneFailed(Entries(planes, cases, dryRun, now));
  }

  lemma {:induction false} NoneFailed(entries: seq<Entry>)
    ensures Select(entries, FAILED_PAIR) == [] <==> forall e :: e in entries ==> !e.verdict.Failed?
  {
    if entries != [] {
      var shorter, last := entries[..|entries| - 1], entries[|entries| - 1];
      NoneFailed(shorter);
      assert forall e :: e in entries <==> e in shorter || e == last;
    }
  }

  // ---- A dry run ----

  /** The release of a machine found due, if it is one, succeeds. */
  predicate MachineCallSucceeds(seen: Seen, now: Timestamp) {
    StandingOf(seen.machine, now) == Standing.Expired && seen.gate == Clear ==> seen.call == Succeeded
  }

  predicate RowCallSucceeds(c: Case, handled: set<string>, listed: map<string, set<string>>, now: Timestamp) {
    Place(c.row, handled, listed) == Judge && DueOf(c.row, now, c.gate) == Due.Expired ==> c.call == Succeeded
  }

  predicate PlaneCallsSucceed(plane: Plane, now: Timestamp) {
    plane.Taken? ==> forall i :: 0 <= i < |plane.seen| ==> MachineCallSucceeds(plane.seen[i], now)
  }

  /** Every release that is due succeeds. */
  predicate DueCallsSucceed(planes: seq<Plane>, cases: seq<Case>, now: Timestamp) {
    && (forall i :: 0 <= i < |planes| ==> PlaneCallsSucceed(planes[i], now))
    && (forall i :: 0 <= i < |cases| ==> RowCallSucceeds(cases[i], HandledBy(planes, now), ListedBy(planes), now))
  }

  /** A dry run's decision against the one acted on: the same, or forecasting as released a machine
      the real run failed to release. */
  predicate Foretells(dry: Entry, acted: Entry) {
    && dry.id == acted.id && dry.counted == acted.counted
    && (dry.verdict == acted.verdict || (dry.verdict.Released? && acted.verdict.Failed?))
  }

  predicate AllForetell(dry: seq<Entry>, acted: seq<Entry>) {
    |dry| == |acted| && forall i :: 0 <= i < |dry| ==> Foretells(dry[i], acted[i])
  }

  predicate SameVerdicts(dry: seq<Entry>, acted: seq<Entry>)
    requires |dry| == |acted|
  {
    forall i :: 0 <= i < |dry| ==> dry[i].verdict == acted[i].verdict
  }

  lemma MachineForetells(seen: Seen, now: Timestamp)
    ensures var dry, acted := MachineEntry(seen, true, now), MachineEntry(seen, false, now);
            Foretells(dry, acted) && (dry.verdict == acted.verdict <==> MachineCallSucceeds(seen, now))
  {
    hide StandingOf;
  }

  lemma RowForetells(c: Case, handled: set<string>, listed: map<string, set<string>>, now: Timestamp)
    ensures var dry, acted := RowEntry(c, handled, listed, true, now), RowEntry(c, handled, listed, false, now);
            Foretells(dry, acted) && (dry.verdict == acted.verdict <==> RowCallSucceeds(c, handled, listed, now))
  {
  }

  lemma PlaneForetells(plane: Plane, now: Timestamp)
    ensures var dry, acted := PlaneEntries(plane, true, now), PlaneEntries(plane, false, now);
            AllForetell(dry, acted) && (SameVerdicts(dry, acted) <==> PlaneCallsSucceed(plane, now))
  {
    hide MachineEntry, Foretells, MachineCallSucceeds;
    if plane.Taken? {
      var dry, acted := PlaneEntries(plane, true, now), PlaneEntries(plane, false, now);
      forall i | 0 <= i < |plane.seen|
        ensures Foretells(dry[i], acted[i])
        ensures dry[i].verdict == acted[i].verdict <==> MachineCallSucceeds(plane.seen[i], now)
      {
        MachineForetells(plane.seen[i], now);
      }
    } else {
      assert Foretells(Entry(plane.name, Verdict.Failed(plane.why), false, false),
                       Entry(plane.name, Verdict.Failed(plane.why), false, false)) by {
        AlwaysForetellsItself(Entry(plane.name, Verdict.Failed(plane.why), false, false));
      }
    }
  }

  lemma AlwaysForetellsItself(e: Entry)
    ensures Foretells(e, e)
  {
  }

  lemma Joined(d0: seq<Entry>, d1: seq<Entry>, a0: seq<Entry>, a1: seq<Entry>)
    requires AllForetell(d0, a0) && AllForetell(d1, a1)
    ensures AllForetell(d0 + d1, a0 + a1)
    ensures SameVerdicts(d0 + d1, a0 + a1) <==> SameVerdicts(d0, a0) && SameVerdicts(d1, a1)
  {
    hide Foretells;
    if SameVerdicts(d0 + d1, a0 + a1) {
      forall i | 0 <= i < |d0|
        ensures d0[i].verdict == a0[i].verdict
      {
        assert (d0 + d1)[i].verdict == (a0 + a1)[i].verdict;
      }
      forall i | 0 <= i < |d1|
        ensures d1[i].verdict == a1[i].verdict
      {
        assert (d0 + d1)[|d0| + i].verdict == (a0 + a1)[|d0| + i].verdict;
      }
    }
  }

  lemma {:induction false} PlatformHalfForetells(planes: seq<Plane>, now: Timestamp)
    ensures var dry, acted := PlatformHalf(planes, true, now), PlatformHalf(planes, false, now);
            AllForetell(dry, acted)
            && (SameVerdicts(dry, acted) <==> forall i :: 0 <= i < |planes| ==> PlaneCallsSucceed(planes[i], now))
  {
    hide AllForetell, SameVerdicts, PlaneEntries, PlaneCallsSucceed;
    if planes == [] {
      EmptyForetells();
    } else {
      var shorter, last := planes[..|planes| - 1], planes[|planes| - 1];
      PlatformHalfForetells(shorter, now);
      PlaneForetells(last, now);
      Joined(PlatformHalf(shorter, true, now), PlaneEntries(last, true, now),
             PlatformHalf(shorter, false, now), PlaneEntries(last, false, now));
      assert forall i :: 0 <= i < |shorter| ==> planes[i] == shorter[i];
    }
  }

  lemma EmptyForetells()
    ensures AllForetell([], []) && SameVerdicts([], [])
  {
  }

  lemma RecordHalfForetells(cases: seq<Case>, handled: set<string>, listed: map<string, set<string>>, now: Timestamp)
    ensures var dry := RecordHalf(cases, handled, listed, true, now);
            var acted := RecordHalf(cases, handled, listed, false, now);
            AllForetell(dry, acted)
            && (SameVerdicts(dry, acted) <==>
                forall i :: 0 <= i < |cases| ==> RowCallSucceeds(cases[i], handled, listed, now))
  {
    hide RowEntry, Foretells, RowCallSucceeds;
    var dry, acted := RecordHalf(cases, handled, listed, true, now), RecordHalf(cases, handled, listed, false, now);
    forall i | 0 <= i < |cases|
      ensures Foretells(dry[i], acted[i])
      ensures dry[i].verdict == acted[i].verdict <==> RowCallSucceeds(cases[i], handled, listed, now)
    {
      RowForetells(cases[i], handled, listed, now);
    }
  }

  /** Two reports that differ, if at all, by machines moved from `released` to `failed`. */
  predicate Agree(d: SweepOutcome, a: SweepOutcome, same: bool) {
    && a.expired == d.expired && a.refused == d.refused && a.unknown == d.unknown
    && |a.released| + |a.failed| == |d.released| + |d.failed| && |a.failed| >= |d.failed|
    && (same ==> a.released == d.released && a.failed == d.failed)
    && (|a.failed| == |d.failed| ==> same)
  }

  lemma AgreementGrows(d: SweepOutcome, a: SweepOutcome, same: bool, dry: Entry, acted: Entry)
    requires Agree(d, a, same) && Foretells(dry, acted)
    ensures Agree(Noted(d, dry), Noted(a, acted), same && dry.verdict == acted.verdict)
  {
  }

  lemma {:induction false} TalliesAgree(dry: seq<Entry>, acted: seq<Entry>)
    requires AllForetell(dry, acted)
    ensures Agree(Tally(dry, true), Tally(acted, false), SameVerdicts(dry, acted))
  {
    if dry == [] {
      EmptyTally();
    } else {
      hide Tally, Agree, Noted;
      var n := |dry| - 1;
      TalliesAgree(dry[..n], acted[..n]);
      assert dry == dry[..n] + [dry[n]] && acted == acted[..n] + [acted[n]];
      TallyNotes(dry[..n], dry[n], true);
      TallyNotes(acted[..n], acted[n], false);
      AgreementGrows(Tally(dry[..n], true), Tally(acted[..n], false), SameVerdicts(dry[..n], acted[..n]), dry[n],
                     acted[n]);
      assert SameVerdicts(dry, acted) <==> SameVerdicts(dry[..n], acted[..n]) && dry[n].verdict == acted[n].verdict;
    }
  }

  /** A dry run's report is the real run's on the same answers, `dry_run` aside, exactly when every
      release that is due succeeds; and where one fails, only `released` and `failed` differ. */
  lemma DryRunForecasts(planes: seq<Plane>, cases: seq<Case>, now: Timestamp)
    ensures var dry, acted := Report(planes, cases, true, now), Report(planes, cases, false, now);
            && (DueCallsSucceed(planes, cases, now) <==> acted == dry.(dryRun := false))
            && acted.expired == dry.expired && acted.refused == dry.refused && acted.unknown == dry.unknown
            && |acted.released| + |acted.failed| == |dry.released| + |dry.failed|
  {
    hide PlatformHalf, RecordHalf, AllForetell, SameVerdicts, Select;
    var handled, listed := HandledBy(planes, now), ListedBy(planes);
    PlatformHalfForetells(planes, now);
    RecordHalfForetells(cases, handled, listed, now);
    Joined(PlatformHalf(planes, true, now), RecordHalf(cases, handled, listed, true, now),
           PlatformHalf(planes, false, now), RecordHalf(cases, handled, listed, false, now));
    TalliesAgree(Entries(planes, cases, true, now), Entries(planes, cases, false, now));
  }

  // ---- One release per machine ----

  predicate NoRepeats(ids: seq<string>) {
    forall i, j :: 0 <= i < j < |ids| ==> ids[i] != ids[j]
  }

  /** The machines a platform listed, in order. */
  function SeenIds(plane: Plane): seq<string> {
    match plane
    case Unread(_, _) => []
    case Taken(_, seen) => seq(|seen|, i requires 0 <= i < |seen| => seen[i].machine.id)
  }

  /** Every machine every platform listed, in order. */
  function AllSeen(planes: seq<Plane>): seq<string> {
    if planes == [] then []
    else AllSeen(planes[..|planes| - 1]) + SeenIds(planes[|planes| - 1])
  }

  function CallsIn(entries: seq<Entry>): seq<Called> { Select(entries, CALL_MADE) }

  predicate NoneTwice(calls: seq<Called>) {
    forall i, j :: 0 <= i < j < |calls| ==> calls[i].id != calls[j].id
  }

  predicate CallsDistinct(entries: seq<Entry>) {
    forall i, j :: 0 <= i < j < |entries| && entries[i].called && entries[j].called ==> entries[i].id != entries[j].id
  }

  /** The entries that run a release name only ids in `ids`. */
  predicate CallsWithin(entries: seq<Entry>, ids: set<string>) {
    forall e :: e in entries && e.called ==> e.id in ids
  }

  lemma {:induction false} DistinctCallsDoNotRepeat(entries: seq<Entry>)
    requires CallsDistinct(entries)
    ensures NoneTwice(CallsIn(entries))
    ensures forall c :: c in CallsIn(entries) ==>
              exists i :: 0 <= i < |entries| && entries[i].called && entries[i].id == c.id
  {
    if entries != [] {
      var n := |entries| - 1;
      DistinctCallsDoNotRepeat(entries[..n]);
      assert forall i :: 0 <= i < n ==> entries[..n][i] == entries[i];
      assert entries[n].called ==> forall c :: c in CallsIn(entries[..n]) ==> c.id != entries[n].id;
    }
  }

  lemma DistinctHalves(a: seq<Entry>, b: seq<Entry>, left: set<string>, right: set<string>)
    requires CallsDistinct(a) && CallsWithin(a, left)
    requires CallsDistinct(b) && CallsWithin(b, right)
    requires left !! right
    ensures CallsDistinct(a + b)
  {
    forall i, j | 0 <= i < j < |a + b| && (a + b)[i].called && (a + b)[j].called
      ensures (a + b)[i].id != (a + b)[j].id
    {
      if i < |a| <= j {
        assert a[i] in a && b[j - |a|] in b;
      }
    }
  }

  lemma MachineIsCalledWhenStamped(seen: Seen, dryRun: bool, now: Timestamp)
    ensures var e := MachineEntry(seen, dryRun, now);
            e.id == seen.machine.id && (e.called ==> StandingOf(seen.machine, now) == Standing.Expired && !dryRun)
  {
    hide StandingOf;
  }

  lemma PlaneCallsDistinct(plane: Plane, dryRun: bool, now: Timestamp)
    requires NoRepeats(SeenIds(plane))
    ensures CallsDistinct(PlaneEntries(plane, dryRun, now))
    ensures forall e :: e in PlaneEntries(plane, dryRun, now) && e.called ==> e.id in SeenIds(plane)
  {
    hide MachineEntry, StandingOf;
    var entries, ids := PlaneEntries(plane, dryRun, now), SeenIds(plane);
    forall i | 0 <= i < |entries|
      ensures entries[i].called ==> plane.Taken? && entries[i].id == ids[i]
    {
      if plane.Taken? {
        MachineIsCalledWhenStamped(plane.seen[i], dryRun, now);
      }
    }
  }

  lemma PlaneCallsHandled(plane: Plane, planes: seq<Plane>, dryRun: bool, now: Timestamp, e: Entry)
    requires plane in planes && e in PlaneEntries(plane, dryRun, now) && e.called
    ensures e.id in HandledBy(planes, now)
  {
    hide MachineEntry, StandingOf;
    if plane.Taken? {
      var i :| 0 <= i < |plane.seen| && e == MachineEntry(plane.seen[i], dryRun, now);
      MachineIsCalledWhenStamped(plane.seen[i], dryRun, now);
    }
  }

  lemma {:induction false} PlatformCallsDistinct(planes: seq<Plane>, dryRun: bool, now: Timestamp)
    requires NoRepeats(AllSeen(planes))
    ensures CallsDistinct(PlatformHalf(planes, dryRun, now))
    ensures forall e :: e in PlatformHalf(planes, dryRun, now) && e.called ==> e.id in AllSeen(planes)
  {
    if planes != [] {
      hide PlaneEntries, SeenIds, CallsDistinct;
      var shorter, last := planes[..|planes| - 1], planes[|planes| - 1];
      var before, here := AllSeen(shorter), SeenIds(last);
      assert AllSeen(planes) == before + here;
      NoRepeatsSplits(before, here);
      PlatformCallsDistinct(shorter, dryRun, now);
      PlaneCallsDistinct(last, dryRun, now);
      DistinctHalves(PlatformHalf(shorter, dryRun, now), PlaneEntries(last, dryRun, now),
                     set x | x in before, set x | x in here);
    }
  }

  lemma NoRepeatsSplits(a: seq<string>, b: seq<string>)
    requires NoRepeats(a + b)
    ensures NoRepeats(a) && NoRepeats(b) && forall x :: x in a ==> x !in b
  {
    var s := a + b;
    assert forall i :: 0 <= i < |a| ==> a[i] == s[i];
    assert forall i :: 0 <= i < |b| ==> b[i] == s[|a| + i];
  }

  predicate DistinctRows(cases: seq<Case>) {
    forall i, j :: 0 <= i < j < |cases| ==> cases[i].row.id != cases[j].row.id
  }

  lemma RecordCallsDistinct(cases: seq<Case>, handled: set<string>, listed: map<string, set<string>>,
                            dryRun: bool, now: Timestamp)
    requires DistinctRows(cases)
    ensures CallsDistinct(RecordHalf(cases, handled, listed, dryRun, now))
    ensures forall e :: e in RecordHalf(cases, handled, listed, dryRun, now) && e.called ==> e.id !in handled
  {
    hide DueOf;
    var entries := RecordHalf(cases, handled, listed, dryRun, now);
    forall i | 0 <= i < |entries|
      ensures entries[i].id == cases[i].row.id && (entries[i].called ==> entries[i].id !in handled)
    {
    }
  }

  /** No id is released by both halves of a sweep; and when no listing repeats an id, no id is
      released twice at all. */
  lemma OneReleasePerMachine(planes: seq<Plane>, cases: seq<Case>, dryRun: bool, now: Timestamp)
    requires DistinctRows(cases)
    ensures var platform := PlatformHalf(planes, dryRun, now);
            var record := RecordHalf(cases, HandledBy(planes, now), ListedBy(planes), dryRun, now);
            forall a, b :: a in platform && b in record && a.called && b.called ==> a.id != b.id
    ensures NoRepeats(AllSeen(planes)) ==> NoneTwice(CallsIn(Entries(planes, cases, dryRun, now)))
  {
    hide PlatformHalf, RecordHalf, HandledBy, ListedBy, CallsDistinct, Select;
    var handled, listed := HandledBy(planes, now), ListedBy(planes);
    var platform, record := PlatformHalf(planes, dryRun, now), RecordHalf(cases, handled, listed, dryRun, now);
    RecordCallsDistinct(cases, handled, listed, dryRun, now);
    forall e | e in platform && e.called
      ensures e.id in handled
    {
      PlatformHalfHas(planes, dryRun, now, e);
      var plane :| plane in planes && e in PlaneEntries(plane, dryRun, now);
      PlaneCallsHandled(plane, planes, dryRun, now, e);
    }
    if NoRepeats(AllSeen(planes)) {
      PlatformCallsDistinct(planes, dryRun, now);
      DistinctHalves(platform, record, handled, (set e | e in record && e.called :: e.id));
      DistinctCallsDoNotRepeat(platform + record);
    }
  }

  // ---- What is reported as released ----

  /** The machines whose release was run and exited zero, in order. */
  function SucceededIds(calls: seq<Called>): seq<string> {
    if calls == [] then []
    else SucceededIds(calls[..|calls| - 1]) + if calls[|calls| - 1].succeeded then [calls[|calls| - 1].id] else []
  }

  /** In a real run only a release that was run is reported. */
  predicate ReportsWhatRan(e: Entry) { e.verdict.Released? ==> e.called }

  lemma PlaneReportsWhatRan(plane: Plane, now: Timestamp)
    ensures forall e :: e in PlaneEntries(plane, false, now) ==> ReportsWhatRan(e)
  {
    hide StandingOf;
    var entries := PlaneEntries(plane, false, now);
    if plane.Taken? {
      assert forall i :: 0 <= i < |entries| ==> ReportsWhatRan(MachineEntry(plane.seen[i], false, now));
    }
  }

  lemma AllReportWhatRan(planes: seq<Plane>, cases: seq<Case>, now: Timestamp)
    ensures forall e :: e in Entries(planes, cases, false, now) ==> ReportsWhatRan(e)
  {
    hide PlaneEntries, HandledBy, ListedBy, DueOf, ReportsWhatRan;
    forall e | e in PlatformHalf(planes, false, now)
      ensures ReportsWhatRan(e)
    {
      PlatformHalfHas(planes, false, now, e);
      var plane :| plane in planes && e in PlaneEntries(plane, false, now);
      PlaneReportsWhatRan(plane, now);
    }
    var handled, listed := HandledBy(planes, now), ListedBy(planes);
    forall i | 0 <= i < |cases|
      ensures ReportsWhatRan(RowEntry(cases[i], handled, listed, false, now))
    {
      RowReportsWhatRan(cases[i], handled, listed, now);
    }
  }

  lemma RowReportsWhatRan(c: Case, handled: set<string>, listed: map<string, set<string>>, now: Timestamp)
    ensures ReportsWhatRan(RowEntry(c, handled, listed, false, now))
  {
  }

  lemma {:induction false} SucceededAreSelected(entries: seq<Entry>)
    requires forall e :: e in entries ==> ReportsWhatRan(e)
    ensures Select(entries, RELEASED_ID) == SucceededIds(CallsIn(entries))
  {
    if entries != [] {
      var n := |entries| - 1;
      SucceededAreSelected(entries[..n]);
      assert ReportsWhatRan(entries[n]);
      var before := CallsIn(entries[..n]);
      if entries[n].called {
        assert CallsIn(entries)[..|before|] == before;
      } else {
        assert CallsIn(entries) == before;
      }
    }
  }

  /** A real run reports as released exactly the machines whose release it ran and that exited zero. */
  lemma ReleasedIsWhatWasReleased(planes: seq<Plane>, cases: seq<Case>, now: Timestamp)
    ensures Report(planes, cases, false, now).released == SucceededIds(CallsIn(Entries(planes, cases, false, now)))
  {
    hide Entries;
    AllReportWhatRan(planes, cases, now);
    SucceededAreSelected(Entries(planes, cases, false, now));
  }
}
