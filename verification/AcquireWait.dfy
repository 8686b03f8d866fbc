/** What `machine acquire` does once the machine exists: ask about it until it has come up or the wait
    runs out, and decide the exit. Times are nanoseconds since the wait began. */
module AcquireWait {
  import opened Wrappers
  import opened Json
  import opened Merge

  const SECOND := 1_000_000_000
  const REACHABILITY_TIMEOUT := 300 * SECOND
  const REACHABILITY_POLL := 5 * SECOND
  const MATERIALIZING_CAP := 1200 * SECOND

  /** How a machine is reached; the diagnostic of what was read is not part of this model. */
  datatype Connection = Connection(ssh: Option<string>, endpoint: Option<string>, endpoints: map<nat, string>)

  /** What an adapter reads out of a description: the address, whether the platform still calls the
      machine materializing, and whether the profile's requirements are met. */
  datatype Adapter = Adapter(
    connection: Json -> Connection,
    stillMaterializing: Json -> bool,
    satisfied: Json -> bool,
    exposesPorts: bool)

  predicate Covers(ports: seq<nat>, connection: Connection) {
    forall port :: port in ports ==> port in connection.endpoints
  }

  predicate NoAddress(connection: Connection) {
    connection.ssh.None? && connection.endpoint.None?
  }

  /** A created machine: a description that never changes and one that does. */
  class Acquired {
    /** The description the create call answered with. */
    const created: Json
    /** What it is taken to be now. */
    var inspected: Json

    constructor (created: Json)
      ensures this.created == created && inspected == created
    {
      this.created := created;
      this.inspected := created;
    }

    /** Ask what the machine is now: `None` is an inspection that failed. */
    method Inspect(answer: Option<Json>) returns (ok: bool)
      modifies this
      ensures ok <==> answer.Some?
      ensures inspected == if answer.Some? then Filled(answer.value, created) else old(inspected)
    {
      ok := answer.Some?;
      if ok {
        inspected := FillBlanks(answer.value, created);
      }
    }
  }

  /** The clock as the wait reads it, once a turn: a turn that sleeps takes at least the poll. */
  ghost predicate Ticks(clock: nat -> nat) {
    forall i: nat :: clock(i + 1) >= clock(i) + REACHABILITY_POLL
  }

  lemma TicksAre(clock: nat -> nat)
    ensures Ticks(clock) <==> forall i: nat :: clock(i + 1) >= clock(i) + 5_000_000_000
  {
  }

  lemma OneTick(clock: nat -> nat, i: nat)
    requires Ticks(clock)
    ensures clock(i + 1) >= clock(i) + REACHABILITY_POLL
  {
  }

  lemma {:induction false} TicksAddUp(clock: nat -> nat, i: nat)
    requires Ticks(clock)
    ensures clock(i) >= i * REACHABILITY_POLL
  {
    if i > 0 {
      hide Ticks;
      TicksAddUp(clock, i - 1);
      OneTick(clock, i - 1);
    }
  }

  /** The description held after `n` inspections: the latest answer, its blanks filled from the
      creation; before any answer, what was held to begin with. */
  ghost function Held(answers: nat -> Option<Json>, n: nat, initial: Json, created: Json): Json {
    if n == 0 then initial
    else if answers(n - 1).Some? then Filled(answers(n - 1).value, created)
    else Held(answers, n - 1, initial, created)
  }

  /** Nothing is left to wait for: every port asked for has an endpoint, and the platform says "not yet" of
      nothing. */
  predicate Settled(adapter: Adapter, ports: seq<nat>, held: Json) {
    && (forall port :: port in ports ==> port in adapter.connection(held).endpoints)
    && !adapter.stillMaterializing(held)
  }

  /** Something is, and there is time for it: until the deadline, or, the platform saying "not yet", the cap. */
  predicate Pending(adapter: Adapter, ports: seq<nat>, now: nat, held: Json) {
    && !Settled(adapter, ports, held)
    && (now < 300_000_000_000 || (adapter.stillMaterializing(held) && now < 1_200_000_000_000))
  }

  /** At each of the first turns something was pending. */
  ghost predicate PendingUntil(adapter: Adapter, ports: seq<nat>, clock: nat -> nat, answers: nat -> Option<Json>,
                               initial: Json, created: Json, turns: nat) {
    forall i: nat :: i < turns ==> Pending(adapter, ports, clock(i), Held(answers, i + 1, initial, created))
  }

  /** What being pending at a turn means: some port asked for had no endpoint, or the platform said "not yet"; and
      three hundred seconds had not passed, or it said so and twelve hundred had not. */
  lemma PendingMeans(adapter: Adapter, ports: seq<nat>, clock: nat -> nat, answers: nat -> Option<Json>,
                     initial: Json, created: Json, turns: nat, i: nat)
    requires PendingUntil(adapter, ports, clock, answers, initial, created, turns) && i < turns
    ensures var held := Held(answers, i + 1, initial, created);
            && ((exists port :: port in ports && port !in adapter.connection(held).endpoints)
                || adapter.stillMaterializing(held))
            && (clock(i) < 300_000_000_000 || (adapter.stillMaterializing(held) && clock(i) < 1_200_000_000_000))
  {
    hide Held;
  }

  /** One of the first sleeps began at this time or later. */
  ghost predicate SleptPast(clock: nat -> nat, sleeps: nat, time: nat) {
    exists i: nat :: i < sleeps && clock(i) >= time
  }

  lemma OneMorePending(adapter: Adapter, ports: seq<nat>, clock: nat -> nat, answers: nat -> Option<Json>,
                       initial: Json, created: Json, turn: nat, held: Json)
    requires PendingUntil(adapter, ports, clock, answers, initial, created, turn)
    requires held == Held(answers, turn + 1, initial, created)
    requires !Covers(ports, adapter.connection(held)) || adapter.stillMaterializing(held)
    requires clock(turn) < REACHABILITY_TIMEOUT
             || (adapter.stillMaterializing(held) && clock(turn) < MATERIALIZING_CAP)
    ensures PendingUntil(adapter, ports, clock, answers, initial, created, turn + 1)
  {
    hide Held;
  }

  lemma OneMoreSleep(clock: nat -> nat, turn: nat, time: nat)
    ensures SleptPast(clock, turn + 1, time) <==> SleptPast(clock, turn, time) || clock(turn) >= time
  {
  }

  lemma NothingPendingYet(adapter: Adapter, ports: seq<nat>, clock: nat -> nat, answers: nat -> Option<Json>,
                          initial: Json, created: Json)
    ensures PendingUntil(adapter, ports, clock, answers, initial, created, 0)
    ensures !SleptPast(clock, 0, REACHABILITY_TIMEOUT)
  {
  }

  lemma NothingPending(adapter: Adapter, ports: seq<nat>, held: Json)
    ensures Settled(adapter, ports, held) <==>
            Covers(ports, adapter.connection(held)) && !adapter.stillMaterializing(held)
  {
  }

  /** The polling loop: it stops when the ports are covered and the description held is settled, or at a
      deadline. `answers(0)` is the inspection made before the wait, and
      `answers(i + 1)` the one after the ith sleep. */
  method Wait(acquired: Acquired, adapter: Adapter, ports: seq<nat>, clock: nat -> nat, answers: nat -> Option<Json>)
    returns (connection: Connection, gaveUpMaterializing: bool, extended: bool, ghost sleeps: nat, ghost gaveUp: bool)
    requires Ticks(clock)
    modifies acquired
    // The address reported is the one the description held projects to.
    ensures connection == adapter.connection(acquired.inspected)
    // It ends, within two hundred and forty sleeps, and within sixty where it was not extended.
    ensures sleeps <= 240 && (!extended ==> sleeps <= 60)
    // Unless it gave up, the machine is up: every port answered for, and materializing no more.
    ensures !gaveUp ==> Settled(adapter, ports, acquired.inspected)
    // It never gives up before the deadline, nor before the cap while the platform says "not yet".
    ensures gaveUp ==> !Settled(adapter, ports, acquired.inspected) && clock(sleeps) >= 300_000_000_000
    ensures gaveUp && adapter.stillMaterializing(acquired.inspected) ==> clock(sleeps) >= 1_200_000_000_000
    // And it is the first turn it could have ended at: at each one before, what was held was not settled, and
    // the deadline had not come or, the platform saying "not yet", the cap had not.
    ensures PendingUntil(adapter, ports, clock, answers, old(acquired.inspected), acquired.created, sleeps)
    ensures extended <==> SleptPast(clock, sleeps, 300_000_000_000)
    ensures gaveUpMaterializing <==> gaveUp && adapter.stillMaterializing(acquired.inspected)
    // What it holds at the end is the last answer it got, its blanks filled from the creation.
    ensures acquired.inspected == Held(answers, sleeps + 1, old(acquired.inspected), acquired.created)
  {
    hide Filled, Ticks, PendingUntil, SleptPast, Covers, Settled;
    extended, gaveUpMaterializing, gaveUp, sleeps := false, false, false, 0;
    var answered := acquired.Inspect(answers(0));
    connection := adapter.connection(acquired.inspected);
    var turn := 0;
    NothingPendingYet(adapter, ports, clock, answers, old(acquired.inspected), acquired.created);
    while !Covers(ports, connection) || adapter.stillMaterializing(acquired.inspected)
      invariant sleeps == turn && !gaveUp && !gaveUpMaterializing
      invariant turn > 0
                ==> clock(turn - 1) < MATERIALIZING_CAP && (!extended ==> clock(turn - 1) < REACHABILITY_TIMEOUT)
      invariant PendingUntil(adapter, ports, clock, answers, old(acquired.inspected), acquired.created, turn)
      invariant extended <==> SleptPast(clock, turn, REACHABILITY_TIMEOUT)
      invariant connection == adapter.connection(acquired.inspected)
      invariant acquired.inspected == Held(answers, turn + 1, old(acquired.inspected), acquired.created)
      decreases if clock(turn) < MATERIALIZING_CAP then MATERIALIZING_CAP - clock(turn) else 0, if gaveUp then 0 else 1
    {
      var now := clock(turn);
      if now >= REACHABILITY_TIMEOUT {
        if now < MATERIALIZING_CAP && adapter.stillMaterializing(acquired.inspected) {
          extended := true;
        } else {
          gaveUpMaterializing := adapter.stillMaterializing(acquired.inspected);
          gaveUp := true;
          break;
        }
      }
      OneTick(clock, turn);
      OneMorePending(adapter, ports, clock, answers, old(acquired.inspected), acquired.created, turn,
                     acquired.inspected);
      OneMoreSleep(clock, turn, REACHABILITY_TIMEOUT);
      turn := turn + 1;
      sleeps := sleeps + 1;
      answered := acquired.Inspect(answers(turn));
      if !answered {
        continue;
      }
      connection := adapter.connection(acquired.inspected);
    }
    NothingPending(adapter, ports, acquired.inspected);
    if turn > 0 {
      TicksAddUp(clock, turn - 1);
    }
  }

  /** The exit `acquire` reports once the wait is over. */
  function AcquireExit(adapter: Adapter, connection: Connection, inspected: Json, gaveUpMaterializing: bool): int {
    if gaveUpMaterializing then 1
    else if NoAddress(connection) && !adapter.exposesPorts then 1
    else if adapter.satisfied(inspected) then 0 else 1
  }

  /** `acquire` from the machine's existence to its exit. It exits zero exactly when the description it
      ends with is not materializing and meets the profile, and projects an address if no port is
      mapped. */
  method Report(acquired: Acquired, adapter: Adapter, ports: seq<nat>, clock: nat -> nat, answers: nat -> Option<Json>)
    returns (exit: int, connection: Connection)
    requires Ticks(clock)
    modifies acquired
    ensures connection == adapter.connection(acquired.inspected)
    ensures exit == 0 <==> && !adapter.stillMaterializing(acquired.inspected) && adapter.satisfied(acquired.inspected)
                           && (adapter.exposesPorts || connection.ssh.Some? || connection.endpoint.Some?)
    ensures exit == 0 || exit == 1
  {
    var gaveUpMaterializing, extended;
    ghost var sleeps, gaveUp;
    connection, gaveUpMaterializing, extended, sleeps, gaveUp := Wait(acquired, adapter, ports, clock, answers);
    exit := AcquireExit(adapter, connection, acquired.inspected, gaveUpMaterializing);
  }

  // ---- Waiting for what was discovered ----

  datatype Discovered = Ready | DiscoveryFailed(status: string) | TimedOut(waited: nat, last: Option<string>) | Broken

  /** Poll a discovered thing until it is ready, has failed, or the cap is reached. `looks(i)` is what
      the ith read shows its status as: the outer `None` is a read that failed; `turn` is the last read.
      The clock is whole seconds, and reaches the cap by the turn `bound`. */
  method AwaitDiscovered(ready: set<string>, failed: set<string>, cap: nat, elapsed: nat -> nat,
                         looks: nat -> Option<Option<string>>, ghost bound: nat)
    returns (r: Discovered, turn: nat)
    requires elapsed(bound) >= cap
    ensures turn <= bound
    // Every earlier read succeeded, was neither ready nor failed, and came before the cap.
    ensures forall i :: 0 <= i < turn ==>
              && looks(i).Some? && elapsed(i) < cap
              && (looks(i).value.Some? ==> looks(i).value.value !in ready && looks(i).value.value !in failed)
    ensures match r
            case Broken => looks(turn).None?
            case Ready => looks(turn).Some? && looks(turn).value.Some? && looks(turn).value.value in ready
            case DiscoveryFailed(status) => looks(turn) == Some(Some(status)) && status in failed && status !in ready
            case TimedOut(waited, last) => looks(turn) == Some(last) && waited == elapsed(turn) >= cap
                                           && (last.Some? ==> last.value !in ready && last.value !in failed)
  {
    turn := 0;
    while true
      invariant turn <= bound
      invariant forall i :: 0 <= i < turn ==>
                  && looks(i).Some? && elapsed(i) < cap
                  && (looks(i).value.Some? ==> looks(i).value.value !in ready && looks(i).value.value !in failed)
      decreases bound - turn
    {
      var look := looks(turn);
      if look.None? {
        return Broken, turn;
      }
      var status := look.value;
      if status.Some? {
        if status.value in ready {
          return Ready, turn;
        }
        if status.value in failed {
          return DiscoveryFailed(status.value), turn;
        }
      }
      if elapsed(turn) >= cap {
        return TimedOut(elapsed(turn), status), turn;
      }
      turn := turn + 1;
    }
  }
}
