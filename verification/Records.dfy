/** The two append-only files a sweep reads: the acquisitions record (what was bought, and what was
    given back) and the apply ledger, whose newest real row is the release gate.

    A file is the sequence of its rows in the order they were appended. */
module Records {
  import opened Wrappers
  import opened Lease

  /** Why something was refused or failed; the program's wording of it is not modelled. */
  datatype Reason =
    | ArtifactsLeft(paths: seq<string>)
    | LedgerUnreadable
    | LeaseUnreadable
    | UnknownProvider
    | CredentialMissing
    | NoCommand
    | CallFailed

  /** Both files are read newest first. */
  function NewestFirst<T>(file: seq<T>): (r: seq<T>)
    ensures |r| == |file|
    ensures forall i :: 0 <= i < |r| ==> r[i] == file[|file| - 1 - i]
  {
    if file == [] then [] else NewestFirst(file[1..]) + [file[0]]
  }

  // ---- The acquisitions record ----

  /** One row: a purchase, or the correction of one. A timestamp that does not parse is
      `None`; `releasedAt` is present on a correction. */
  datatype Row = Row(
    id: string,
    provider: string,
    acquiredAt: Option<Timestamp>,
    expiresAt: Option<Timestamp>,
    profileHash: string,
    release: seq<string>,
    releasedAt: Option<Timestamp>,
    service: Option<string>)

  function RetiredIds(rows: seq<Row>): set<string> {
    set row | row in rows && row.releasedAt.Some? :: row.id
  }

  /** The first row of each id that is not retired, skipping the ids already seen. */
  function FirstOfEach(rows: seq<Row>, retired: set<string>, seen: set<string>): seq<Row> {
    if rows == [] then []
    else if rows[0].id !in retired && rows[0].id !in seen then
      [rows[0]] + FirstOfEach(rows[1..], retired, seen + {rows[0].id})
    else
      FirstOfEach(rows[1..], retired, seen)
  }

  /** The machines the record still believes are running. */
  function Outstanding(file: seq<Row>): seq<Row> {
    var rows := NewestFirst(file);
    FirstOfEach(rows, RetiredIds(rows), {})
  }

  /** `row` is the last thing the file says about its machine. */
  ghost predicate LastWord(file: seq<Row>, row: Row) {
    exists i :: 0 <= i < |file| && file[i] == row && forall j :: i < j < |file| ==> file[j].id != row.id
  }

  ghost predicate NeverReturned(file: seq<Row>, id: string) {
    forall r :: r in file && r.id == id ==> r.releasedAt.None?
  }

  predicate DistinctIds(rows: seq<Row>) {
    forall i, j :: 0 <= i < j < |rows| ==> rows[i].id != rows[j].id
  }

  /** Read newest first: `row` is the first naming its machine. */
  ghost predicate FirstWord(rows: seq<Row>, row: Row) {
    exists i :: 0 <= i < |rows| && rows[i] == row && forall j :: 0 <= j < i ==> rows[j].id != row.id
  }

  lemma FirstWordStep(rows: seq<Row>, row: Row)
    requires rows != []
    ensures FirstWord(rows, row) <==> rows[0] == row || (rows[0].id != row.id && FirstWord(rows[1..], row))
  {
    var rest := rows[1..];
    if rows[0] != row && rows[0].id != row.id {
      if FirstWord(rows, row) {
        var i :| 0 <= i < |rows| && rows[i] == row && forall j :: 0 <= j < i ==> rows[j].id != row.id;
        assert rest[i - 1] == row && forall j :: 0 <= j < i - 1 ==> rest[j] == rows[j + 1];
      }
      if FirstWord(rest, row) {
        var i :| 0 <= i < |rest| && rest[i] == row && forall j :: 0 <= j < i ==> rest[j].id != row.id;
        assert rows[i + 1] == row && forall j :: 0 < j < i + 1 ==> rows[j] == rest[j - 1];
      }
    }
  }

  lemma {:induction false} FirstOfEachIs(rows: seq<Row>, retired: set<string>, seen: set<string>, row: Row)
    ensures row in FirstOfEach(rows, retired, seen) <==>
            row.id !in retired && row.id !in seen && FirstWord(rows, row)
  {
    if rows != [] {
      var keeps := rows[0].id !in retired && rows[0].id !in seen;
      FirstOfEachIs(rows[1..], retired, if keeps then seen + {rows[0].id} else seen, row);
      FirstWordStep(rows, row);
    }
  }

  lemma {:induction false} FirstOfEachIsDistinct(rows: seq<Row>, retired: set<string>, seen: set<string>)
    ensures DistinctIds(FirstOfEach(rows, retired, seen))
  {
    if rows != [] {
      var keeps := rows[0].id !in retired && rows[0].id !in seen;
      var seen' := if keeps then seen + {rows[0].id} else seen;
      FirstOfEachIsDistinct(rows[1..], retired, seen');
      var rest := FirstOfEach(rows[1..], retired, seen');
      forall i | 0 <= i < |rest|
        ensures rest[i].id !in seen'
      {
        FirstOfEachIs(rows[1..], retired, seen', rest[i]);
      }
    }
  }

  lemma LastWordIsFirstRead(file: seq<Row>, row: Row)
    ensures LastWord(file, row) <==> FirstWord(NewestFirst(file), row)
  {
    var rows, n := NewestFirst(file), |file|;
    if LastWord(file, row) {
      var i :| 0 <= i < n && file[i] == row && forall j :: i < j < n ==> file[j].id != row.id;
      assert rows[n - 1 - i] == row;
      forall j | 0 <= j < n - 1 - i
        ensures rows[j].id != row.id
      {
        assert rows[j] == file[n - 1 - j];
      }
    }
    if FirstWord(rows, row) {
      var i :| 0 <= i < n && rows[i] == row && forall j :: 0 <= j < i ==> rows[j].id != row.id;
      var at := n - 1 - i;
      assert file[at] == row;
      forall j | at < j < n
        ensures file[j].id != row.id
      {
        assert rows[n - 1 - j] == file[j];
      }
    }
  }

  /** `Outstanding` is exactly: the newest row naming a machine, for the machines no row in the
      whole file has returned. */
  lemma OutstandingExact(file: seq<Row>, row: Row)
    ensures row in Outstanding(file) <==> LastWord(file, row) && NeverReturned(file, row.id)
  {
    var rows := NewestFirst(file);
    FirstOfEachIs(rows, RetiredIds(rows), {}, row);
    LastWordIsFirstRead(file, row);
    assert forall r :: r in file <==> r in rows by {
      assert forall i :: 0 <= i < |file| ==> file[i] == rows[|file| - 1 - i];
    }
  }

  /** No two outstanding rows share an id. */
  lemma OutstandingIsDistinct(file: seq<Row>)
    ensures DistinctIds(Outstanding(file))
  {
    FirstOfEachIsDistinct(NewestFirst(file), RetiredIds(NewestFirst(file)), {});
  }

  /** The rows of other machines, in order. */
  function Others(rows: seq<Row>, id: string): seq<Row> {
    if rows == [] then [] else (if rows[0].id == id then [] else [rows[0]]) + Others(rows[1..], id)
  }

  lemma {:induction false} SkippingAnId(rows: seq<Row>, retired: set<string>, seen: set<string>, id: string)
    ensures FirstOfEach(rows, retired, seen + {id}) == Others(FirstOfEach(rows, retired, seen), id)
    ensures FirstOfEach(rows, retired + {id}, seen) == Others(FirstOfEach(rows, retired, seen), id)
  {
    if rows != [] {
      var rest := FirstOfEach(rows[1..], retired, seen + {rows[0].id});
      SkippingAnId(rows[1..], retired, seen, id);
      SkippingAnId(rows[1..], retired, seen + {rows[0].id}, id);
      assert seen + {rows[0].id} + {id} == seen + {id} + {rows[0].id};
      assert ([rows[0]] + rest)[1..] == rest;
      if rows[0].id == id {
        SkippingAgain(rest, id, rows[1..], retired, seen);
      }
    }
  }

  lemma SkippingAgain(rest: seq<Row>, id: string, rows: seq<Row>, retired: set<string>, seen: set<string>)
    requires rest == FirstOfEach(rows, retired, seen + {id})
    requires rest == Others(FirstOfEach(rows, retired, seen), id)
    ensures Others(rest, id) == rest
  {
    OthersTwice(FirstOfEach(rows, retired, seen), id);
  }

  lemma {:induction false} OthersTwice(rows: seq<Row>, id: string)
    ensures Others(Others(rows, id), id) == Others(rows, id)
  {
    if rows != [] {
      OthersTwice(rows[1..], id);
      if rows[0].id == id {
        assert [] + Others(rows[1..], id) == Others(rows[1..], id);
      } else {
        assert Others(rows, id)[1..] == Others(rows[1..], id);
      }
    }
  }

  lemma RetiredIdsGrow(file: seq<Row>, row: Row)
    ensures NewestFirst(file + [row]) == [row] + NewestFirst(file)
    ensures RetiredIds(NewestFirst(file + [row])) ==
            RetiredIds(NewestFirst(file)) + if row.releasedAt.Some? then {row.id} else {}
    ensures NeverReturned(file, row.id) <==> row.id !in RetiredIds(NewestFirst(file))
  {
    var rows, longer := NewestFirst(file), NewestFirst(file + [row]);
    assert longer == [row] + rows;
    assert forall r :: r in longer <==> r == row || r in rows;
    assert forall r :: r in file <==> r in rows by {
      assert forall i :: 0 <= i < |file| ==> file[i] == rows[|file| - 1 - i];
    }
  }

  /** What one more row does to the outstanding list, whatever the row: its machine's entry goes, and where
      neither it nor any row before returned the machine, it comes first. */
  lemma OutstandingGrows(file: seq<Row>, row: Row)
    ensures Outstanding([]) == []
    ensures Outstanding(file + [row]) ==
            (if row.releasedAt.None? && NeverReturned(file, row.id) then [row] else [])
            + Others(Outstanding(file), row.id)
  {
    RetiredIdsGrow(file, row);
    var rows := NewestFirst(file);
    var retired := RetiredIds(rows);
    hide RetiredIds, NeverReturned;
    SkippingAnId(rows, retired, {}, row.id);
    assert ([row] + rows)[1..] == rows;
    assert {} + {row.id} == {row.id} && retired + {} == retired;
    if row.id in retired {
      assert retired + {row.id} == retired;
    }
  }

  /** A machine some row names and no row returned is outstanding. */
  lemma NamedAndNotReturned(file: seq<Row>, id: string)
    requires exists row :: row in file && row.id == id
    requires NeverReturned(file, id)
    ensures exists row :: row in Outstanding(file) && row.id == id
  {
    var i := LastNaming(file, id);
    OutstandingExact(file, file[i]);
  }

  lemma {:induction false} LastNaming(file: seq<Row>, id: string) returns (i: nat)
    requires exists row :: row in file && row.id == id
    ensures i < |file| && file[i].id == id && forall j :: i < j < |file| ==> file[j].id != id
  {
    i := |file| - 1;
    if file[i].id != id {
      var row :| row in file && row.id == id;
      assert row in file[..i];
      i := LastNaming(file[..i], id);
    }
  }

  /** Appending a correction takes its machine off the outstanding list and changes nothing else. */
  lemma CorrectionRetires(file: seq<Row>, correction: Row, row: Row)
    requires correction.releasedAt.Some?
    ensures row in Outstanding(file + [correction]) <==> row in Outstanding(file) && row.id != correction.id
  {
    var longer := file + [correction];
    OutstandingExact(file, row);
    OutstandingExact(longer, row);
    assert longer[|file|] == correction;
    if row.id != correction.id {
      assert NeverReturned(longer, row.id) <==> NeverReturned(file, row.id);
      if LastWord(file, row) {
        var i :| 0 <= i < |file| && file[i] == row && forall j :: i < j < |file| ==> file[j].id != row.id;
        assert longer[i] == row && forall j :: i < j < |longer| ==> longer[j].id != row.id;
      }
      if LastWord(longer, row) {
        var i :| 0 <= i < |longer| && longer[i] == row && forall j :: i < j < |longer| ==> longer[j].id != row.id;
        assert file[i] == row && forall j :: i < j < |file| ==> file[j] == longer[j];
      }
    }
  }

  /** The row that retires `row`: all it records, and when it was returned. */
  function Correction(row: Row, at: Timestamp): (r: Row)
    ensures r.id == row.id && r.provider == row.provider && r.release == row.release
    ensures r.acquiredAt == row.acquiredAt && r.expiresAt == row.expiresAt
    ensures r.profileHash == row.profileHash && r.service == row.service && r.releasedAt == Some(at)
  {
    row.(releasedAt := Some(at))
  }

  /** The correction an operator's release appends: the newest row naming the machine, returned; or,
      when no row does or the record cannot be read, only what the release knows. */
  function CorrectionRow(readable: Option<seq<Row>>, id: string, provider: string, release: seq<string>,
                         profileHash: string, now: Timestamp): (r: Row)
    ensures r.id == id && r.releasedAt == Some(now)
  {
    var recorded := if readable.Some? then FirstNaming(NewestFirst(readable.value), id) else None;
    match recorded
    case Some(row) => row.(releasedAt := Some(now))
    case None => Row(id, provider, Some(now), Some(now), profileHash, release, Some(now), None)
  }

  function FirstNaming(rows: seq<Row>, id: string): (r: Option<Row>)
    ensures r.Some? ==> r.value in rows && r.value.id == id && FirstWord(rows, r.value)
    ensures r.None? ==> forall row :: row in rows ==> row.id != id
  {
    if rows == [] then None
    else if rows[0].id == id then
      assert FirstWord(rows, rows[0]);
      Some(rows[0])
    else
      var row := FirstNaming(rows[1..], id);
      if row.Some? then FirstWordStep(rows, row.value); row else row
  }

  /** Whatever else an operator's release is told, a record that names the machine decides its correction:
      it is the last word on that machine, with only the time of its return changed. */
  lemma CorrectionCarriesTheLastWord(file: seq<Row>, id: string, provider: string, release: seq<string>,
                                     profileHash: string, now: Timestamp)
    requires exists row :: row in file && row.id == id
    ensures exists row :: LastWord(file, row) && row.id == id
              && CorrectionRow(Some(file), id, provider, release, profileHash, now) == row.(releasedAt := Some(now))
  {
    var rows := NewestFirst(file);
    var row :| row in file && row.id == id;
    assert row in rows by {
      assert forall i :: 0 <= i < |file| ==> file[i] == rows[|file| - 1 - i];
    }
    var first := FirstNaming(rows, id).value;
    LastWordIsFirstRead(file, first);
  }

  /** A record that cannot be read, or does not name it, leaves the correction what this release knows: a lease
      that began and ended at the moment of the release. */
  lemma CorrectionOfTheUnnamed(readable: Option<seq<Row>>, id: string, provider: string, release: seq<string>,
                               profileHash: string, now: Timestamp)
    requires readable.Some? ==> forall row :: row in readable.value ==> row.id != id
    ensures var r := CorrectionRow(readable, id, provider, release, profileHash, now);
            && r.id == id && r.provider == provider && r.release == release && r.profileHash == profileHash
            && r.acquiredAt == Some(now) && r.expiresAt == Some(now) && r.releasedAt == Some(now)
            && r.service == None
  {
    if readable.Some? {
      var file, rows := readable.value, NewestFirst(readable.value);
      forall row | row in rows ensures row in file {
        var i :| 0 <= i < |rows| && rows[i] == row;
        assert row == file[|file| - 1 - i];
      }
    }
  }

  // ---- The release gate ----

  datatype Artifact = Artifact(path: string, collected: bool)

  /** One apply. `dryRun` is whether its report's own `dry_run` is true. */
  datatype LedgerRow = LedgerRow(podId: string, dryRun: bool, artifacts: seq<Artifact>)

  predicate RealApply(row: LedgerRow, id: string) { row.podId == id && !row.dryRun }

  function FirstReal(rows: seq<LedgerRow>, id: string): Option<LedgerRow> {
    if rows == [] then None
    else if RealApply(rows[0], id) then Some(rows[0])
    else FirstReal(rows[1..], id)
  }

  function UncollectedPaths(artifacts: seq<Artifact>): seq<string> {
    if artifacts == [] then []
    else if artifacts[0].collected then UncollectedPaths(artifacts[1..])
    else [artifacts[0].path] + UncollectedPaths(artifacts[1..])
  }

  function UncollectedArtifacts(ledger: seq<LedgerRow>, id: string): seq<string> {
    match FirstReal(NewestFirst(ledger), id)
    case Some(row) => UncollectedPaths(row.artifacts)
    case None => []
  }

  datatype Gate = Clear | Holding(reason: Reason) | Unreadable(reason: Reason)

  /** `None` is a ledger that could not be read. */
  function GateOf(ledger: Option<seq<LedgerRow>>, id: string): Gate {
    match ledger
    case None => Unreadable(LedgerUnreadable)
    case Some(rows) =>
      var uncollected := UncollectedArtifacts(rows, id);
      if uncollected != [] then Holding(ArtifactsLeft(uncollected)) else Clear
  }

  /** The gate is clear exactly when the newest apply of this machine that was not a dry run left nothing
      behind, or there was none. */
  lemma GateIsClear(ledger: seq<LedgerRow>, id: string)
    ensures GateOf(Some(ledger), id) == Clear <==>
            forall i :: 0 <= i < |ledger| && ledger[i].podId == id && !ledger[i].dryRun
                        && (forall j :: i < j < |ledger| ==> ledger[j].podId != id || ledger[j].dryRun) ==>
              forall a :: a in ledger[i].artifacts ==> a.collected
  {
    FirstRealIs(ledger, id);
    match FirstReal(NewestFirst(ledger), id)
    case Some(row) => NoPathsUncollected(row.artifacts);
    case None =>
  }

  /** Where it is not clear it holds, for exactly the paths that apply left, in their order. */
  lemma GateHolds(ledger: seq<LedgerRow>, id: string, i: nat)
    requires i < |ledger| && ledger[i].podId == id && !ledger[i].dryRun
    requires forall j :: i < j < |ledger| ==> ledger[j].podId != id || ledger[j].dryRun
    ensures GateOf(Some(ledger), id) ==
            if (forall a :: a in ledger[i].artifacts ==> a.collected) then Clear
            else Holding(ArtifactsLeft(UncollectedPaths(ledger[i].artifacts)))
    ensures GateOf(None, id) == Unreadable(LedgerUnreadable)
  {
    FirstRealIs(ledger, id);
    NoPathsUncollected(ledger[i].artifacts);
  }

  /** The row the gate reads is the newest real apply of the machine, and there is none exactly when it
      reads none. */
  lemma {:induction false} FirstRealIs(ledger: seq<LedgerRow>, id: string)
    ensures match FirstReal(NewestFirst(ledger), id)
            case Some(row) =>
              exists i :: 0 <= i < |ledger| && ledger[i] == row && row.podId == id && !row.dryRun
                && forall j :: i < j < |ledger| ==> ledger[j].podId != id || ledger[j].dryRun
            case None => forall i :: 0 <= i < |ledger| ==> ledger[i].podId != id || ledger[i].dryRun
  {
    if ledger != [] {
      var shorter, last := ledger[..|ledger| - 1], ledger[|ledger| - 1];
      var rows := NewestFirst(ledger);
      assert rows[0] == last;
      assert rows[1..] == NewestFirst(shorter);
      FirstRealIs(shorter, id);
      assert forall i :: 0 <= i < |shorter| ==> ledger[i] == shorter[i];
    }
  }

  /** A dry run, or an apply of another machine, never changes a gate. */
  lemma OthersNeverMoveAGate(ledger: seq<LedgerRow>, apply: LedgerRow, id: string)
    requires apply.dryRun || apply.podId != id
    ensures GateOf(Some(ledger + [apply]), id) == GateOf(Some(ledger), id)
  {
    var longer := ledger + [apply];
    var rows := NewestFirst(longer);
    assert rows[0] == apply && rows[1..] == NewestFirst(ledger);
  }

  /** And a real apply of the machine decides it alone. */
  lemma AnApplyDecidesItsGate(ledger: seq<LedgerRow>, apply: LedgerRow)
    requires !apply.dryRun
    ensures GateOf(Some(ledger + [apply]), apply.podId) == GateOf(Some([apply]), apply.podId)
  {
    var longer := ledger + [apply];
    assert longer[|ledger|] == apply && [apply][0] == apply;
    GateHolds(longer, apply.podId, |ledger|);
    GateHolds([apply], apply.podId, 0);
  }

  lemma {:induction false} NoPathsUncollected(artifacts: seq<Artifact>)
    ensures UncollectedPaths(artifacts) == [] <==> forall a :: a in artifacts ==> a.collected
  {
    if artifacts != [] {
      NoPathsUncollected(artifacts[1..]);
      assert forall a :: a in artifacts <==> a == artifacts[0] || a in artifacts[1..];
    }
  }

  /** The paths left are those of the artifacts not collected, one for one and in order. */
  lemma {:induction false} PathsLeftAre(artifacts: seq<Artifact>, last: Artifact)
    ensures UncollectedPaths([]) == []
    ensures UncollectedPaths(artifacts + [last]) ==
            UncollectedPaths(artifacts) + if last.collected then [] else [last.path]
  {
    if artifacts == [] {
      assert artifacts + [last] == [last];
      assert [last][1..] == [];
    } else {
      PathsLeftAre(artifacts[1..], last);
      assert (artifacts + [last])[1..] == artifacts[1..] + [last];
    }
  }
}
