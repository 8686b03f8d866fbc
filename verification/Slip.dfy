/** A run in which a sweep retires a machine that is running: two machines on a platform listed one row a
    page, the first of which ends, and its row is dropped, between the reading of its page and of the next. */
module Slip {
  import opened Wrappers
  import opened Lease
  import opened Records
  import opened Fleets
  import opened Pages
  import opened Sweep
  import opened Lifecycle

  function Early(): Machine { Machine("a", None) }

  function Late(): Machine { Machine("b", Some(ExpiryStamp(0))) }

  function LateRow(): Row { Row("b", "p", None, Some(0), "", [], None, None) }

  const BOTH: map<string, string> := map["a" := "p", "b" := "p"]

  // ---- The states of the run ----

  function Stocked(): State {
    GENESIS.(platforms := Platforms(map["p" := [Early(), Late()]], BOTH, {}), leases := map["b" := 0],
             record := [LateRow()])
  }

  function Beginner(): Agent { Agent(false, 0, {"p"}, map[], [LateRow()], {}, map[], map[], {}, {}) }

  function Reading(a: Agent): State { Stocked().(readings := map[0 := [LateRow()]], sweeps := map[0 := a]) }

  function Fading(a: Agent): State { Reading(a).(platforms := Platforms(map["p" := [Early(), Late()]], BOTH, {"a"})) }

  function Shifted(a: Agent): State { Reading(a).(platforms := Platforms(map["p" := [Late()]], BOTH, {"a"})) }

  function Before(): Roster { Roster([Early(), Late()], {}) }

  function After(): Roster { Roster([Late()], {"a"}) }

  function OnePage(): Agent { Beginner().(walks := map["p" := Walk(Some(1), [Before()])]) }

  function TwoPages(): Agent { Beginner().(walks := map["p" := Walk(Some(1), [Before(), After()])]) }

  function Done(): Agent { TwoPages().(asked := {"p"}, listed := map["p" := [Early()]]) }

  // ---- Its steps ----

  predicate Leads(s: State, e: Event, s': State) { Enabled(s, e) && Apply(s, e) == s' }

  lemma Follow(log: seq<Event>, s: State, e: Event, s': State)
    requires IsRun(log) && Replay(log) == s && Leads(s, e, s')
    ensures IsRun(log + [e]) && Replay(log + [e]) == s'
  {
    hide IsRun, Replay, Enabled, Apply;
    RunExtends(log, e);
  }

  function Alone(): State { GENESIS.(platforms := Platforms(map["p" := [Early()]], map["a" := "p"], {})) }

  function Paired(): State {
    GENESIS.(platforms := Platforms(map["p" := [Early(), Late()]], BOTH, {}), leases := map["b" := 0])
  }

  lemma Stocking()
    ensures Leads(GENESIS, StrangerCreated("a", "p", None), Alone())
    ensures Leads(Alone(), Created("b", "p", 0), Paired())
    ensures Leads(Paired(), Recorded(LateRow()), Stocked())
  {
    hide ExpiryStamp;
    var none: map<string, seq<Machine>> := map[];
    assert [] + [Early()] == [Early()] && [Early()] + [Late()] == [Early(), Late()];
    assert none["p" := [Early()]] == map["p" := [Early()]];
    assert map["p" := [Early()]]["p" := [Early(), Late()]] == map["p" := [Early(), Late()]];
  }

  lemma OneIsOutstanding()
    ensures Outstanding([LateRow()]) == [LateRow()]
  {
    var rows := NewestFirst([LateRow()]);
    assert rows == [LateRow()] && rows[1..] == [];
  }

  lemma ReadingTheRecord()
    ensures Leads(Stocked(), Swept(0, RecordRead), Stocked().(readings := map[0 := [LateRow()]]))
    ensures Leads(Stocked().(readings := map[0 := [LateRow()]]), Swept(0, Began(false, {"p"}, map[])),
                  Reading(Beginner()))
  {
    hide ExpiryStamp, Outstanding;
    OneIsOutstanding();
  }

  lemma FirstPage()
    ensures Leads(Reading(Beginner()), Swept(0, PageRead("p", Some(1), Before())), Reading(OnePage()))
  {
    hide ExpiryStamp, Outstanding;
    assert [] + [Before()] == [Before()];
  }

  lemma EarlyIsGone()
    ensures Without([Early(), Late()], {"a"}) == [Late()]
  {
    hide ExpiryStamp;
    var machines := [Early(), Late()];
    assert machines[1..] == [Late()] && [Late()][1..] == [];
    assert Without([Late()], {"a"}) == [Late()] + Without([], {"a"});
  }

  lemma EarlyEnds()
    ensures Leads(Reading(OnePage()), EndedByItself("a"), Fading(OnePage()))
    ensures Leads(Fading(OnePage()), RowDropped("a"), Shifted(OnePage()))
  {
    hide ExpiryStamp, Outstanding, Without;
    EarlyIsGone();
    assert map["p" := [Early(), Late()]]["p" := [Late()]] == map["p" := [Late()]];
  }

  lemma SecondPage()
    ensures Leads(Shifted(OnePage()), Swept(0, PageRead("p", Some(1), After())), Shifted(TwoPages()))
  {
    hide ExpiryStamp, Outstanding;
    var walk, longer := Walk(Some(1), [Before()]), Walk(Some(1), [Before(), After()]);
    assert [Before()] + [After()] == longer.standings;
    assert map["p" := walk]["p" := longer] == map["p" := longer];
  }

  lemma OnlyEarlyIsListed()
    ensures var walk := Walk(Some(1), [Before(), After()]); Listed(walk) == [Early()] && Complete(walk)
  {
    hide ExpiryStamp;
    var standings, none, early := [Before(), After()], Walk(Some(1), []), Walk(Some(1), [Before()]);
    assert standings[..1] == [Before()] && [Before()][..0] == [];
    assert PageRows(Before().rows, 0, Some(1)) == [Early()] && PageRows(After().rows, 1, Some(1)) == [];
    assert Without([Early()], {}) == [Early()] by { assert [Early()][1..] == []; }
    assert Without([], {"a"}) == [];
    assert Listed(none) == [] && Listed(early) == [] + [Early()];
  }

  lemma Concluding()
    ensures Leads(Shifted(TwoPages()), Swept(0, ListingTaken("p", [Early()])), Shifted(Done()))
  {
    hide ExpiryStamp, Outstanding, Listed, Complete;
    OnlyEarlyIsListed();
    var none: map<string, seq<Machine>> := map[];
    assert none["p" := [Early()]] == map["p" := [Early()]] && {} + {"p"} == {"p"};
    var a := TwoPages();
    assert a.walks["p"] == Walk(Some(1), [Before(), After()]);
    assert Learned(a, ListingTaken("p", [Early()])) == Done();
    assert map[0 := a][0 := Done()] == map[0 := Done()];
  }

  lemma LateIsGone()
    ensures Enabled(Shifted(Done()), Swept(0, CorrectionWritten(LateRow())))
    ensures !Shifted(Done()).platforms.Ended("b")
  {
    hide ExpiryStamp, StandingOf, Outstanding;
    var a := Done();
    assert "b" !in HandledIn(a);
    assert "b" !in Ids([Early()]);
  }

  // ---- The run ----

  lemma ToTheListing() returns (log: seq<Event>)
    ensures IsRun(log) && Replay(log) == Shifted(Done()) && Recorded(LateRow()) in log
  {
    hide Leads, IsRun, Replay;
    EmptyRun();
    Stocking();
    ReadingTheRecord();
    FirstPage();
    EarlyEnds();
    SecondPage();
    Concluding();
    log := [];
    Follow(log, GENESIS, StrangerCreated("a", "p", None), Alone());
    log := log + [StrangerCreated("a", "p", None)];
    Follow(log, Alone(), Created("b", "p", 0), Paired());
    log := log + [Created("b", "p", 0)];
    Follow(log, Paired(), Recorded(LateRow()), Stocked());
    log := log + [Recorded(LateRow())];
    Follow(log, Stocked(), Swept(0, RecordRead), Stocked().(readings := map[0 := [LateRow()]]));
    log := log + [Swept(0, RecordRead)];
    Follow(log, Stocked().(readings := map[0 := [LateRow()]]), Swept(0, Began(false, {"p"}, map[])),
           Reading(Beginner()));
    log := log + [Swept(0, Began(false, {"p"}, map[]))];
    Follow(log, Reading(Beginner()), Swept(0, PageRead("p", Some(1), Before())), Reading(OnePage()));
    log := log + [Swept(0, PageRead("p", Some(1), Before()))];
    Follow(log, Reading(OnePage()), EndedByItself("a"), Fading(OnePage()));
    log := log + [EndedByItself("a")];
    Follow(log, Fading(OnePage()), RowDropped("a"), Shifted(OnePage()));
    log := log + [RowDropped("a")];
    Follow(log, Shifted(OnePage()), Swept(0, PageRead("p", Some(1), After())), Shifted(TwoPages()));
    log := log + [Swept(0, PageRead("p", Some(1), After()))];
    Follow(log, Shifted(TwoPages()), Swept(0, ListingTaken("p", [Early()])), Shifted(Done()));
    log := log + [Swept(0, ListingTaken("p", [Early()]))];
  }

  /** The later machine moves up to the page already read, the next page shows nothing, and the walk is
      complete. The machine is missing from the listing; its row is retired; and recorded though it was, it
      runs on off the books. */
  lemma ASlipLosesARow() returns (log: seq<Event>)
    ensures IsRun(log) && Replay(log).platforms.On("p") == [Late()]
    ensures WasRecorded(log, "b") && Misretired(log, "b") && !OnTheBooks(Replay(log), "b")
  {
    hide ExpiryStamp, IsRun, Replay, Outstanding, Misretired, MisretiredAt, OnTheBooks, Enabled, Apply;
    var taken := ToTheListing();
    var retired := Swept(0, CorrectionWritten(LateRow()));
    LateIsGone();
    RunExtends(taken, retired);
    RetiringKeepsThePlatforms(Shifted(Done()), 0, LateRow());
    LateRunsOn();
    log := taken + [retired];
    assert Recorded(LateRow()) in log;
    MisretiredLast(taken, retired, "b");
    MisretiredMore(taken, retired, "b");
    if OnTheBooks(Replay(log), "b") {
      BookedWasRecorded(log, "b");
    }
  }

  lemma LateRunsOn()
    ensures Shifted(Done()).platforms.On("p") == [Late()]
  {
    hide ExpiryStamp;
    assert [Late()][1..] == [];
  }

  lemma RetiringKeepsThePlatforms(s: State, k: nat, row: Row)
    requires Enabled(s, Swept(k, CorrectionWritten(row)))
    ensures Apply(s, Swept(k, CorrectionWritten(row))).platforms == s.platforms
  {
    hide Enabled;
  }
}
