# lm-provision: a verified model

lm-provision rents machines, writes a lease onto each one, records each purchase in an append-only file, and
sweeps the machines whose lease has run out. This project models the code that decides what is destroyed and
what is believed gone, with the readers and the arithmetic those decisions rest on, and proves what that code
is for. `dafny verify dfyconfig.toml` checks it.

## What is here

| files | what they model |
|---|---|
| `Calendar`, `Lease` | the Gregorian calendar as a day/date bijection; the lease printed as a stamp and read back |
| `Records` | the acquisitions record (what is outstanding, what a correction retires) and the apply ledger (the release gate) |
| `Fleets`, `Pages` | machines on a platform; a listing walked page by page while they end and arrive, and exactly what it misses |
| `Sweep` | the decisions of one sweep as a function of the answers it got, and what its report means |
| `Lifecycle`, `Provenance` | everything that can happen to machines, record and ledger as one step system; what every run of it keeps; where what a sweep knows came from; why each release was made |
| `Slip` | the run in which a running machine slips past the pages and its row is retired |
| `SweepRun`, `SweepCommand`, `SweepMain` | the sweep as the code runs it: loops over a mutable world in which everyone else acts between any two of its calls and any call may fail |
| `Deeds` | the listings, gate readings and releases, in order, that a report's answers stand for |
| `Foresight` | what a sweep meets, and so reports, where nothing fails and nobody else acts |
| `Json`, `Listing` | one listing document, the paged walk |
| `Merge`, `Together`, `AcquireWait` | filling a description's blanks; reading an endpoint out of a filled description; the bounded wait |
| `Money`, `Prices`, `PriceLog`, `Bill` | amounts as text and from a platform's floats; price documents into rows; the price change log; a month's bill |
| `Shell`, `EndpointEnv` | a reader for a part of the POSIX shell; the `env` rendering evaluated by it |
| `Image` | splitting an image reference |
| `Requests`, `DeployRequest`, `HetznerRequest`, `Commands` | the requests that create machines, and the lease each carries |
| `Text`, `Wrappers` | string order, splitting and digits; `Option` and `Result` |

## How the sweep is modelled

`Lifecycle` is a step system. Its events are: an acquire's create, then its row (a separate event, which may
never happen); strangers' machines; label changes; machines ending by themselves; a platform dropping the row
of a machine that has ended, which until then takes its place on a page unseen; an operator's release and
correction; applies; the clock; and each act of any number of sweeps, all interleaved freely. A sweep reads the
record, then the clock; and it reads a platform's listing one page at a time, each page a slice of what stands
there at its own moment, until the page that is the last. A platform may also be listed as one document, which
is one reading.

`SweepRun.World` is that system as mutable state with a ghost log of what happened. Every call of the sweep
first lets a schedule of other events happen and then succeeds or fails as the schedule says. `RunSweep` has
the code's two loops and its `handled`, `listed` and `outcome` variables; each act it takes must be enabled in
the step system, so whatever is proved of every run of the system holds of every run of the method. Its report
is `Sweep.Report` of the answers it got, and its listings, gate readings and releases in the history are
`Deeds.DeedsFor` those same answers, in order: no answer is reported that was not got.

`World.Quiet` is the world in which no call fails and nobody else acts. The results on what a sweep leaves, on
running it again and on its rehearsal are about it; the safety results are about every world.

## What the listing costs

That an absent machine is gone is the belief the sweep retires rows on. Of a platform listed as one document it
holds in every run. Of one listed in pages it does not: `Slip.ASlipLosesARow` is a run of one row a page in
which a machine already listed ends and is dropped mid-walk, the next one moves up to the page just read, and
its row is retired while it runs. `Pages.MissingExactly` says exactly when this happens, and
`Pages.ASlipNeedsAnEnding` what it takes; `Lifecycle.NoRunningMachineIsRetired` and
`LeasedMachinesStayInReach` are stated up to it, and `Provenance.UnpagedMachinesStayInReach` is the case
without pages.

## What is assumed

- An id names one machine on one platform and is never used again. The code matches by id alone
  (`crates/lm-provision-cli/src/main.rs:2065`, `2235`).
- A page of a listing is so many rows as they stand when it is read, and says whether it is the last. Rows keep
  their order; a new one comes last, as where ids grow and the list is sorted by id; one leaves only after its
  machine has ended.
- A release that exits zero leaves its machine not running.
- An operator releases by hand only ids a platform gave out, and every host shares one record and one ledger.
- Of the `jiff` library: its range of instants; that a second of 60 reads as 59; that a year below zero prints
  with a sign. A recorded timestamp that does not parse is `None`.
- Floats are reals, rounded to the nearest integer with a half going up; no amount here is below zero. A JSON
  float carries the text it prints as.
- An option of a platform's command line takes the word after it as its value, whatever the word is.
- A platform lists a machine back with the text it was created with, after the account's name and a slash where
  it adds one, until someone changes it.
- Each sleep of the acquire wait takes at least the poll interval.
- A shell has no NUL in a variable, and one environment for variables and exports.

## Where the code and its documentation disagree

The code is followed in each case.

- `SweepOutcome.expired` is documented as every machine whose lease could be read and had run out
  (`crates/lm-provision-cli/src/main.rs:2083-2089`). A recorded machine whose gate could not be read is not
  counted, though a listed one is: `AnUnreadableGateIsCountedOnce` is an instance, and
  `ExpiredIsTheCountExactly` says exactly when the count is the documented one.
- An object with several arrays is read by the first one carrying the id key, in key order, and the rest are
  dropped (`crates/lm-provision-driver/src/infra.rs:691-743`): `OnlyTheFirstArrayIsRead`. `EmptyMeansNothingLives`
  says exactly when a document reads as an empty fleet.
- The deployment body is documented to let the profile decide every field except the lease
  (`crates/lm-provision-driver/src/infra.rs:3402-3406`). `TheProfileHasTheLastWordExcept` says of every slot,
  top-level or nested, exactly when it stands. A top-level `hf` never does; a top-level `settings` only when no
  slot goes into that object; `hf.token_env` never; `hf.token` not beside an `hf.token_env` that reads otherwise.
- A complete paged listing is taken as proof that an absent machine is gone
  (`crates/lm-provision-driver/src/infra.rs:485-501`, `3758-3766`); the same comment says a page can skip a row.
  See *What the listing costs*.
- A create whose row could not be appended warns that no sweep will find the machine
  (`crates/lm-provision-cli/src/main.rs:1531-1538`). A sweep finds it by its stamp: `LeasedMachinesStayInReach`
  has it out of reach only when its label was changed too, and `OutOfReach` shows that case is real.
- The `env` rendering is meant to be evaluated as a whole (`crates/lm-provision-cli/src/main.rs:3097-3135`). Two
  rows of one prefix overwrite each other: `ARowIsFoundExactly` says exactly when a row is still found. A line
  break in the name of a row without a URL leaves the comment: `RemarkBindsNothingExactly` says exactly when that
  is harmless, and `ANameCanBind` that it can set a variable. A line that is neither blank, nor a comment, nor an
  export of the form read here counts as harmful, whatever a shell would make of it.

## Model

| member | source | states |
|---|---|---|
| Calendar.DayNumberOfDateOf | crates/lm-provision-driver/src/infra.rs:618-642 | every day number is the number of its date: one half of the day/date bijection under the lease codec |
| Calendar.DateOfDayNumber | crates/lm-provision-driver/src/infra.rs:618-642 | every valid date is the date of its number: the other half |
| Calendar.NextDayIsTomorrow | crates/lm-provision-driver/src/infra.rs:618-642 | consecutive day numbers are consecutive days by the month and leap-year rules, so the bijection is the calendar's |
| Lease.StampRoundTrip | crates/lm-provision-driver/src/infra.rs:587-642 | for every instant, the printed stamp reads back as the instant truncated to its second, or as no lease before year 0 |
| Lease.AcceptedStampReprints | crates/lm-provision-driver/src/infra.rs:605-642 | every accepted stamp is the prefix, eight digits, a separator and six digits, and reprints to itself, a second of 60 aside |
| Lease.SecondZeroIs1970 | crates/lm-provision-driver/src/infra.rs:587-603 | the calendar under the codec is the one the clock counts on: second 0 is the first midnight of 1970 |
| Sweep.StampAgainstRecord | crates/lm-provision-cli/src/main.rs:2031-2039 | a stamped machine expires no later than its record says, and less than a second sooner |
| Records.OutstandingExact | crates/lm-provision-protocol/src/acquisition.rs:153-186 | a row is outstanding iff it is the last word on its machine and no row anywhere returned that machine |
| Records.OutstandingIsDistinct | crates/lm-provision-protocol/src/acquisition.rs:153-186 | no machine is outstanding twice |
| Records.OutstandingGrows | crates/lm-provision-protocol/src/acquisition.rs:153-186 | what any one more row does to the list: its machine's entry goes, and where nothing has returned the machine it comes first |
| Records.NamedAndNotReturned | crates/lm-provision-protocol/src/acquisition.rs:153-186 | a machine some row names and none returned has an outstanding row |
| Records.CorrectionRetires | crates/lm-provision-protocol/src/acquisition.rs:168-186 | appending a correction takes exactly its machine off the outstanding list |
| Records.CorrectionRow | crates/lm-provision-cli/src/main.rs:3216-3270 | an operator's correction names the id released and is stamped now, whatever the record holds or cannot say |
| Records.CorrectionCarriesTheLastWord | crates/lm-provision-cli/src/main.rs:3216-3270 | when the record names the machine, the correction is the last word on it with only its return added, whatever this release was told |
| Records.CorrectionOfTheUnnamed | crates/lm-provision-cli/src/main.rs:3259-3268 | when the record cannot be read or does not name the machine, the correction holds what this release was told, its lease begun and ended at the release |
| Records.GateIsClear | crates/lm-provision-cli/src/main.rs:1987-2006 | the gate is clear iff every artifact of the newest apply that names this machine and is not a dry run is collected, or there is none |
| Records.GateHolds | crates/lm-provision-cli/src/main.rs:2764-2782 | where it is not clear it holds for exactly the paths that apply left, in order; and a ledger that cannot be read is its own answer |
| Records.OthersNeverMoveAGate | crates/lm-provision-cli/src/main.rs:2754-2763 | a dry run, or an apply of another machine, never changes a gate |
| Records.AnApplyDecidesItsGate | crates/lm-provision-cli/src/main.rs:2754-2763 | a real apply of the machine decides its gate alone, whatever came before |
| Records.FirstRealIs | crates/lm-provision-cli/src/main.rs:2764-2782 | the row the gate reads names the machine, is no dry run, and is the last such; and it reads none exactly when there is none |
| Sweep.EveryExpiredMachineIsAccountedFor | crates/lm-provision-cli/src/main.rs:2179-2300 | expired plus the uncounted failures is released plus refused plus failed: every counted machine is in exactly one list |
| Sweep.AllWellCounted | crates/lm-provision-cli/src/main.rs:2179-2300 | a counted decision is a release, a refusal or a failure; every release or refusal is counted; a release command is run only for a counted machine |
| Sweep.EveryMachineIsReported | crates/lm-provision-cli/src/main.rs:2188-2247 | what the report gains of a listed machine, by its name, its lease, its gate and its release |
| Sweep.EveryRowIsReported | crates/lm-provision-cli/src/main.rs:2252-2298 | what it gains of a recorded row, by what the listings said, its lease, its gate and its release |
| Sweep.AnUnreadableGateIsCountedOnce | crates/lm-provision-cli/src/main.rs:2209-2283 | the platform half counts a due machine with an unreadable gate and the record half does not |
| Sweep.ExpiredIsTheCountExactly | crates/lm-provision-cli/src/main.rs:2083-2089 | expired is the documented count iff every judged row whose lease had run out had a gate that could be read |
| Sweep.ExitSaysNothingFailed | crates/lm-provision-cli/src/main.rs:2133-2148 | exit 0 iff no decision failed, a refusal by the gate not counting as one |
| Sweep.DryRunForecasts | crates/lm-provision-cli/src/main.rs:2222-2295 | a dry run's report equals the real run's on the same answers iff every due release succeeds; otherwise they differ only between released and failed |
| Sweep.OneReleasePerMachine | crates/lm-provision-cli/src/main.rs:2179-2300 | no id is released by both halves, and none twice when no listing repeats an id |
| Sweep.ReleasedIsWhatWasReleased | crates/lm-provision-cli/src/main.rs:2222-2300 | a real run reports as released exactly the machines whose release it ran and that exited zero, in order |
| Pages.MovesUp | crates/lm-provision-driver/src/infra.rs:493-501 | from one reading to a later one, a row moves up by exactly as many as were dropped before it |
| Pages.MissingExactly | crates/lm-provision-driver/src/infra.rs:774-830 | a machine that lived at every reading is missing from a complete listing iff it slipped: between two readings more rows before it were dropped than stood between it and the pages read |
| Pages.ASlipNeedsAnEnding | crates/lm-provision-driver/src/infra.rs:493-501 | a slip needs a machine on a page already read to have ended and its row to have been dropped before the next was read |
| Pages.OneDocumentMissesNothing | crates/lm-provision-driver/src/infra.rs:774-830 | from a listing that is one document no machine slips |
| Pages.ListedIsDistinct | crates/lm-provision-driver/src/infra.rs:774-830 | a walk never shows a machine twice, however the pages shift |
| Lifecycle.SoundStays | crates/lm-provision-cli/src/main.rs:2150-2304 | every event, and every act of every sweep, page by page, keeps: rows name machines under their platform and lease, corrections name machines that have ended or were retired running, sweeps know only what they read |
| Lifecycle.EveryRunIsSound | crates/lm-provision-cli/src/main.rs:2150-2304 | that invariant over every run and interleaving |
| Lifecycle.RetiredRowHasEnded | crates/lm-provision-cli/src/main.rs:2060-2076 | a row placed as gone, or freed by the sweep, names a machine that has ended or that slipped past the pages |
| Lifecycle.RunningIsMissedExactly | crates/lm-provision-cli/src/main.rs:2060-2076 | of a machine still running, a listing taken lacks it iff it slipped |
| Lifecycle.NoRunningMachineIsRetired | crates/lm-provision-cli/src/main.rs:2157-2274 | with anything interleaved, the machine of a row a sweep retires has ended by then or slipped past that sweep's pages, has ended where the listing was one document, and the sweep is not a dry run |
| Lifecycle.LostExactly | crates/lm-provision-cli/src/main.rs:2157-2274 | the machines the record has lost are exactly those a sweep retired while they ran |
| Lifecycle.LeasedMachinesStayInReach | crates/lm-provision-cli/src/main.rs:1471-1540 | over every run, a running acquired machine carries its stamp unless its label was changed, and is outstanding under its platform and lease iff its row was written and no sweep retired it while it ran |
| Lifecycle.OutOfReach | crates/lm-provision-cli/src/main.rs:1471-1540 | a run that ends with a running machine that has neither |
| Slip.ASlipLosesARow | crates/lm-provision-driver/src/infra.rs:493-501 | a run that ends with a recorded machine running and its row retired, by one machine ending mid-walk |
| Provenance.EverySweepIsTraced | crates/lm-provision-cli/src/main.rs:2150-2304 | over every run, what a sweep holds (its clock, rows, listings, clear gates) is what it read, at the events it read it |
| Provenance.EveryReadingIsTraced | crates/lm-provision-cli/src/main.rs:2150-2168 | the rows a sweep works from are those outstanding when it read the record, before its clock |
| Provenance.EveryWalkIsTraced | crates/lm-provision-driver/src/infra.rs:774-830 | the pages a sweep holds of a platform are exactly the readings it made, in order |
| Provenance.EveryStandingWasTrue | crates/lm-provision-driver/src/infra.rs:774-830 | each page reading is of what the platform listed then |
| Provenance.UnpagedMachinesStayInReach | crates/lm-provision-cli/src/main.rs:1471-1540 | on a platform always listed as one document, no running machine is retired, and one bought is outstanding iff its row was written |
| Provenance.EveryReleaseIsJustified | crates/lm-provision-cli/src/main.rs:2193-2298 | every release call is by a real sweep, after a last gate reading that was clear, for a lease reached at its one clock reading, by a listed stamp and with that platform's template, or by an outstanding row no listing outranks and with that row's command, the id put in |
| Text.IdIsPutIn | crates/lm-provision-cli/src/main.rs:2383-2387 | a word is read up to its first `{id}`, which becomes the id, and on from there; a word without it stays |
| Provenance.LiveIsNeverReleased | crates/lm-provision-cli/src/main.rs:2193-2242 | a machine a sweep lists with a live stamp is not released by that sweep, before or after the listing, whatever its row says |
| SweepRun.World.Happen | crates/lm-provision-cli/src/main.rs:2150-2304 | the world moves only by enabled events, and its history stays a run |
| SweepRun.World.Others | crates/lm-provision-cli/src/main.rs:2150-2304 | between two calls exactly those of everyone else's events happen that can, one after another, and the sweep's own knowledge and acts are unchanged |
| SweepRun.World.Begin | crates/lm-provision-cli/src/main.rs:2150-2172 | a sweep begins with the rows outstanding when it read the record and the clock of a later moment, or not at all when the record cannot be read |
| SweepRun.World.ReadPage | crates/lm-provision-driver/src/infra.rs:774-800 | one page: what stands on it at that moment, and whether it is the last |
| SweepRun.World.ReadPages | crates/lm-provision-driver/src/infra.rs:774-823 | a page at a time, at most a hundred: a success is a complete walk, and in a quiet world everything the platform runs, iff it fits |
| SweepRun.World.Listing | crates/lm-provision-cli/src/main.rs:2317-2322 | refused without the platform or its credential or with a page unread; a success is a complete walk of its pages; in a quiet world its answer is the platform's, by name |
| SweepRun.World.AskGate | crates/lm-provision-cli/src/main.rs:1987-1999 | the gate read is the ledger's at that moment, and the sweep holds it as clear only then |
| SweepRun.World.RunRelease | crates/lm-provision-cli/src/main.rs:2367-2381 | may be called only for a due machine with a clear gate in a real sweep, with the command that is its ground's; an empty argv runs nothing; a success frees the id |
| SweepRun.World.Retire | crates/lm-provision-cli/src/main.rs:2396-2408 | may be called only for a row freed or gone; a failed append changes nothing and is not raised |
| SweepCommand.ReleaseListed | crates/lm-provision-cli/src/main.rs:2226-2242 | releases one listed machine by its platform's template with the id put in, and, after a success, corrects the row that names it, if any |
| SweepCommand.SettleExpired | crates/lm-provision-cli/src/main.rs:2208-2247 | a listed machine whose lease has run out: the gate it is reported by is the one read, then the release run, none without a command; its entry, its call and in a quiet world its new state |
| SweepCommand.SettleMachine | crates/lm-provision-cli/src/main.rs:2190-2247 | one listed machine: its report entry, whether it is handled, whether a release ran, and in a quiet world its new state |
| SweepCommand.ReleaseRecorded | crates/lm-provision-cli/src/main.rs:2338-2348 | releases by the row's own argv with the id put in when the platform is known and its key held, and retires the row only after a success |
| SweepCommand.Judging | crates/lm-provision-cli/src/main.rs:1937-1955 | a row is judged by clock and then gate, and due only with a gate read as clear |
| SweepCommand.SettleJudged | crates/lm-provision-cli/src/main.rs:2273-2298 | a judged row: its entry, its call and in a quiet world its new state |
| SweepCommand.SettleRow | crates/lm-provision-cli/src/main.rs:2252-2298 | one outstanding row: handled, retired as gone, or judged; its report entry, its calls and in a quiet world the new state |
| SweepCommand.ReflectedPlaces | crates/lm-provision-cli/src/main.rs:2161-2253 | the handled set and the listed map the loops build are exactly those of the listings taken |
| SweepMain.SettlePlane | crates/lm-provision-cli/src/main.rs:2188-2250 | the inner loop of the platform half tallies its machines in order and leaves none waiting |
| SweepMain.RunPlatformHalf | crates/lm-provision-cli/src/main.rs:2179-2250 | the platform half's report, handled set, listed map and calls are the specification's |
| SweepMain.RunRecordHalf | crates/lm-provision-cli/src/main.rs:2252-2300 | the record half's report and calls are the specification's, every row in order |
| SweepMain.RunSweep | crates/lm-provision-cli/src/main.rs:2150-2304 | in every world: report and exit are the specification's on the answers got, and the listings, gate readings and releases of the history, each release with its command, are exactly those answers', in order; what was not run or not asked had no command, platform or key; `released` is what was released, no id called twice, none in a dry run; in a quiet one the report is told from the world it began in, a dry run changes nothing, a real sweep leaves nothing waiting, and where nothing waits nothing is done |
| Deeds.DeedsReleaseWhatIsReported | crates/lm-provision-cli/src/main.rs:2222-2300 | the releases among what a sweep did are those its decisions tell of, in the same order |
| Deeds.EveryRefusalWasRead | crates/lm-provision-cli/src/main.rs:2209-2283 | every machine reported as refused was refused by a gate the sweep read, in the words reported |
| Deeds.HonestMeans | crates/lm-provision-cli/src/main.rs:2158-2243 | a platform not asked is unknown here or has no key here; a release is not run iff its command is empty, or the platform is unknown or keyless |
| SweepMain.SweepAgain | crates/lm-provision-cli/src/main.rs:2150-2304 | run again at the same clock, a sweep whose every call succeeds takes no act that releases or corrects, reports nothing released, and leaves platforms and record as the first left them |
| Provenance.DryRunsTouchNothing | crates/lm-provision-cli/src/main.rs:2222-2298 | over every run, no dry run releases or corrects anything |
| SweepMain.WhatAQuietSweepLeaves | crates/lm-provision-cli/src/main.rs:2179-2300 | an acquired machine past its lease that still runs after a quiet sweep of its platform has a holding gate, or no release command, or a changed label: to a later stamp, or to none that reads while no row of it can be acted on |
| Foresight.RehearsalForetells | crates/lm-provision-cli/src/main.rs:2222-2295 | where nothing fails, a dry run's report is the real one's iff every due machine has a release command this host can run; otherwise they differ only between released and failed |
| SweepMain.RehearseThenSweep | crates/lm-provision-cli/src/main.rs:2150-2304 | run dry and then for real at one clock in a quiet world: the dry run takes no act that releases or corrects and changes nothing, both reports are told from the one world, and the first foretells the second by that same condition |
| Listing.RowsExact | crates/lm-provision-driver/src/infra.rs:691-743 | exactly which rows a document in an unknown wrapper is read as holding |
| Listing.EmptyMeansNothingLives | crates/lm-provision-driver/src/infra.rs:691-743 | a document reads as an empty fleet iff the rows it is read as holding have all ended, or it holds none |
| Json.PathsAre | crates/lm-provision-driver/src/infra.rs:4295-4308 | a dotted path is its keys one after another through objects, and an array is read from its first element |
| Json.NumbersPrint | crates/lm-provision-driver/src/infra.rs:4310-4320 | a numeric id prints as its digits, with no leading zero and a minus sign below zero |
| Listing.NoReadableRowIsLost | crates/lm-provision-driver/src/infra.rs:691-743 | the machines are exactly what the rows say: of each whose status is none of the fleet's ended words and whose id is text or a number, that id, with the text at the stamp path past its namespace, none where empty |
| Listing.RowsReadInOrder | crates/lm-provision-driver/src/infra.rs:721-733 | a document of two halves reads as what its halves do, in order |
| Listing.OneRowReads | crates/lm-provision-driver/src/infra.rs:721-741 | a document of one row: none iff its status is an ended word, its machine iff it says so, refused iff it is live and has no id |
| Listing.OnlyTheFirstArrayIsRead | crates/lm-provision-driver/src/infra.rs:691-743 | a live row in a second array is not read |
| Listing.WalkPages | crates/lm-provision-driver/src/infra.rs:774-830 | at most 100 commands; success iff a complete walk of strictly increasing pages exists, giving all its machines in order |
| Listing.InspectEach | crates/lm-provision-driver/src/infra.rs:774-830 | every machine gets its lease from the document read back for it, and a single failed read-back refuses the listing |
| Listing.List | crates/lm-provision-driver/src/infra.rs:774-830 | the whole listing: no failed or unreadable page or read-back is ever fewer machines |
| Merge.FillBlanks | crates/lm-provision-driver/src/infra.rs:4323-4347 | the recursive loop leaves every blank filled at once |
| Merge.MergeKeyByKey | crates/lm-provision-driver/src/infra.rs:4323-4347 | where both are objects and the earlier has the key, the earlier value whole if the fresh one misses the key, holds null or an object without keys; else the fresh value, itself filled |
| Merge.MergeAtEveryPath | crates/lm-provision-driver/src/infra.rs:4323-4347 | the exact meaning at every path: below the first blank what the earlier document said, whole; otherwise what the newer one states |
| Merge.FirstBlankIs | crates/lm-provision-driver/src/infra.rs:4333-4347 | the blank that decides a path is the shortest prefix missing, null or an empty object |
| Merge.WhatIsStatedStands | crates/lm-provision-driver/src/infra.rs:4323-4347 | whatever the fresh document states that is not an object is unchanged at its path |
| Merge.NothingElseAppears | crates/lm-provision-driver/src/infra.rs:4323-4347 | nothing is in the merge that neither document said there |
| Merge.MergingAgainChangesNothing | crates/lm-provision-driver/src/infra.rs:4323-4347 | merging the same document twice is merging it once |
| Together.ViewStandsExactly | crates/lm-provision-driver/src/infra.rs:3128-3176 | a read-back's view is untouched by every creation-time document iff it states its name, its split and a deployment's state itself |
| Together.EndpointSays | crates/lm-provision-driver/src/infra.rs:3148-3176 | the name and the split are the description's own where it has a name, else its `endpoint`'s |
| Together.DeploymentSays | crates/lm-provision-driver/src/infra.rs:3128-3176 | the state is that of the first deployment listed, else of `deployment`: its own, else its status's |
| AcquireWait.Acquired.Inspect | crates/lm-provision-driver/src/infra.rs:4095-4118 | an answer replaces the description with its blanks filled from the creation; a failure leaves it |
| AcquireWait.Wait | crates/lm-provision-cli/src/main.rs:1564-1633 | ends at the first turn it may: at each before, what was held was not settled and the deadline had not come, or the cap while materializing; never gives up before 300 s, nor before 1200 s while materializing; at most 240 sleeps, 60 when not extended; the connection held is the projection of the description held, which is the last answer filled |
| AcquireWait.Report | crates/lm-provision-cli/src/main.rs:1635-1718 | exit 0 iff the final description is not materializing, satisfies the profile and, where no port is mapped, projects an address |
| AcquireWait.AwaitDiscovered | crates/lm-provision-driver/src/infra.rs:4250-4280 | the discovery wait ends at the first read that fails, is ready, has failed or is at the cap, and says which |
| Money.UsdRoundTrip | crates/lm-provision-protocol/src/price.rs:145-219 | every amount the record can hold prints to text that reads back as it |
| Money.SameTextSameAmount | crates/lm-provision-protocol/src/price.rs:209-219 | comparing amounts as text is comparing amounts |
| Money.FractionsParse | crates/lm-provision-protocol/src/price.rs:156-207 | digits, a dot and one to six digits read as the amount those two parts make |
| Money.MicrosAre | crates/lm-provision-protocol/src/price.rs:156-207 | and the amount is the whole part times a million plus the fraction padded to six digits, if it fits 64 bits |
| Money.OnlyAmountsParse | crates/lm-provision-protocol/src/price.rs:156-207 | every text read as an amount has one of these two forms |
| Money.MicrosAreClose | crates/lm-provision-driver/src/prices.rs:405-411 | a converted amount is within half a micro-dollar of the exact one |
| Money.BilledIsClose | crates/lm-provision-driver/src/prices.rs:205-260 | rounded twice, a billed amount is within one micro-dollar of the exact discounted rate, never above the list, and equal to it at no discount |
| Prices.DeepinfraRows | crates/lm-provision-driver/src/prices.rs:180-279 | every entry is in exactly one of rows and skipped, in order, each skip under its name with its reason |
| Prices.PricedExactly | crates/lm-provision-driver/src/prices.rs:184-256 | an entry becomes a row iff it is named, priced by tokens, with both amounts holdable and no discount outside [0, 1) |
| Prices.RowIsClose | crates/lm-provision-driver/src/prices.rs:205-279 | read back as text out of the record, a row's input and output are within one micro-dollar of the exact discounted rates |
| Prices.ChargedIsClose | crates/lm-provision-driver/src/prices.rs:205-260 | a discount never raises a price, and none or zero changes nothing |
| Prices.CacheIsClose | crates/lm-provision-driver/src/prices.rs:247-275 | a cache amount is there iff a ratio that is not negative is stated and the product can be held, and is within the ratio plus one half of the exact product |
| Prices.CacheAmountsAreOfTheirRatios | crates/lm-provision-driver/src/prices.rs:247-275 | each cache amount is of its own ratio and of the input amount the row holds |
| PriceLog.SyncRows | crates/lm-provision-driver/src/prices.rs:485-518 | appends exactly the rows that differ from the record as it was, in order; a failed append stops there and keeps what was written |
| PriceLog.AnswerIsTheLastRow | crates/lm-provision-protocol/src/price.rs:351-371 | the answer is the last row of that platform and model whose instant is the one asked for or earlier, as text; none iff there is no such row |
| PriceLog.SyncChangesOnlyTheFuture | crates/lm-provision-driver/src/prices.rs:485-518 | one sync: from its instant on each stated model answers as listed; every other answer is what it was |
| PriceLog.LogAnswersAsTheSnapshotsWould | crates/lm-provision-protocol/src/price.rs:351-371 | a log built by syncs answers, for every platform, model and instant, what the latest full list stating the model by then said |
| PriceLog.LaterSyncsKeepEarlierAnswers | crates/lm-provision-driver/src/cost.rs:209-241 | a later sync never changes an answer about an earlier instant |
| PriceLog.LogAlternates | crates/lm-provision-driver/src/prices.rs:485-518 | adjacent rows of one model always differ in amounts |
| PriceLog.SyncAnswersAsListed | crates/lm-provision-driver/src/prices.rs:485-518 | for any list, repeats included, the record answers as listed after a sync iff it did not hold that amount already or the list gives the model no other |
| PriceLog.ARepeatedModelNeverSettles | crates/lm-provision-driver/src/prices.rs:485-518 | any list with a model at two prices appends a row at every sync |
| PriceLog.ARetryAppendsTheRest | crates/lm-provision-driver/src/prices.rs:430-463 | after a sync stopped by a failed write, the next appends what it did not get to, and nothing else |
| Bill.DeepinfraBilled | crates/lm-provision-driver/src/cost.rs:351-431 | reading, filtering and the checked sum amount to the specification, the sum refusing exactly when the whole does not fit |
| Bill.MonthIsTheOneAskedFor | crates/lm-provision-driver/src/cost.rs:356-364 | the month billed is the first that states the period asked for, none iff none does |
| Bill.ItemSaysItsLine | crates/lm-provision-driver/src/cost.rs:371-410 | a line that reads states every field, and its item holds each of them, the amounts to the nearest micro-dollar |
| Bill.AStatedLineReads | crates/lm-provision-driver/src/cost.rs:371-410 | and a line that states them all, in range, reads |
| Bill.BilledExactly | crates/lm-provision-driver/src/cost.rs:336-431 | a bill is accepted iff the month is there, every line reads and the kept sum can be held |
| Bill.OneBadLineRefusesEveryBill | crates/lm-provision-driver/src/cost.rs:336-418 | one malformed line refuses every bill of its month, by the same line, whatever the filter |
| Bill.ItemsRefused | crates/lm-provision-driver/src/cost.rs:373-410 | the refusal names the first line that does not read and its first missing field |
| Bill.EveryModelIsBilled | crates/lm-provision-driver/src/cost.rs:412-418 | when the whole bill is accepted so is each model's, and its lines are the whole bill's that name it, in order |
| Bill.TotalIsTheSumOfItsLines | crates/lm-provision-driver/src/cost.rs:415-431 | the printed total is exactly the sum of the printed amounts |
| Bill.BillsOfTheModelsSumToTheWhole | crates/lm-provision-driver/src/cost.rs:412-431 | the totals of the distinct models sum to the whole |
| Bill.TheBillIsCloseToItsCents | crates/lm-provision-driver/src/cost.rs:433-443 | the total is within half a micro-dollar a line of the exact cents |
| EndpointEnv.RenderEnv | crates/lm-provision-cli/src/main.rs:3104-3135 | the text pushed line by line is the rendering of every row in order |
| EndpointEnv.PrefixIsName | crates/lm-provision-cli/src/main.rs:3066-3089 | every prefix, with any suffix a name may have, is a name a shell takes, starting with a letter |
| EndpointEnv.PrefixSays | crates/lm-provision-cli/src/main.rs:3066-3089 | the prefix character by character: lower case raised, upper case and digits kept, the rest underscores, after `E_` where no letter is first |
| EndpointEnv.ShellQuoteReads | crates/lm-provision-cli/src/main.rs:3091-3095 | a quoted value reads as itself, whatever characters it holds |
| EndpointEnv.RenderingEvaluates | crates/lm-provision-cli/src/main.rs:3097-3135 | evaluating the rendering leaves exactly what its rows bind, in order |
| EndpointEnv.EveryRowIsBound | crates/lm-provision-cli/src/main.rs:3097-3135 | each row with a URL binds its URL, its model and the key it refers to, if no later row shares its prefix and nothing before exports its key's name |
| EndpointEnv.NothingElseIsBound | crates/lm-provision-cli/src/main.rs:3097-3135 | a name no row exports is what it was |
| EndpointEnv.LastExportDecides | crates/lm-provision-cli/src/main.rs:3097-3135 | for any rows, the value of any name after the rendering is the one its last export in row order gives it, a key's by what its reference read there |
| EndpointEnv.ARowIsFoundExactly | crates/lm-provision-cli/src/main.rs:3066-3135 | a row is found as it stands iff the last row of its prefix states the same URL and model and its reference reads the same key |
| EndpointEnv.ASharedPrefixLosesARow | crates/lm-provision-cli/src/main.rs:3066-3089 | two names with one prefix: the earlier row's URL is lost |
| EndpointEnv.RemarkBindsNothingExactly | crates/lm-provision-cli/src/main.rs:3124-3130 | the remark on a row without a URL changes nothing, whatever follows, iff each of its lines is blanks or, after any blanks, a comment |
| EndpointEnv.ANameCanBind | crates/lm-provision-cli/src/main.rs:3124-3130 | a name with an export on a line of its own sets that variable |
| EndpointEnv.PlainRemarksAreInert | crates/lm-provision-cli/src/main.rs:3124-3130 | a remark with no line break in its name, id or provider is harmless |
| EndpointEnv.ANewlineEndsTheRemark | crates/lm-provision-cli/src/main.rs:3124-3130 | a newline in the name of a row without a URL ends the comment, and the rest is read as a command, blanks before it aside |
| Image.SplittingIsANormalForm | crates/lm-provision-driver/src/image.rs:69-113 | for every string, the three parts spelled back out split into the same three |
| Image.PartsAreWhatIsStated | crates/lm-provision-driver/src/image.rs:69-113 | the parts of any image: the digest or tag it states or `latest`; a first segment with a dot or a colon, or `localhost`, as registry; else the default one, a one-segment name under `library/` |
| Image.NothingIsLost | crates/lm-provision-driver/src/image.rs:69-113 | an image is its full spelling less only defaults it did not state |
| Requests.StampCarriesLease | crates/lm-provision-driver/src/infra.rs:656-668 | a machine listed back with its stamp, namespaced or not, reads to its lease |
| Requests.CreatedIsListed | crates/lm-provision-driver/src/infra.rs:1173-1194 | a pod or a container listed under the name it was created with reads as that machine with its lease |
| Requests.PassThrough | crates/lm-provision-driver/src/infra.rs:1453-1460 | the profile's own fields over the derived ones, and no other field touched |
| Requests.RunpodBody | crates/lm-provision-driver/src/infra.rs:1389-1476 | when it is refused, every field of the body, and that the lease written is the lease read |
| Requests.PodSays | crates/lm-provision-driver/src/infra.rs:1389-1476 | each field of a pod's body by name: the lease, the profile's word, or what the requirements say |
| Requests.ContainerBody | crates/lm-provision-driver/src/infra.rs:2473-2544 | the same for a container, the authorized key consumed |
| Requests.ContainerBodySays | crates/lm-provision-driver/src/infra.rs:2473-2544 | each field of a container's body by name |
| DeployRequest.LandSlots | crates/lm-provision-driver/src/infra.rs:3497-3522 | every slot lands in the object its first dot names, once, and the token's nowhere |
| DeployRequest.DeployBody | crates/lm-provision-driver/src/infra.rs:3413-3552 | when a deployment is refused, every field of its three objects, and that the lease written is the lease read |
| DeployRequest.BodySays | crates/lm-provision-driver/src/infra.rs:3413-3552 | each field of a deployment's body by name: the lease, the profile's word, the device, the count, the engine's arguments |
| DeployRequest.InnerSays | crates/lm-provision-driver/src/infra.rs:3413-3552 | each field of the two objects inside it by name |
| DeployRequest.CreatedIsListed | crates/lm-provision-driver/src/infra.rs:2788-2797 | a deployment listed under its name reads as that machine with its lease, and as none once failed or deleted |
| DeployRequest.TheProfileHasTheLastWordExcept | crates/lm-provision-driver/src/infra.rs:3402-3406 | for every slot, top-level or nested, exactly when the body says what it says, in terms of the profile and the lease alone |
| HetznerRequest.ReadSlots | crates/lm-provision-driver/src/infra.rs:3971-4020 | refused iff some slot is outside the allowlist or an id is not an integer; otherwise every field holds what its slot says |
| HetznerRequest.SlotsSay | crates/lm-provision-driver/src/infra.rs:3971-4020 | which slot each field of the request is read from |
| HetznerRequest.EncodedSays | crates/lm-provision-driver/src/infra.rs:3878-3899 | each thing stated is sent under its own name, and nothing else is |
| HetznerRequest.ServerBody | crates/lm-provision-driver/src/infra.rs:3953-4064 | when a server is refused, what is sent, and that no label of the profile displaces the lease |
| HetznerRequest.CreatedIsListed | crates/lm-provision-driver/src/infra.rs:3763-3777 | a server listed with its lease among its labels reads as that machine, and as none while being deleted |
| Commands.VastAcquisition | crates/lm-provision-driver/src/infra.rs:1934-2022 | when it is refused, the query, and that each option has exactly its one value, the label the lease |
| Commands.TogetherCreate | crates/lm-provision-driver/src/infra.rs:3214-3353 | when it is refused, and that each option has exactly its one value, the endpoint's name the lease |
| Commands.EndpointSlotsSay | crates/lm-provision-driver/src/infra.rs:3214-3353 | the config, the timeout and the deployment name are what the profile says under their own slots, and absent otherwise |
| Commands.ReplicasAskedFor | crates/lm-provision-driver/src/infra.rs:3214-3353 | the replica counts: this target's slot, else the shared one, else one |
| Commands.CreatedIsListed | crates/lm-provision-driver/src/infra.rs:1769-1784 | an instance or an endpoint listed under the text it was created with reads as that machine with its lease |

## Left out

- Gate against apply: nothing is claimed of a ledger row appended after the gate was read.
- Listing documents in the lifecycle: a page is rows; that its document reads as that is `Listing`.
- Labels read machine by machine (`stamp_from_inspect`) in the lifecycle: there a label is as of its page; `Listing.InspectEach` has the read-backs.
- Merge.FillBlanks: rewrites a value and returns it; the original rewrites its argument in place, and nothing is said of aliasing.
- Image preflight, the manifests request and its credentials.
- Error wording: a refusal carries its reason as data, or only that it is a refusal.
- Bill.DeepinfraBilled: finds its month with a recursive search; the other platforms' bills and the network read are not modelled.
- Together's price document, its rows and `cost` itself, beyond the log it reads.
- Requests.ContainerBody: the text of the cloud-init document is a parameter.
- Commands.VastAcquisition: its words are taken as words; the placeholder substitution of the offer id is not modelled.
- `machine::observe` and `verdict`, `failure` reasons and the GPU answers: the acquire wait takes them as parameters.
- `render_litellm`, balance and probe readers, port and ssh target parsers.
- Subprocesses, curl, ssh, credential files, the JSON Lines encoding, clap, and the host's timer loop.
- Encoding of strings: characters, not bytes; a stamp's length is counted in characters.
