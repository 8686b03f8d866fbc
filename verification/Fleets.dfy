/** The machines of one platform, as values. */
module Fleets {
  import opened Wrappers

  /** The pages of one listing a walk may read. */
  const MAX_LIST_PAGES := 100

  /** One machine of a listing: its id, and the text an operator may set. */
  datatype Machine = Machine(id: string, name: Option<string>)

  function Ids(machines: seq<Machine>): set<string> {
    set m | m in machines :: m.id
  }

  predicate DistinctMachines(machines: seq<Machine>) {
    forall i, j :: 0 <= i < j < |machines| ==> machines[i].id != machines[j].id
  }

  /** The machines that are not named in `gone`. */
  function Without(machines: seq<Machine>, gone: set<string>): seq<Machine> {
    if machines == [] then []
    else if machines[0].id in gone then Without(machines[1..], gone)
    else [machines[0]] + Without(machines[1..], gone)
  }

  lemma {:induction false} WithoutKeeps(machines: seq<Machine>, gone: set<string>)
    ensures forall m :: m in Without(machines, gone) <==> m in machines && m.id !in gone
    ensures DistinctMachines(machines) ==> DistinctMachines(Without(machines, gone))
  {
    if machines != [] {
      WithoutKeeps(machines[1..], gone);
      assert forall m :: m in machines <==> m == machines[0] || m in machines[1..];
      if DistinctMachines(machines) {
        var rest := Without(machines[1..], gone);
        forall i | 0 <= i < |rest|
          ensures rest[i].id != machines[0].id
        {
          assert rest[i] in machines[1..];
        }
      }
    }
  }

  lemma {:induction false} WithoutJoins(a: seq<Machine>, b: seq<Machine>, gone: set<string>)
    ensures Without(a + b, gone) == Without(a, gone) + Without(b, gone)
  {
    if a == [] {
      assert a + b == b;
    } else {
      assert (a + b)[1..] == a[1..] + b;
      WithoutJoins(a[1..], b, gone);
    }
  }

  lemma {:induction false} WithoutAnother(machines: seq<Machine>, gone: set<string>, id: string)
    requires id !in Ids(machines)
    ensures Without(machines, gone + {id}) == Without(machines, gone)
  {
    if machines != [] {
      assert machines[0] in machines;
      WithoutAnother(machines[1..], gone, id);
    }
  }
}
