/** Filling a fresh description's blanks from an earlier one, and what that means at every path. */
module Merge {
  import opened Wrappers
  import opened Text
  import opened Json

  /** What the merge overwrites: nothing there, `Null`, or an object without keys. */
  predicate Blank(j: Option<Json>) {
    match j
    case None => true
    case Some(Null) => true
    case Some(Obj(fields)) => fields == map[]
    case _ => false
  }

  // ---- The meaning ----

  /** All blanks filled at once: the value the loop below is proved to leave. */
  function Filled(newer: Json, earlier: Json): Json
    decreases newer
  {
    if newer.Obj? && earlier.Obj? then
      Obj(map key | key in newer.fields.Keys + earlier.fields.Keys ::
            if key !in earlier.fields then newer.fields[key]
            else if Blank(Get(newer, key)) then earlier.fields[key]
            else Filled(newer.fields[key], earlier.fields[key]))
    else newer
  }

  // ---- The loop ----

  /** What becomes of one key the earlier description has. */
  function FilledAt(newer: Json, earlier: Json, key: string): Json
    requires newer.Obj? && earlier.Obj? && key in earlier.fields
  {
    if Blank(Get(newer, key)) then earlier.fields[key] else Filled(newer.fields[key], earlier.fields[key])
  }

  /** The object as it stands when some of the earlier keys have been seen to. */
  ghost function PartlyFilled(newer: Json, earlier: Json, done: set<string>): map<string, Json>
    requires newer.Obj? && earlier.Obj? && done <= earlier.fields.Keys
  {
    map key | key in newer.fields.Keys + done ::
      if key in done then FilledAt(newer, earlier, key) else newer.fields[key]
  }

  lemma OneKeyMore(newer: Json, earlier: Json, done: set<string>, key: string)
    requires newer.Obj? && earlier.Obj? && done <= earlier.fields.Keys && key in earlier.fields
    ensures PartlyFilled(newer, earlier, done)[key := FilledAt(newer, earlier, key)]
         == PartlyFilled(newer, earlier, done + {key})
  {
    hide FilledAt;
  }

  lemma AllKeysDone(newer: Json, earlier: Json)
    requires newer.Obj? && earlier.Obj?
    ensures PartlyFilled(newer, earlier, {}) == newer.fields
    ensures Obj(PartlyFilled(newer, earlier, earlier.fields.Keys)) == Filled(newer, earlier)
  {
    assert PartlyFilled(newer, earlier, earlier.fields.Keys) == Filled(newer, earlier).fields;
  }

  /** The loop over the earlier keys; it recurses where both documents hold something. */
  method FillBlanks(newer: Json, earlier: Json) returns (r: Json)
    ensures r == Filled(newer, earlier)
    decreases newer
  {
    hide PartlyFilled, Filled;
    if !newer.Obj? || !earlier.Obj? {
      assert Filled(newer, earlier) == newer by { NothingToFill(newer, earlier); }
      return newer;
    }
    AllKeysDone(newer, earlier);
    var fields := newer.fields;
    var keys := Ascending(earlier.fields.Keys);
    ghost var done := {};
    var i := 0;
    while i < |keys|
      invariant 0 <= i <= |keys|
      invariant done == (set key | key in keys[..i]) && done <= earlier.fields.Keys
      invariant fields == PartlyFilled(newer, earlier, done)
    {
      var key := keys[i];
      var was := earlier.fields[key];
      assert keys[..i + 1] == keys[..i] + [key];
      NotYetDone(newer, earlier, done, key);
      OneKeyMore(newer, earlier, done, key);
      if key !in fields {
        fields := fields[key := was];
      } else if fields[key].Null? {
        fields := fields[key := was];
      } else if fields[key].Obj? && fields[key].fields == map[] {
        fields := fields[key := was];
      } else {
        var now := FillBlanks(fields[key], was);
        fields := fields[key := now];
      }
      done := done + {key};
      i := i + 1;
    }
    assert keys[..i] == keys;
    assert done == earlier.fields.Keys;
    return Obj(fields);
  }

  lemma NothingToFill(newer: Json, earlier: Json)
    requires !newer.Obj? || !earlier.Obj?
    ensures Filled(newer, earlier) == newer
  {
  }

  lemma NotYetDone(newer: Json, earlier: Json, done: set<string>, key: string)
    requires newer.Obj? && earlier.Obj? && done <= earlier.fields.Keys && key !in done
    ensures key in PartlyFilled(newer, earlier, done) <==> key in newer.fields
    ensures key in newer.fields ==> PartlyFilled(newer, earlier, done)[key] == newer.fields[key]
  {
    hide FilledAt;
  }

  // ---- What it means at a path ----

  lemma FilledKey(newer: Json, earlier: Json, key: string)
    requires newer.Obj?
    ensures Get(Filled(newer, earlier), key) ==
            if Get(earlier, key).None? then Get(newer, key)
            else if Blank(Get(newer, key)) then Get(earlier, key)
            else Some(Filled(Get(newer, key).value, Get(earlier, key).value))
  {
  }

  /** The fresh description reaches `path` and is blank there: its parent is an object that misses the
      last key, or holds null or an empty object under it. */
  predicate BlankAt(newer: Json, path: seq<string>) {
    && path != []
    && var parent := Walk(newer, path[..|path| - 1]);
       parent.Some? && parent.value.Obj? && Blank(Get(parent.value, path[|path| - 1]))
  }

  /** The first blank along a path, as the length of the prefix it is at, or nothing. */
  function FirstBlank(newer: Json, path: seq<string>): (r: Option<nat>)
    ensures r.Some? ==> 1 <= r.value <= |path|
    decreases |path|
  {
    if path == [] || !newer.Obj? then None
    else if Blank(Get(newer, path[0])) then Some(1)
    else match FirstBlank(newer.fields[path[0]], path[1..])
      case None => None
      case Some(n) => Some(n + 1)
  }

  /** `FirstBlank` is the shortest prefix of the path the fresh description is blank at. */
  lemma {:induction false} FirstBlankIs(newer: Json, path: seq<string>)
    ensures match FirstBlank(newer, path)
            case Some(n) => BlankAt(newer, path[..n]) && forall i :: 1 <= i < n ==> !BlankAt(newer, path[..i])
            case None => forall i :: 1 <= i <= |path| ==> !BlankAt(newer, path[..i])
    decreases |path|
  {
    if path != [] && newer.Obj? {
      BlankStep(newer, path, 1);
      if !Blank(Get(newer, path[0])) {
        var inner, rest := newer.fields[path[0]], path[1..];
        FirstBlankIs(inner, rest);
        forall i | 1 < i <= |path|
          ensures BlankAt(newer, path[..i]) <==> BlankAt(inner, rest[..i - 1])
        {
          BlankStep(newer, path, i);
        }
      }
    } else if path != [] {
      forall i | 1 <= i <= |path|
        ensures !BlankAt(newer, path[..i])
      {
        var prefix := path[..i][..i - 1];
        assert prefix == [] || prefix[0] == path[0];
      }
    }
  }

  lemma BlankStep(newer: Json, path: seq<string>, i: nat)
    requires path != [] && newer.Obj? && 1 <= i <= |path|
    ensures i == 1 ==> (BlankAt(newer, path[..1]) <==> Blank(Get(newer, path[0])))
    ensures i > 1 && !Blank(Get(newer, path[0])) ==>
              (BlankAt(newer, path[..i]) <==> BlankAt(newer.fields[path[0]], path[1..][..i - 1]))
  {
    var here := path[..i];
    if i == 1 {
      assert here[..0] == [];
    } else {
      var below := path[1..][..i - 1];
      assert here[1..] == below;
      assert here[..i - 1][1..] == below[..i - 2];
      assert here[i - 1] == below[i - 2];
    }
  }

  /** The exact meaning of the merge, at every path of every pair of documents. Where the fresh
      description is blank somewhere along the path, what the earlier one said from that blank down is
      restored whole, if it said anything there; otherwise what the newer one states stands, itself
      filled in from what the earlier one said at the same place. */
  lemma {:induction false} MergeAtEveryPath(newer: Json, earlier: Json, path: seq<string>)
    ensures Walk(Filled(newer, earlier), path) ==
            match FirstBlank(newer, path)
            case Some(n) =>
              if Walk(earlier, path[..n]).Some? then Walk(earlier, path) else Walk(newer, path)
            case None =>
              (match Walk(newer, path)
               case None => None
               case Some(stated) =>
                 if Walk(earlier, path).Some? then Some(Filled(stated, Walk(earlier, path).value)) else Some(stated))
    decreases |path|
  {
    if path != [] {
      var key, rest := path[0], path[1..];
      if newer.Obj? {
        FilledKey(newer, earlier, key);
        if Blank(Get(newer, key)) {
          assert path[..1][1..] == [];
          assert path[..1][0] == key;
          assert Walk(earlier, path[..1]).Some? <==> Get(earlier, key).Some?;
        } else {
          var inner := newer.fields[key];
          if Get(earlier, key).Some? {
            MergeAtEveryPath(inner, earlier.fields[key], rest);
          }
          var n := FirstBlank(inner, rest);
          if n.Some? {
            assert path[..n.value + 1][1..] == rest[..n.value];
            assert path[..n.value + 1][0] == key;
          }
          if Get(earlier, key).None? {
            NothingBelow(earlier, path);
          }
        }
      }
    }
  }

  lemma NothingBelow(j: Json, path: seq<string>)
    requires path != [] && Get(j, path[0]).None?
    ensures forall n :: 1 <= n <= |path| ==> Walk(j, path[..n]).None?
  {
  }

  /** Whatever the fresh description states at a path that is not itself an object stands there. */
  lemma WhatIsStatedStands(newer: Json, earlier: Json, path: seq<string>, stated: Json)
    requires Walk(newer, path) == Some(stated) && !stated.Obj? && !stated.Null?
    ensures Walk(Filled(newer, earlier), path) == Some(stated)
  {
    MergeAtEveryPath(newer, earlier, path);
    FirstBlankIs(newer, path);
    StatedHasNoBlank(newer, path);
  }

  lemma {:induction false} StatedHasNoBlank(newer: Json, path: seq<string>)
    requires Walk(newer, path).Some? && !Blank(Walk(newer, path))
    ensures FirstBlank(newer, path).None?
    decreases |path|
  {
    if path != [] && newer.Obj? {
      var inner := newer.fields[path[0]];
      assert !Blank(Some(inner)) by {
        if path[1..] == [] { assert Walk(newer, path) == Some(inner); }
      }
      StatedHasNoBlank(inner, path[1..]);
    }
  }

  /** The merge key by key, in the documents' own terms: where both are objects and the earlier one has the
      key, the earlier value is restored whole if the fresh one misses the key, holds null there or an
      object without keys; otherwise what the fresh one holds stands, itself filled in; a key the earlier
      one does not have is as the fresh one has it; and where either is no object the fresh one stands. */
  lemma MergeKeyByKey(newer: Json, earlier: Json, key: string)
    ensures !newer.Obj? || !earlier.Obj? ==> Filled(newer, earlier) == newer
    ensures newer.Obj? && earlier.Obj? ==>
              var merged := Filled(newer, earlier);
              && merged.Obj? && (key in merged.fields <==> key in newer.fields || key in earlier.fields)
              && (key in merged.fields ==>
                    merged.fields[key] ==
                    if key !in earlier.fields then newer.fields[key]
                    else if key !in newer.fields || newer.fields[key] == Null || newer.fields[key] == Obj(map[]) then
                      earlier.fields[key]
                    else Filled(newer.fields[key], earlier.fields[key]))
  {
  }

  /** A prefix the fresh description is blank at, in its own terms. */
  lemma BlankAtIs(newer: Json, path: seq<string>, key: string)
    ensures BlankAt(newer, path + [key]) <==>
            exists fields: map<string, Json> :: Walk(newer, path) == Some(Obj(fields))
              && (key !in fields || fields[key] == Null || fields[key] == Obj(map[]))
  {
    assert (path + [key])[..|path|] == path;
    var parent := Walk(newer, path);
    if parent.Some? && parent.value.Obj? {
      assert parent == Some(Obj(parent.value.fields));
    }
  }

  /** Nothing is in the merged description that neither of the two said at that path. */
  lemma NothingElseAppears(newer: Json, earlier: Json, path: seq<string>)
    requires Walk(Filled(newer, earlier), path).Some?
    ensures Walk(newer, path).Some? || Walk(earlier, path).Some?
  {
    MergeAtEveryPath(newer, earlier, path);
  }

  lemma {:induction false} FillingItself(j: Json)
    ensures Filled(j, j) == j
  {
    if j.Obj? {
      forall key | key in j.fields
        ensures Filled(j, j).fields[key] == j.fields[key]
      {
        FillingItself(j.fields[key]);
      }
      assert Filled(j, j).fields == j.fields;
    }
  }

  /** Merging the same earlier description again changes nothing. */
  lemma {:induction false} MergingAgainChangesNothing(newer: Json, earlier: Json)
    ensures Filled(Filled(newer, earlier), earlier) == Filled(newer, earlier)
    decreases newer
  {
    if newer.Obj? && earlier.Obj? {
      var once := Filled(newer, earlier);
      var twice := Filled(once, earlier);
      forall key | key in once.fields
        ensures twice.fields[key] == once.fields[key]
      {
        if key in earlier.fields {
          if Blank(Get(newer, key)) {
            FillingItself(earlier.fields[key]);
          } else {
            MergingAgainChangesNothing(newer.fields[key], earlier.fields[key]);
          }
        }
      }
      assert twice.fields == once.fields;
    }
  }
}
