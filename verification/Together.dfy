/** Reading a dedicated endpoint out of a description that may have been filled from its creation. */
module Together {
  import opened Wrappers
  import opened Json
  import opened Merge

  /** `get(0)`: the first element of an array, and nothing of anything else. */
  function First(j: Option<Json>): Option<Json> {
    if j.Some? && j.value.Arr? && j.value.items != [] then Some(j.value.items[0]) else None
  }

  function Within(j: Option<Json>, key: string): Option<Json> {
    if j.Some? then Get(j.value, key) else None
  }

  function OrElse(a: Option<Json>, b: Option<Json>): Option<Json> {
    if a.Some? then a else b
  }

  /** The read-back's first deployment; the creation's only when there is none. */
  function Deployment(inspected: Json): Option<Json> {
    OrElse(First(Get(inspected, "deployments")), Get(inspected, "deployment"))
  }

  function Endpoint(inspected: Json): Json {
    if Get(inspected, "name").Some? then inspected
    else match Get(inspected, "endpoint")
      case Some(endpoint) => endpoint
      case None => inspected
  }

  function StateOf(deployment: Option<Json>): Option<string> {
    AsStr(OrElse(Within(deployment, "state"), Within(Within(deployment, "status"), "state")))
  }

  datatype View = View(name: Option<string>, state: Option<string>, split: Option<seq<Json>>)

  function TogetherView(inspected: Json): View {
    var endpoint := Endpoint(inspected);
    var split := Get(endpoint, "trafficSplit");
    View(AsStr(Get(endpoint, "name")), StateOf(Deployment(inspected)),
         if split.Some? && split.value.Arr? then Some(split.value.items) else None)
  }

  /** A read-back that leaves its creation nothing to say: it states its own name and traffic split,
      and a deployment, or failing a listed one a `deployment` whose state it states. */
  predicate SpeaksForItself(newer: Json) {
    newer.Obj? ==>
      && !Blank(Get(newer, "name")) && !Blank(Get(newer, "trafficSplit"))
      && !Blank(Get(newer, "deployments"))
      && (First(Get(newer, "deployments")).None? ==>
            var deployment := Get(newer, "deployment");
            !Blank(deployment) && (deployment.value.Obj? ==> !Blank(Get(deployment.value, "state"))))
  }

  /** A key that is not blank reads as the same string and the same array after the merge. */
  lemma StatedReadsTheSame(newer: Json, earlier: Json, key: string)
    requires newer.Obj? && !Blank(Get(newer, key))
    ensures var merged := Get(Filled(newer, earlier), key);
            && !Blank(merged) && (merged.value.Obj? <==> newer.fields[key].Obj?)
            && (!newer.fields[key].Obj? ==> merged == Get(newer, key))
  {
    FilledKey(newer, earlier, key);
  }

  lemma SpokenForStands(newer: Json, earlier: Json)
    requires SpeaksForItself(newer)
    ensures TogetherView(Filled(newer, earlier)) == TogetherView(newer)
  {
    hide Filled;
    if newer.Obj? {
      StatedReadsTheSame(newer, earlier, "name");
      StatedReadsTheSame(newer, earlier, "trafficSplit");
      StatedReadsTheSame(newer, earlier, "deployments");
      if First(Get(newer, "deployments")).None? {
        StatedReadsTheSame(newer, earlier, "deployment");
        var deployment := newer.fields["deployment"];
        FilledKey(newer, earlier, "deployment");
        if deployment.Obj? && Get(earlier, "deployment").Some? {
          StatedReadsTheSame(deployment, earlier.fields["deployment"], "state");
        }
      }
    } else {
      NothingToFill(newer, earlier);
    }
  }

  /** A string that is not `s`. */
  function Other(s: Option<string>): string {
    if s == Some("a") then "b" else "a"
  }

  /** A creation whose merge a read-back that is silent somewhere reads differently through. */
  function Contradicting(newer: Json): Json
    requires newer.Obj?
  {
    var view := TogetherView(newer);
    if Blank(Get(newer, "name")) then Obj(map["name" := Str(Other(view.name))])
    else if Blank(Get(newer, "trafficSplit")) then Obj(map["trafficSplit" := Arr([])])
    else if Blank(Get(newer, "deployments")) then
      Obj(map["deployments" := Arr([Obj(map["state" := Str(Other(view.state))])])])
    else
      Obj(map["deployment" := Obj(map["state" := Str(Other(view.state))])])
  }

  lemma SilenceIsFilled(newer: Json)
    requires !SpeaksForItself(newer)
    ensures TogetherView(Filled(newer, Contradicting(newer))) != TogetherView(newer)
  {
    hide Filled;
    var earlier := Contradicting(newer);
    var merged := Filled(newer, earlier);
    FilledKey(newer, earlier, "name");
    FilledKey(newer, earlier, "trafficSplit");
    FilledKey(newer, earlier, "deployments");
    FilledKey(newer, earlier, "deployment");
    assert merged.Obj? by { FilledIsObject(newer, earlier); }
    if Blank(Get(newer, "name")) {
      assert TogetherView(merged).name == Some(Other(TogetherView(newer).name));
    } else if Blank(Get(newer, "trafficSplit")) {
      assert TogetherView(merged).split == Some([]);
      assert TogetherView(newer).split == None;
    } else if Blank(Get(newer, "deployments")) {
      assert TogetherView(merged).state == Some(Other(TogetherView(newer).state));
    } else {
      var deployment := Get(newer, "deployment");
      if !Blank(deployment) {
        FilledKey(deployment.value, earlier.fields["deployment"], "state");
      }
      assert TogetherView(merged).state == Some(Other(TogetherView(newer).state));
    }
  }

  lemma FilledIsObject(newer: Json, earlier: Json)
    requires newer.Obj?
    ensures Filled(newer, earlier).Obj?
  {
  }

  /** The view of a read-back is untouched by any creation-time description exactly when the read-back
      speaks for itself. */
  lemma ViewStandsExactly(newer: Json)
    ensures SpeaksForItself(newer) <==> forall earlier :: TogetherView(Filled(newer, earlier)) == TogetherView(newer)
  {
    hide TogetherView, Filled, SpeaksForItself;
    if SpeaksForItself(newer) {
      forall earlier
        ensures TogetherView(Filled(newer, earlier)) == TogetherView(newer)
      {
        SpokenForStands(newer, earlier);
      }
    } else {
      SilenceIsFilled(newer);
    }
  }

  // ---- The view, in the description's own terms ----

  /** The endpoint is the description itself where it has a name, or else what it holds as `endpoint`, if
      anything: the name and the traffic split are that one's. */
  lemma EndpointSays(inspected: Json)
    ensures var view, named := TogetherView(inspected), Get(inspected, "name").Some?;
            var inner := Get(inspected, "endpoint");
            && view.name == AsStr(if named then Get(inspected, "name")
                                  else if inner.Some? then Get(inner.value, "name") else None)
            && view.split == ItemsOf(if !named && inner.Some? then Get(inner.value, "trafficSplit")
                                     else Get(inspected, "trafficSplit"))
  {
  }

  ghost function ItemsOf(j: Option<Json>): Option<seq<Json>> {
    match j
    case Some(Arr(items)) => Some(items)
    case _ => None
  }

  /** The deployment is the first one listed, or with none listed the one held as `deployment`; its state is its
      own, or with none its status's. */
  lemma DeploymentSays(inspected: Json, deployment: Json)
    requires match Get(inspected, "deployments")
             case Some(Arr(items)) =>
               if items != [] then deployment == items[0] else Get(inspected, "deployment") == Some(deployment)
             case _ => Get(inspected, "deployment") == Some(deployment)
    ensures TogetherView(inspected).state ==
            AsStr(match Get(deployment, "state")
                  case Some(state) => Some(state)
                  case None =>
                    match Get(deployment, "status") case Some(status) => Get(status, "state") case None => None)
  {
  }

  /** And a description of no deployment has no state. */
  lemma NoDeploymentNoState(inspected: Json)
    requires Get(inspected, "deployment").None?
    requires match Get(inspected, "deployments") case Some(Arr(items)) => items == [] case _ => true
    ensures TogetherView(inspected).state == None
  {
  }
}
