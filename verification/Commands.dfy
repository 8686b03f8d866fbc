/** The two adapters that create through a platform's own command line, and the words that command reads.
    A command line is read as words: an option takes the word after it, whatever that word is; a flag
    takes none. */
module Commands {
  import opened Wrappers
  import opened Text
  import opened Lease
  import opened Json
  import opened Fleets
  import opened Listing
  import opened Requests

  /** Every value an option is given, in order. */
  function ValuesOf(words: seq<string>, flags: set<string>, option: string): seq<string>
    decreases |words|
  {
    if words == [] then []
    else if words[0] in flags then ValuesOf(words[1..], flags, option)
    else if |words| == 1 then []
    else (if words[0] == option then [words[1]] else []) + ValuesOf(words[2..], flags, option)
  }

  /** An option and its value, when it has one. */
  function Given(option: string, value: Option<string>): seq<string> {
    if value.Some? then [option, value.value] else []
  }

  function OneValue(option: string, value: Option<string>, wanted: string): seq<string> {
    if option == wanted && value.Some? then [value.value] else []
  }

  lemma GivenReads(option: string, value: Option<string>, rest: seq<string>, flags: set<string>, wanted: string)
    requires option !in flags
    ensures ValuesOf(Given(option, value) + rest, flags, wanted)
            == OneValue(option, value, wanted) + ValuesOf(rest, flags, wanted)
  {
    if value.Some? {
      assert (Given(option, value) + rest)[2..] == rest;
    } else {
      assert Given(option, value) + rest == rest;
    }
  }

  lemma FlagReads(flag: string, rest: seq<string>, flags: set<string>, wanted: string)
    requires flag in flags
    ensures ValuesOf([flag] + rest, flags, wanted) == ValuesOf(rest, flags, wanted)
  {
    assert ([flag] + rest)[1..] == rest;
  }

  function StampOfLease(expiresAt: Option<Timestamp>): Option<string> {
    if expiresAt.Some? then Some(ExpiryStamp(expiresAt.value)) else None
  }

  /** The one value of an option, when it has exactly one. */
  function OnlyValue(values: seq<string>): Option<string> { if |values| == 1 then Some(values[0]) else None }

  // ---- A marketplace of offers ----

  const INSTANCES := Fleet("id", "label", false, false, None, None)
  const INSTANCE_FLAGS: set<string> := {"--ssh", "--direct", "--raw"}

  function Joined(words: seq<string>): string {
    if words == [] then ""
    else if |words| == 1 then words[0]
    else words[0] + " " + Joined(words[1..])
  }

  /** What the disk and the ports are asked for with: the gigabytes that need not persist, and the ports with a
      space between. */
  lemma WordsSay(gb: U32, disk: Disk, first: string, more: seq<string>)
    ensures DiskWord(None) == None
    ensures DiskWord(Some(disk.(ephemeralGb := None))) == None
    ensures DiskWord(Some(disk.(ephemeralGb := Some(gb)))) == Some(NatText(gb))
    ensures PortsWord([]) == None && PortsWord([first]) == Some(first)
    ensures more != [] ==> PortsWord([first] + more) == Some(first + " " + PortsWord(more).value)
  {
    assert ([first] + more)[1..] == more;
  }

  function DiskWord(disk: Option<Disk>): Option<string> {
    if disk.Some? && disk.value.ephemeralGb.Some? then Some(NatText(disk.value.ephemeralGb.value)) else None
  }

  function PortsWord(ports: seq<string>): Option<string> { if ports != [] then Some(Joined(ports)) else None }

  /** The words before the options: the verb and the offer. */
  const CREATE: seq<string> := ["vastai", "create", "instance", "{offer_id}"]

  datatype Offers = Offers(query: seq<string>, create: seq<string>)

  /** The discovery and the create. Refused exactly when the image is not named or an answer falls short;
      the query asks for every word of the answers; and of the create's options each has exactly the
      value it was given, so the label is the lease whatever the image or the ports spell. */
  method VastAcquisition(disk: Option<Disk>, provider: Provider, ports: seq<string>, gpuAnswer: Option<Answer>,
                         diskAnswer: Option<Answer>, expiresAt: Option<Timestamp>) returns (r: Result<Offers, Refusal>)
    ensures r.Ok? <==> "vast.image" in provider && !Refused(gpuAnswer) && !Refused(diskAnswer)
    ensures r.Ok? ==> r.value.query == ["rentable=true", "verified=true"] + Selected(gpuAnswer) + Selected(diskAnswer)
                                       + (if "vast.query" in provider then [provider["vast.query"]] else [])
    ensures r.Ok? ==> ["vastai", "create", "instance", "{offer_id}"] <= r.value.create
    ensures r.Ok? ==> InstanceOptions(r.value.create[|CREATE|..], provider["vast.image"], disk, ports, expiresAt)
    ensures r.Ok? && expiresAt.Some? ==>
              CarriesLease(OnlyValue(ValuesOf(r.value.create[|CREATE|..], INSTANCE_FLAGS, "--label")), INSTANCES,
                           expiresAt.value)
  {
    hide CarriesLease, ExpiryStamp, ValuesOf, InstanceOptions, Given;
    if "vast.image" !in provider {
      return Err(Incomplete);
    }
    if Refused(gpuAnswer) || Refused(diskAnswer) {
      return Err(Unmet);
    }
    var query := ["rentable=true", "verified=true"] + Selected(gpuAnswer) + Selected(diskAnswer);
    if "vast.query" in provider {
      query := query + [provider["vast.query"]];
    }
    var image := Some(provider["vast.image"]);
    var options := Given("--image", image) + ["--ssh"] + ["--direct"];
    options := options + Given("--disk", DiskWord(disk));
    options := options + Given("--env", PortsWord(ports));
    options := options + Given("--label", StampOfLease(expiresAt));
    options := options + ["--raw"];
    InstanceOptionsRead(options, provider["vast.image"], disk, ports, expiresAt);
    LabelRead(options, provider["vast.image"], disk, ports, expiresAt);
    assert (CREATE + options)[|CREATE|..] == options;
    return Ok(Offers(query, CREATE + options));
  }

  /** Each option's values are the one it was given. */
  ghost predicate InstanceOptions(options: seq<string>, image: string, disk: Option<Disk>, ports: seq<string>,
                                  expiresAt: Option<Timestamp>) {
    forall wanted: string :: ValuesOf(options, INSTANCE_FLAGS, wanted) ==
      OneValue("--image", Some(image), wanted) + OneValue("--disk", DiskWord(disk), wanted)
      + OneValue("--env", PortsWord(ports), wanted) + OneValue("--label", StampOfLease(expiresAt), wanted)
  }

  /** Option by option: the image, the disk, the ports and the lease, and no other. */
  lemma InstanceOptionsSay(options: seq<string>, image: string, disk: Option<Disk>, ports: seq<string>,
                           expiresAt: Option<Timestamp>, other: string)
    requires InstanceOptions(options, image, disk, ports, expiresAt)
    requires other !in {"--image", "--disk", "--env", "--label"}
    ensures ValuesOf(options, {"--ssh", "--direct", "--raw"}, "--image") == [image]
    ensures ValuesOf(options, {"--ssh", "--direct", "--raw"}, "--disk") ==
            if DiskWord(disk).Some? then [DiskWord(disk).value] else []
    ensures ValuesOf(options, {"--ssh", "--direct", "--raw"}, "--env") ==
            if ports != [] then [PortsWord(ports).value] else []
    ensures ValuesOf(options, {"--ssh", "--direct", "--raw"}, "--label") ==
            if expiresAt.Some? then [ExpiryStamp(expiresAt.value)] else []
    ensures ValuesOf(options, {"--ssh", "--direct", "--raw"}, other) == []
  {
    hide ValuesOf, DiskWord, ExpiryStamp;
  }

  lemma InstanceOptionsRead(options: seq<string>, image: string, disk: Option<Disk>, ports: seq<string>,
                            expiresAt: Option<Timestamp>)
    requires options == Given("--image", Some(image)) + ["--ssh"] + ["--direct"] + Given("--disk", DiskWord(disk))
                        + Given("--env", PortsWord(ports)) + Given("--label", StampOfLease(expiresAt)) + ["--raw"]
    ensures InstanceOptions(options, image, disk, ports, expiresAt)
  {
    hide Given, OneValue, ExpiryStamp, DiskWord, PortsWord;
    var d: seq<string> := ["--raw"] + [];
    var c := Given("--label", StampOfLease(expiresAt)) + d;
    var b := Given("--env", PortsWord(ports)) + c;
    var a := Given("--disk", DiskWord(disk)) + b;
    assert options == Given("--image", Some(image)) + (["--ssh"] + (["--direct"] + a));
    forall wanted: string
      ensures ValuesOf(options, INSTANCE_FLAGS, wanted) ==
              OneValue("--image", Some(image), wanted) + OneValue("--disk", DiskWord(disk), wanted)
              + OneValue("--env", PortsWord(ports), wanted) + OneValue("--label", StampOfLease(expiresAt), wanted)
    {
      FlagReads("--raw", [], INSTANCE_FLAGS, wanted);
      GivenReads("--label", StampOfLease(expiresAt), d, INSTANCE_FLAGS, wanted);
      GivenReads("--env", PortsWord(ports), c, INSTANCE_FLAGS, wanted);
      GivenReads("--disk", DiskWord(disk), b, INSTANCE_FLAGS, wanted);
      FlagReads("--direct", a, INSTANCE_FLAGS, wanted);
      FlagReads("--ssh", ["--direct"] + a, INSTANCE_FLAGS, wanted);
      GivenReads("--image", Some(image), ["--ssh"] + (["--direct"] + a), INSTANCE_FLAGS, wanted);
    }
  }

  lemma LabelRead(options: seq<string>, image: string, disk: Option<Disk>, ports: seq<string>,
                  expiresAt: Option<Timestamp>)
    requires InstanceOptions(options, image, disk, ports, expiresAt)
    ensures expiresAt.Some?
            ==> CarriesLease(OnlyValue(ValuesOf(options, INSTANCE_FLAGS, "--label")), INSTANCES, expiresAt.value)
  {
    hide CarriesLease, ExpiryStamp, ValuesOf, DiskWord, PortsWord;
    if expiresAt.Some? {
      StampCarriesLease(INSTANCES, expiresAt.value);
      assert ValuesOf(options, INSTANCE_FLAGS, "--label") == [] + [] + [] + [ExpiryStamp(expiresAt.value)];
    }
  }

  // ---- A managed deployment through its command line ----

  const ENDPOINTS := Fleet("id", "name", true, false, None, None)
  const ENDPOINT_FLAGS: set<string> := {"--json", "--non-interactive"}
  const SLOT := "together."

  predicate Known(field: string) {
    field in {"config", "min_replicas", "max_replicas", "inactive_timeout", "deployment_name"}
  }

  function In(provider: Provider, key: string): Option<string> {
    if key in provider then Some(provider[key]) else None
  }

  /** The replica count: this target's own slot, the shared one, or one. */
  function ReplicasOf(provider: Provider, own: string, common: string): string {
    if own in provider then provider[own] else if common in provider then provider[common] else "1"
  }

  function MinReplicas(provider: Provider): string {
    ReplicasOf(provider, "together.min_replicas", "deploy.min_replicas")
  }

  function MaxReplicas(provider: Provider): string {
    ReplicasOf(provider, "together.max_replicas", "deploy.max_replicas")
  }

  /** How many replicas are asked for: by this target's own slot, or else the shared one, or else one. */
  lemma ReplicasAskedFor(provider: Provider)
    ensures MinReplicas(provider) ==
            if "together.min_replicas" in provider then provider["together.min_replicas"]
            else if "deploy.min_replicas" in provider then provider["deploy.min_replicas"]
            else "1"
    ensures MaxReplicas(provider) ==
            if "together.max_replicas" in provider then provider["together.max_replicas"]
            else if "deploy.max_replicas" in provider then provider["deploy.max_replicas"]
            else "1"
  {
  }

  /** The slots this target reads. */
  lemma KnownSlotsAre(provider: Provider)
    ensures AllKnown(provider, provider.Keys) <==>
            forall field: string :: "together." + field in provider ==>
              field in {"config", "min_replicas", "max_replicas", "inactive_timeout", "deployment_name"}
  {
    if AllKnown(provider, provider.Keys) {
      forall field: string | "together." + field in provider
        ensures field in {"config", "min_replicas", "max_replicas", "inactive_timeout", "deployment_name"}
      {
        StripPrefixIs("together.", field);
        assert "together." + field in provider.Keys;
      }
    }
  }

  ghost predicate AllKnown(provider: Provider, keys: set<string>) {
    forall key :: key in keys && StripPrefix(key, SLOT).Some? ==> Known(StripPrefix(key, SLOT).value)
  }

  /** A service that is a model and nothing else. */
  predicate Plain(serving: Option<Serving>) {
    && serving.Some? && serving.value.model.Some? && serving.value.others == []
    && serving.value.dtype.None? && serving.value.extraArgs == []
  }

  function Deploy(model: string): seq<string> { ["tg", "beta", "endpoints", "deploy", model] }

  /** Each option's values are the one it was given. */
  ghost predicate EndpointOptions(options: seq<string>, provider: Provider, expiresAt: Option<Timestamp>) {
    forall wanted: string :: ValuesOf(options, ENDPOINT_FLAGS, wanted) ==
      OneValue("--endpoint", StampOfLease(expiresAt), wanted)
      + OneValue("--min-replicas", Some(MinReplicas(provider)), wanted)
      + OneValue("--max-replicas", Some(MaxReplicas(provider)), wanted)
      + OneValue("--config", In(provider, "together.config"), wanted)
      + OneValue("--inactive-timeout", In(provider, "together.inactive_timeout"), wanted)
      + OneValue("--deployment-name", In(provider, "together.deployment_name"), wanted)
  }

  /** Option by option: the lease and the replica counts, */
  lemma EndpointOptionsSay(options: seq<string>, provider: Provider, expiresAt: Option<Timestamp>)
    requires EndpointOptions(options, provider, expiresAt)
    ensures ValuesOf(options, {"--json", "--non-interactive"}, "--endpoint") ==
            if expiresAt.Some? then [ExpiryStamp(expiresAt.value)] else []
    ensures ValuesOf(options, {"--json", "--non-interactive"}, "--min-replicas") == [MinReplicas(provider)]
    ensures ValuesOf(options, {"--json", "--non-interactive"}, "--max-replicas") == [MaxReplicas(provider)]
  {
    hide ValuesOf, ExpiryStamp, MinReplicas, MaxReplicas, In;
  }

  /** and what the profile says under three slots of its own. */
  lemma EndpointSlotsSay(options: seq<string>, provider: Provider, expiresAt: Option<Timestamp>, slot: string,
                         option: string)
    requires EndpointOptions(options, provider, expiresAt)
    requires (slot, option) in {("together.config", "--config"), ("together.inactive_timeout", "--inactive-timeout"),
                                ("together.deployment_name", "--deployment-name")}
    ensures ValuesOf(options, {"--json", "--non-interactive"}, option) ==
            if slot in provider then [provider[slot]] else []
  {
    hide ValuesOf, StampOfLease, MinReplicas, MaxReplicas;
    assert option !in {"--endpoint", "--min-replicas", "--max-replicas"};
  }

  lemma EndpointOptionsRead(options: seq<string>, provider: Provider, expiresAt: Option<Timestamp>)
    requires options == Given("--endpoint", StampOfLease(expiresAt))
                        + Given("--min-replicas", Some(MinReplicas(provider)))
                        + Given("--max-replicas", Some(MaxReplicas(provider)))
                        + Given("--config", In(provider, "together.config"))
                        + Given("--inactive-timeout", In(provider, "together.inactive_timeout"))
                        + Given("--deployment-name", In(provider, "together.deployment_name")) + ["--json"]
                        + ["--non-interactive"]
    ensures EndpointOptions(options, provider, expiresAt)
  {
    hide Given, OneValue, ExpiryStamp, In, MinReplicas, MaxReplicas;
    var f: seq<string> := ["--non-interactive"] + [];
    var e := Given("--deployment-name", In(provider, "together.deployment_name")) + (["--json"] + f);
    var d := Given("--inactive-timeout", In(provider, "together.inactive_timeout")) + e;
    var c := Given("--config", In(provider, "together.config")) + d;
    var b := Given("--max-replicas", Some(MaxReplicas(provider))) + c;
    var a := Given("--min-replicas", Some(MinReplicas(provider))) + b;
    assert options == Given("--endpoint", StampOfLease(expiresAt)) + a;
    forall wanted: string
      ensures ValuesOf(options, ENDPOINT_FLAGS, wanted) ==
              OneValue("--endpoint", StampOfLease(expiresAt), wanted)
              + OneValue("--min-replicas", Some(MinReplicas(provider)), wanted)
              + OneValue("--max-replicas", Some(MaxReplicas(provider)), wanted)
              + OneValue("--config", In(provider, "together.config"), wanted)
              + OneValue("--inactive-timeout", In(provider, "together.inactive_timeout"), wanted)
              + OneValue("--deployment-name", In(provider, "together.deployment_name"), wanted)
    {
      FlagReads("--non-interactive", [], ENDPOINT_FLAGS, wanted);
      FlagReads("--json", f, ENDPOINT_FLAGS, wanted);
      GivenReads("--deployment-name", In(provider, "together.deployment_name"), ["--json"] + f, ENDPOINT_FLAGS, wanted);
      GivenReads("--inactive-timeout", In(provider, "together.inactive_timeout"), e, ENDPOINT_FLAGS, wanted);
      GivenReads("--config", In(provider, "together.config"), d, ENDPOINT_FLAGS, wanted);
      GivenReads("--max-replicas", Some(MaxReplicas(provider)), c, ENDPOINT_FLAGS, wanted);
      GivenReads("--min-replicas", Some(MinReplicas(provider)), b, ENDPOINT_FLAGS, wanted);
      GivenReads("--endpoint", StampOfLease(expiresAt), a, ENDPOINT_FLAGS, wanted);
    }
  }

  lemma EndpointRead(options: seq<string>, provider: Provider, expiresAt: Option<Timestamp>)
    requires EndpointOptions(options, provider, expiresAt)
    ensures expiresAt.Some?
            ==> CarriesLease(OnlyValue(ValuesOf(options, ENDPOINT_FLAGS, "--endpoint")), ENDPOINTS, expiresAt.value)
  {
    hide CarriesLease, ExpiryStamp, ValuesOf, In, MinReplicas, MaxReplicas;
    if expiresAt.Some? {
      StampCarriesLease(ENDPOINTS, expiresAt.value);
      assert ValuesOf(options, ENDPOINT_FLAGS, "--endpoint") == [ExpiryStamp(expiresAt.value)] + [] + [] + [] + [] + [];
    }
  }

  /** The one pass over the slots: refused at the first unknown one. */
  method KnownSlots(provider: Provider) returns (ok: bool)
    ensures ok <==> AllKnown(provider, provider.Keys)
  {
    var keys := Ascending(provider.Keys);
    var i := 0;
    while i < |keys|
      invariant 0 <= i <= |keys| && forall j :: 0 <= j < i && StripPrefix(keys[j], SLOT).Some? ==>
                                      Known(StripPrefix(keys[j], SLOT).value)
    {
      var field := StripPrefix(keys[i], SLOT);
      if field.Some? && !Known(field.value) {
        assert keys[i] in provider.Keys;
        return false;
      }
      i := i + 1;
    }
    return true;
  }

  /** The create's words. Refused exactly when the service is not a model and nothing else, an answer falls
      short, the deployment would be created stopped, or some slot is unknown. Of the
      options each has exactly the value it was given, so the endpoint's name is the lease whatever the
      profile's values spell. */
  method TogetherCreate(serving: Option<Serving>, provider: Provider, gpuAnswer: Option<Answer>,
                        diskAnswer: Option<Answer>,
                        expiresAt: Option<Timestamp>) returns (r: Result<seq<string>, Refusal>)
    ensures r.Ok? <==> && Plain(serving) && !Refused(gpuAnswer) && !Refused(diskAnswer)
                       && !(MinReplicas(provider) == "0" && MaxReplicas(provider) == "0")
                       && AllKnown(provider, provider.Keys)
    ensures r.Ok? ==> ["tg", "beta", "endpoints", "deploy", serving.value.model.value] <= r.value
    ensures r.Ok? ==> EndpointOptions(r.value[5..], provider, expiresAt)
    ensures r.Ok? && expiresAt.Some? ==>
              CarriesLease(OnlyValue(ValuesOf(r.value[5..], ENDPOINT_FLAGS, "--endpoint")), ENDPOINTS, expiresAt.value)
  {
    hide CarriesLease, ExpiryStamp, ValuesOf, EndpointOptions, Given, AllKnown, MinReplicas, MaxReplicas, In;
    if serving.None? {
      return Err(Incomplete);
    }
    if serving.value.model.None? {
      return Err(Incomplete);
    }
    if serving.value.others != [] || serving.value.dtype.Some? || serving.value.extraArgs != [] {
      return Err(Unmet);
    }
    if Refused(gpuAnswer) || Refused(diskAnswer) {
      return Err(Unmet);
    }
    if MinReplicas(provider) == "0" && MaxReplicas(provider) == "0" {
      return Err(Unmet);
    }
    var known := KnownSlots(provider);
    if !known {
      return Err(Unmet);
    }
    var options := Given("--endpoint", StampOfLease(expiresAt)) + Given("--min-replicas", Some(MinReplicas(provider)));
    options := options + Given("--max-replicas", Some(MaxReplicas(provider)));
    options := options + Given("--config", In(provider, "together.config"));
    options := options + Given("--inactive-timeout", In(provider, "together.inactive_timeout"));
    options := options + Given("--deployment-name", In(provider, "together.deployment_name"));
    options := options + ["--json"] + ["--non-interactive"];
    EndpointOptionsRead(options, provider, expiresAt);
    EndpointRead(options, provider, expiresAt);
    var argv := Deploy(serving.value.model.value) + options;
    assert argv[5..] == options;
    return Ok(argv);
  }

  // ---- What is created is listed ----

  /** A row that lists an instance reads as that machine under its label, and one that lists an endpoint as that
      machine under its name past the account's; neither is asked for it again. */
  lemma CreatedIsListed(id: string, account: string, text: string)
    requires text != "" && '/' !in text
    ensures Machines(Arr([Obj(map["id" := Str(id), "label" := Str(account + "/" + text)])]), INSTANCES) ==
            Ok([Machine(id, Some(account + "/" + text))])
    ensures Machines(Arr([Obj(map["id" := Str(id), "name" := Str(account + "/" + text)])]), ENDPOINTS) ==
            Ok([Machine(id, Some(text))])
    ensures !INSTANCES.stampFromInspect && !ENDPOINTS.stampFromInspect
  {
    var whole := account + "/" + text;
    PlainRowReads(map["id" := Str(id), "label" := Str(whole)], INSTANCES, id, whole, whole);
    AfterLastIs(account, '/', text);
    PlainRowReads(map["id" := Str(id), "name" := Str(whole)], ENDPOINTS, id, whole, text);
  }
}
