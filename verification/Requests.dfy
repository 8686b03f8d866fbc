/** The requests that create machines, and the lease each of them carries. A platform lists back what it
    was sent, under the account's name where it adds one; read off that row, the lease is the lease. */
module Requests {
  import opened Wrappers
  import opened Text
  import opened Lease
  import opened Json
  import opened Fleets
  import opened Listing

  type Provider = map<string, string>

  /** Why a request is not rendered: something the profile must say, or something this target cannot do. */
  datatype Refusal = Incomplete | Unmet

  /** What an adapter said of a requirement. */
  datatype Answer = Met(using: seq<string>) | NotMet | NotExamined

  predicate Refused(answer: Option<Answer>) { answer.Some? && !answer.value.Met? }

  /** What an answer selects; nothing, when there is none or it falls short. */
  function Selected(answer: Option<Answer>): seq<string> {
    if answer.Some? && answer.value.Met? then answer.value.using else []
  }

  /** An answer that falls short selects nothing and refuses; one that does not selects what it uses; where
      none was asked for there is nothing to refuse. */
  lemma AnswersSay(using: seq<string>)
    ensures !Refused(None) && Selected(None) == []
    ensures !Refused(Some(Met(using))) && Selected(Some(Met(using))) == using
    ensures Refused(Some(NotMet)) && Selected(Some(NotMet)) == []
    ensures Refused(Some(NotExamined)) && Selected(Some(NotExamined)) == []
  {
  }

  datatype Disk = Disk(ephemeralGb: Option<U32>, persistentGb: Option<U32>, persistentAt: Option<string>)

  datatype Serving = Serving(
    engine: string,
    model: Option<string>,
    dtype: Option<string>,
    extraArgs: seq<string>,
    tensorParallel: Option<nat>,
    others: seq<string>)

  type U32 = n: int | 0 <= n < 0x1_0000_0000 witness 0

  // ---- What is listed back ----

  /** The row carries what was written, as the platform spells it. */
  predicate ListsBack(row: Json, written: string, fleet: Fleet, account: string) {
    AsStr(JsonPath(row, fleet.stamp)) == Some(if fleet.stampNamespaced then account + "/" + written else written)
  }

  function LeaseRead(row: Json, fleet: Fleet): Option<Timestamp> {
    match StampOf(row, fleet)
    case None => None
    case Some(stamp) => ExpiryOf(stamp)
  }

  /** A lease as a machine can carry it: to the second, and from year 0 on. */
  function AsCarried(lease: Timestamp): Option<Timestamp> {
    if CivilOf(SecondOf(lease)).date.year >= 0 then Some(Truncated(lease)) else None
  }

  /** Whatever row the platform lists the machine back in, the lease read off it is the lease. */
  ghost predicate CarriesLease(written: Option<string>, fleet: Fleet, lease: Timestamp) {
    && written.Some?
    && forall row, account | ListsBack(row, written.value, fleet, account) :: LeaseRead(row, fleet) == AsCarried(lease)
  }

  lemma StampIsOneWord(lease: Timestamp)
    ensures ExpiryStamp(lease) != "" && '/' !in ExpiryStamp(lease)
  {
    YearsFitFourDigits(SecondOf(lease));
    hide CivilOf, Padded;
  }

  lemma StampCarriesLease(fleet: Fleet, lease: Timestamp)
    ensures CarriesLease(Some(ExpiryStamp(lease)), fleet, lease)
  {
    hide ExpiryStamp, ExpiryOf, CivilOf, JsonPath;
    var stamp := ExpiryStamp(lease);
    StampIsOneWord(lease);
    StampRoundTrip(lease);
    forall row, account | ListsBack(row, stamp, fleet, account)
      ensures LeaseRead(row, fleet) == AsCarried(lease)
    {
      if fleet.stampNamespaced {
        AfterLastIs(account, '/', stamp);
      }
    }
  }

  // ---- What the profile says, over what was derived ----

  /** Fields, with those a profile addresses under a prefix over them. */
  ghost predicate Overlaid(after: map<string, Json>, before: map<string, Json>, provider: Provider, done: set<string>,
                           prefix: string, takes: string -> bool, worth: string -> Json) {
    forall f: string :: Overlay(f, after, before, provider, done, prefix, takes, worth)
  }

  predicate Given(provider: Provider, done: set<string>, prefix: string, takes: string -> bool, f: string) {
    prefix + f in provider && prefix + f in done && takes(f)
  }

  predicate Overlay(f: string, after: map<string, Json>, before: map<string, Json>, provider: Provider,
                    done: set<string>, prefix: string, takes: string -> bool, worth: string -> Json) {
    if Given(provider, done, prefix, takes, f) then f in after && after[f] == worth(provider[prefix + f])
    else (f in after <==> f in before) && (f in after ==> after[f] == before[f])
  }

  function Inserted(fields: map<string, Json>, key: string, provider: Provider, prefix: string, takes: string -> bool,
                    worth: string -> Json): map<string, Json>
    requires key in provider
  {
    match StripPrefix(key, prefix)
    case None => fields
    case Some(f) => if takes(f) then fields[f := worth(provider[key])] else fields
  }

  lemma OneMoreKey(after: map<string, Json>, before: map<string, Json>, provider: Provider, done: set<string>,
                   prefix: string, takes: string -> bool, worth: string -> Json, key: string)
    requires Overlaid(after, before, provider, done, prefix, takes, worth) && key in provider && key !in done
    ensures Overlaid(Inserted(after, key, provider, prefix, takes, worth), before, provider, done + {key}, prefix,
                     takes, worth)
  {
    var inserted := Inserted(after, key, provider, prefix, takes, worth);
    forall f: string
      ensures Overlay(f, inserted, before, provider, done + {key}, prefix, takes, worth)
    {
      assert Overlay(f, after, before, provider, done, prefix, takes, worth);
      if prefix + f == key {
        StripPrefixIs(prefix, f);
      } else if StripPrefix(key, prefix).Some? {
        assert key == prefix + StripPrefix(key, prefix).value;
      }
    }
  }

  /** The profile's own words for a target, verbatim and over the fields derived before. */
  method PassThrough(derived: map<string, Json>, provider: Provider, prefix: string, takes: string -> bool,
                     worth: string -> Json)
    returns (body: map<string, Json>)
    ensures Overlaid(body, derived, provider, provider.Keys, prefix, takes, worth)
  {
    body := derived;
    var keys := Ascending(provider.Keys);
    ghost var done := {};
    var i := 0;
    while i < |keys|
      invariant 0 <= i <= |keys|
      invariant forall key :: key in done <==> key in keys[..i]
      invariant Overlaid(body, derived, provider, done, prefix, takes, worth)
    {
      var key := keys[i];
      OneMoreKey(body, derived, provider, done, prefix, takes, worth, key);
      body := Inserted(body, key, provider, prefix, takes, worth);
      done := done + {key};
      i := i + 1;
    }
    assert keys[..i] == keys;
    assert done == provider.Keys;
  }

  function Anything(f: string): bool { true }

  function AsText(value: string): Json { Str(value) }

  function Field(fields: map<string, Json>, key: string): Option<Json> {
    if key in fields then Some(fields[key]) else None
  }

  /** A field is `value` under `key`, if there is one, and otherwise what it was. */
  function Or(f: string, key: string, value: Option<Json>, rest: Option<Json>): Option<Json> {
    if f == key && value.Some? then value else rest
  }

  /** Inserted, when there is something to insert. */
  function WithSome(fields: map<string, Json>, key: string, value: Option<Json>): (r: map<string, Json>)
    ensures forall f: string :: Field(r, f) == Or(f, key, value, Field(fields, f))
  {
    if value.Some? then fields[key := value.value] else fields
  }

  function AsNumber(n: U32): Json { Num(Whole(n)) }

  function AsTexts(texts: seq<string>): (r: Json)
    ensures r.Arr? && |r.items| == |texts| && forall i :: 0 <= i < |texts| ==> r.items[i] == Str(texts[i])
  {
    Arr(seq(|texts|, i requires 0 <= i < |texts| => Str(texts[i])))
  }

  /** The lease, inserted last. */
  function Stamped(fields: map<string, Json>, key: string, expiresAt: Option<Timestamp>): map<string, Json> {
    WithSome(fields, key, LeaseText(expiresAt))
  }

  function LeaseText(expiresAt: Option<Timestamp>): Option<Json> {
    if expiresAt.Some? then Some(Str(ExpiryStamp(expiresAt.value))) else None
  }

  /** What a request carries where the platform's listing carries the stamp. */
  function Written(body: Json, fleet: Fleet): Option<string> { AsStr(JsonPath(body, fleet.stamp)) }

  lemma OneLevel(fields: map<string, Json>, key: string)
    requires '.' !in key
    ensures JsonPath(Obj(fields), key) == Field(fields, key)
  {
    assert Split(key, '.') == [key] && [key][1..] == [];
    if key in fields {
      assert Walk(fields[key], []) == Some(fields[key]);
    }
  }

  /** A row that carries its id and its stamp as fields of its own reads as that machine, or has ended. */
  lemma RowReads(fields: map<string, Json>, fleet: Fleet, id: string, text: string, own: string)
    requires '.' !in fleet.id && '.' !in fleet.stamp
    requires Field(fields, fleet.id) == Some(Str(id)) && Field(fields, fleet.stamp) == Some(Str(text))
    requires own == (if fleet.stampNamespaced then AfterLast(text, '/') else text) && own != ""
    ensures Machines(Arr([Obj(fields)]), fleet) ==
            Ok(if RowEnded(Obj(fields), fleet) then [] else [Machine(id, Some(own))])
  {
    hide AfterLast, JsonPath;
    OneLevel(fields, fleet.id);
    OneLevel(fields, fleet.stamp);
    OneRowIs(Obj(fields), fleet, Machine(id, Some(own)));
  }

  lemma OneRowIs(row: Json, fleet: Fleet, m: Machine)
    requires ReadRow(row, fleet) == Some(m)
    ensures Machines(Arr([row]), fleet) == Ok(if RowEnded(row, fleet) then [] else [m])
  {
    hide RowEnded, ReadRow;
    assert [row][1..] == [];
    if !RowEnded(row, fleet) {
      assert LiveRows([row], fleet) == [row];
      assert ReadRows([row], fleet) == [m] + ReadRows([], fleet) == [m];
    }
  }

  lemma PlainRowReads(fields: map<string, Json>, fleet: Fleet, id: string, text: string, own: string)
    requires '.' !in fleet.id && '.' !in fleet.stamp && fleet.ended.None?
    requires Field(fields, fleet.id) == Some(Str(id)) && Field(fields, fleet.stamp) == Some(Str(text))
    requires own == (if fleet.stampNamespaced then AfterLast(text, '/') else text) && own != ""
    ensures Machines(Arr([Obj(fields)]), fleet) == Ok([Machine(id, Some(own))])
  {
    hide AfterLast;
    RowReads(fields, fleet, id, text, own);
  }

  lemma StampedCarriesLease(fields: map<string, Json>, fleet: Fleet, lease: Timestamp)
    requires '.' !in fleet.stamp
    ensures CarriesLease(Written(Obj(Stamped(fields, fleet.stamp, Some(lease))), fleet), fleet, lease)
  {
    hide CarriesLease, ExpiryStamp;
    OneLevel(Stamped(fields, fleet.stamp, Some(lease)), fleet.stamp);
    StampCarriesLease(fleet, lease);
  }

  /** What a field holds: the profile's word, or else what was derived. */
  function Over(provider: Provider, prefix: string, takes: string -> bool, worth: string -> Json, f: string,
                derived: Option<Json>): Option<Json> {
    if prefix + f in provider && takes(f) then Some(worth(provider[prefix + f])) else derived
  }

  lemma OverlaidIs(after: map<string, Json>, before: map<string, Json>, provider: Provider, prefix: string,
                   takes: string -> bool, worth: string -> Json)
    requires Overlaid(after, before, provider, provider.Keys, prefix, takes, worth)
    ensures forall f: string :: Field(after, f) == Over(provider, prefix, takes, worth, f, Field(before, f))
  {
    forall f: string
      ensures Field(after, f) == Over(provider, prefix, takes, worth, f, Field(before, f))
    {
      assert Overlay(f, after, before, provider, provider.Keys, prefix, takes, worth);
    }
  }

  // ---- A managed pod service ----

  const RUNPOD := Fleet("id", "name", false, false, None, None)
  const RUNPOD_PREFIX := "runpod."

  function Sized(gb: Option<U32>): Option<Json> { if gb.Some? then Some(AsNumber(gb.value)) else None }

  function Placed(path: Option<string>): Option<Json> { if path.Some? then Some(Str(path.value)) else None }

  function Compute(gpu: Option<U32>): Option<Json> {
    if gpu.Some? then Some(Str(if gpu.value == 0 then "CPU" else "GPU")) else None
  }

  function Counted(gpu: Option<U32>): Option<Json> {
    if gpu.Some? && gpu.value > 0 then Some(AsNumber(gpu.value)) else None
  }

  function Listed(texts: seq<string>): Option<Json> { if texts != [] then Some(AsTexts(texts)) else None }

  /** What the requirements derive for one field of a pod's body. */
  function PodField(f: string, image: string, ports: seq<string>, gpu: Option<U32>, selected: seq<string>,
                    disk: Option<Disk>): Option<Json> {
    var models := if gpu.Some? && gpu.value > 0 then Listed(selected) else None;
    var size := if disk.Some? then disk.value else Disk(None, None, None);
    Or(f, "volumeMountPath", Placed(size.persistentAt), Or(f, "volumeInGb", Sized(size.persistentGb),
    Or(f, "containerDiskInGb", Sized(size.ephemeralGb), Or(f, "gpuTypeIds", models, Or(f, "gpuCount", Counted(gpu),
    Or(f, "computeType", Compute(gpu), Or(f, "ports", Listed(ports), Or(f, "imageName", Some(Str(image)), None))))))))
  }

  /** A pod's body, field by field: the lease; the profile's own word; or what the requirements say of the
      image, the ports, the device, its count and its models, and the disk and its volume. */
  lemma PodSays(f: string, provider: Provider, image: string, ports: seq<string>, gpu: Option<U32>,
                selected: seq<string>, disk: Option<Disk>, expiresAt: Option<Timestamp>)
    ensures Or(f, "name", LeaseText(expiresAt),
               Over(provider, RUNPOD_PREFIX, Anything, AsText, f, PodField(f, image, ports, gpu, selected, disk))) ==
            if f == "name" && expiresAt.Some? then Some(Str(ExpiryStamp(expiresAt.value)))
            else if "runpod." + f in provider then Some(Str(provider["runpod." + f]))
            else if f == "imageName" then Some(Str(image))
            else if f == "ports" then if ports == [] then None else Some(AsTexts(ports))
            else if f == "computeType" then
              match gpu case None => None case Some(n) => Some(Str(if n == 0 then "CPU" else "GPU"))
            else if f == "gpuCount" then
              if gpu.Some? && gpu.value != 0 then Some(Num(Whole(gpu.value))) else None
            else if f == "gpuTypeIds" then
              if gpu.Some? && gpu.value != 0 && selected != [] then Some(AsTexts(selected)) else None
            else if disk.None? then None
            else if f == "containerDiskInGb" && disk.value.ephemeralGb.Some? then
              Some(Num(Whole(disk.value.ephemeralGb.value)))
            else if f == "volumeInGb" && disk.value.persistentGb.Some? then
              Some(Num(Whole(disk.value.persistentGb.value)))
            else if f == "volumeMountPath" && disk.value.persistentAt.Some? then
              Some(Str(disk.value.persistentAt.value))
            else None
  {
    hide ExpiryStamp;
  }

  /** The fields the requirements derive, one after another. */
  method PodDerived(image: string, ports: seq<string>, gpu: Option<U32>, gpuAnswer: Option<Answer>, disk: Option<Disk>,
                    diskAnswer: Option<Answer>)
    returns (r: Result<map<string, Json>, Refusal>)
    ensures r.Ok? <==> !(gpu.Some? && gpu.value > 0 && Refused(gpuAnswer)) && !(disk.Some? && Refused(diskAnswer))
    ensures r.Ok? ==> forall f: string :: Field(r.value, f) == PodField(f, image, ports, gpu, Selected(gpuAnswer), disk)
  {
    hide Field, Or, WithSome, Listed, Compute, Counted, Placed, Sized;
    var body := WithSome(map[], "imageName", Some(Str(image)));
    assert forall f: string :: Field(map[], f) == None by { NoFields(); }
    body := WithSome(body, "ports", Listed(ports));
    body := WithSome(body, "computeType", Compute(gpu));
    body := WithSome(body, "gpuCount", Counted(gpu));
    if gpu.Some? && gpu.value > 0 && Refused(gpuAnswer) {
      return Err(Unmet);
    }
    body := WithSome(body, "gpuTypeIds", if gpu.Some? && gpu.value > 0 then Listed(Selected(gpuAnswer)) else None);
    if disk.Some? && Refused(diskAnswer) {
      return Err(Unmet);
    }
    var size := if disk.Some? then disk.value else Disk(None, None, None);
    body := WithSome(body, "containerDiskInGb", Sized(size.ephemeralGb));
    body := WithSome(body, "volumeInGb", Sized(size.persistentGb));
    body := WithSome(body, "volumeMountPath", Placed(size.persistentAt));
    return Ok(body);
  }

  lemma NoFields()
    ensures forall f: string :: Field(map[], f) == None
  {
  }

  /** A pod's body: refused exactly when the image is not named or an answer that is asked for falls
      short; field by field the lease, then the profile's word, then what was derived. */
  method RunpodBody(gpu: Option<U32>, disk: Option<Disk>, provider: Provider, ports: seq<string>,
                    gpuAnswer: Option<Answer>, diskAnswer: Option<Answer>, expiresAt: Option<Timestamp>)
    returns (r: Result<map<string, Json>, Refusal>)
    ensures r.Ok? <==> && "runpod.imageName" in provider
                       && !(gpu.Some? && gpu.value > 0 && Refused(gpuAnswer))
                       && !(disk.Some? && Refused(diskAnswer))
    ensures r.Ok? && expiresAt.Some? ==> CarriesLease(Written(Obj(r.value), RUNPOD), RUNPOD, expiresAt.value)
    ensures r.Ok? ==> forall f: string :: Field(r.value, f) == Or(f, "name", LeaseText(expiresAt),
                Over(provider, RUNPOD_PREFIX, Anything, AsText, f,
                     PodField(f, provider["runpod.imageName"], ports, gpu, Selected(gpuAnswer), disk)))
  {
    hide CarriesLease, Written, PodField, ExpiryStamp;
    if "runpod.imageName" !in provider {
      return Err(Incomplete);
    }
    var derived := PodDerived(provider["runpod.imageName"], ports, gpu, gpuAnswer, disk, diskAnswer);
    if derived.Err? {
      return derived;
    }
    var body := PassThrough(derived.value, provider, RUNPOD_PREFIX, Anything, AsText);
    OverlaidIs(body, derived.value, provider, RUNPOD_PREFIX, Anything, AsText);
    if expiresAt.Some? {
      StampedCarriesLease(body, RUNPOD, expiresAt.value);
    }
    return Ok(Stamped(body, "name", expiresAt));
  }

  // ---- A container service ----

  const CONTAINERS := Fleet("id", "name", false, false, None, None)
  const CONTAINERS_PREFIX := "deepinfra."

  /** Every slot is forwarded but the authorized key's. */
  function NotTheKey(f: string): bool { f != "ssh_authorized_key" }

  function FirstOf(selected: seq<string>): Option<Json> { if selected != [] then Some(Str(selected[0])) else None }

  function KeyOf(provider: Provider): Option<string> {
    if "deepinfra.ssh_authorized_key" in provider then Some(provider["deepinfra.ssh_authorized_key"]) else None
  }

  /** What a container's body says before the profile does. */
  function ContainerField(f: string, image: string, selected: seq<string>, cloudInit: Option<Json>): Option<Json> {
    Or(f, "cloud_init_user_data", cloudInit,
       Or(f, "gpu_config", FirstOf(selected), Or(f, "container_image", Some(Str(image)), None)))
  }

  function CloudInit(provider: Provider, document: string -> string): Option<Json> {
    var key := KeyOf(provider);
    if key.Some? then Some(Str(document(key.value))) else None
  }

  function ContainerSays(provider: Provider, f: string, image: string, selected: seq<string>,
                         cloudInit: Option<Json>): Option<Json> {
    Over(provider, CONTAINERS_PREFIX, NotTheKey, AsText, f, ContainerField(f, image, selected, cloudInit))
  }

  /** A container's body, field by field: the lease; the profile's own word, the authorized key's aside; a
      cloud-init document of that key; the first device selected; the image. */
  lemma ContainerBodySays(f: string, provider: Provider, image: string, selected: seq<string>,
                          document: string -> string, expiresAt: Option<Timestamp>)
    ensures Or(f, "name", LeaseText(expiresAt),
               ContainerSays(provider, f, image, selected, CloudInit(provider, document))) ==
            if f == "name" && expiresAt.Some? then Some(Str(ExpiryStamp(expiresAt.value)))
            else if "deepinfra." + f in provider && f != "ssh_authorized_key" then Some(Str(provider["deepinfra." + f]))
            else if f == "cloud_init_user_data" && "deepinfra.ssh_authorized_key" in provider then
              Some(Str(document(provider["deepinfra.ssh_authorized_key"])))
            else if f == "gpu_config" && selected != [] then Some(Str(selected[0]))
            else if f == "container_image" then Some(Str(image))
            else None
  {
    hide ExpiryStamp;
  }

  lemma ContainerKeys(provider: Provider, image: string, selected: seq<string>)
    ensures ContainerSays(provider, "gpu_config", image, selected, None).Some?
            <==> selected != [] || "deepinfra.gpu_config" in provider
    ensures ContainerSays(provider, "cloud_init_user_data", image, selected, None).Some?
            <==> "deepinfra.cloud_init_user_data" in provider
  {
    assert CONTAINERS_PREFIX + "gpu_config" == "deepinfra.gpu_config";
    assert CONTAINERS_PREFIX + "cloud_init_user_data" == "deepinfra.cloud_init_user_data";
  }

  lemma NotGivenIsDerived(provider: Provider, prefix: string, takes: string -> bool, worth: string -> Json, f: string,
                          key: string, value: Option<Json>, rest: Option<Json>)
    ensures Over(provider, prefix, takes, worth, f, Or(f, key, value, rest)) ==
            if prefix + key in provider && takes(key) then Over(provider, prefix, takes, worth, f, rest)
            else Or(f, key, value, Over(provider, prefix, takes, worth, f, rest))
  {
  }

  /** A document built from the key is there exactly when the profile wrote none. */
  lemma CloudInitIsDerived(provider: Provider, f: string, image: string, selected: seq<string>, cloudInit: Option<Json>)
    ensures ContainerSays(provider, f, image, selected, cloudInit) ==
            if ContainerSays(provider, "cloud_init_user_data", image, selected, None).Some?
            then ContainerSays(provider, f, image, selected, None)
            else Or(f, "cloud_init_user_data", cloudInit, ContainerSays(provider, f, image, selected, None))
  {
    ContainerKeys(provider, image, selected);
    NotTheKeyIsNot();
    var rest := Or(f, "gpu_config", FirstOf(selected), Or(f, "container_image", Some(Str(image)), None));
    hide Over, FirstOf, NotTheKey;
    assert Or(f, "cloud_init_user_data", None, rest) == rest;
    NotGivenIsDerived(provider, CONTAINERS_PREFIX, NotTheKey, AsText, f, "cloud_init_user_data", cloudInit, rest);
    hide Or;
  }

  lemma NotTheKeyIsNot()
    ensures CONTAINERS_PREFIX + "cloud_init_user_data" == "deepinfra.cloud_init_user_data"
            && NotTheKey("cloud_init_user_data")
  {
  }

  /** What is derived from the answers, and the profile's word over it. */
  method ContainerGiven(provider: Provider, image: string, selected: seq<string>) returns (body: map<string, Json>)
    ensures forall f: string :: Field(body, f) == ContainerSays(provider, f, image, selected, None)
  {
    hide Field, Over, WithSome, FirstOf;
    NoFields();
    var derived := WithSome(map[], "container_image", Some(Str(image)));
    derived := WithSome(derived, "gpu_config", FirstOf(selected));
    body := PassThrough(derived, provider, CONTAINERS_PREFIX, NotTheKey, AsText);
    OverlaidIs(body, derived, provider, CONTAINERS_PREFIX, NotTheKey, AsText);
  }

  /** Refused when nothing says a device or a way in. */
  method ContainerSaid(provider: Provider, image: string, selected: seq<string>, document: string -> string)
    returns (r: Result<map<string, Json>, Refusal>)
    ensures r.Ok? <==> && (selected != [] || "deepinfra.gpu_config" in provider)
                       && ("deepinfra.cloud_init_user_data" in provider || KeyOf(provider).Some?)
    ensures r.Ok? ==>
              forall f: string ::
                Field(r.value, f) == ContainerSays(provider, f, image, selected, CloudInit(provider, document))
  {
    hide WithSome, ContainerSays, Or, Field;
    var body := ContainerGiven(provider, image, selected);
    ContainerKeys(provider, image, selected);
    if Field(body, "gpu_config").None? {
      return Err(Incomplete);
    }
    if Field(body, "cloud_init_user_data").None? {
      if KeyOf(provider).None? {
        return Err(Incomplete);
      }
      body := WithSome(body, "cloud_init_user_data", CloudInit(provider, document));
    }
    forall f: string
      ensures Field(body, f) == ContainerSays(provider, f, image, selected, CloudInit(provider, document))
    {
      CloudInitIsDerived(provider, f, image, selected, CloudInit(provider, document));
    }
    return Ok(body);
  }

  /** A container's body: refused exactly when the image, a device or a way in is not named, or an answer
      falls short; field by field the lease, then the profile's word, then what was derived. What the
      cloud-init document says of the key is a parameter. */
  method ContainerBody(provider: Provider, gpuAnswer: Option<Answer>, diskAnswer: Option<Answer>,
                       expiresAt: Option<Timestamp>, document: string -> string)
    returns (r: Result<map<string, Json>, Refusal>)
    ensures r.Ok? <==> && "deepinfra.container_image" in provider && !Refused(gpuAnswer) && !Refused(diskAnswer)
                       && (Selected(gpuAnswer) != [] || "deepinfra.gpu_config" in provider)
                       && ("deepinfra.cloud_init_user_data" in provider || KeyOf(provider).Some?)
    ensures r.Ok? && expiresAt.Some? ==> CarriesLease(Written(Obj(r.value), CONTAINERS), CONTAINERS, expiresAt.value)
    ensures r.Ok? ==> forall f: string :: Field(r.value, f) == Or(f, "name", LeaseText(expiresAt),
                ContainerSays(provider, f, provider["deepinfra.container_image"], Selected(gpuAnswer),
                              CloudInit(provider, document)))
  {
    hide CarriesLease, Written, WithSome, ContainerSays, LeaseText, Or, Field;
    if "deepinfra.container_image" !in provider {
      return Err(Incomplete);
    }
    if Refused(gpuAnswer) || Refused(diskAnswer) {
      return Err(Unmet);
    }
    var said := ContainerSaid(provider, provider["deepinfra.container_image"], Selected(gpuAnswer), document);
    if said.Err? {
      return said;
    }
    if expiresAt.Some? {
      StampedCarriesLease(said.value, CONTAINERS, expiresAt.value);
    }
    return Ok(Stamped(said.value, "name", expiresAt));
  }

  // ---- What is created is listed ----

  /** A row that lists a pod or a container reads as that machine under the name it has, which is the stamp it
      was created with; neither is asked for its name again. */
  lemma CreatedIsListed(id: string, text: string)
    requires text != ""
    ensures var row := Obj(map["id" := Str(id), "name" := Str(text)]);
            && Machines(Arr([row]), RUNPOD) == Ok([Machine(id, Some(text))])
            && Machines(Arr([row]), CONTAINERS) == Ok([Machine(id, Some(text))])
    ensures !RUNPOD.stampFromInspect && !CONTAINERS.stampFromInspect
  {
    PlainRowReads(map["id" := Str(id), "name" := Str(text)], RUNPOD, id, text, text);
    PlainRowReads(map["id" := Str(id), "name" := Str(text)], CONTAINERS, id, text, text);
  }
}
