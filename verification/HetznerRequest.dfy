/** The request that creates a server: an allowlist of slots read into typed fields, and the lease as one
    of the server's labels. */
module HetznerRequest {
  import opened Wrappers
  import opened Text
  import opened Lease
  import opened Json
  import opened Fleets
  import opened Listing
  import opened Requests
  import DeployRequest

  const LEASE_LABEL := "lmp-exp"
  const SERVERS := Fleet("id", "labels.lmp-exp", false, false, Some(("status", {"deleting"})),
                         Some("meta.pagination.next_page"))

  const SLOT := "hetzner."
  const LABELS := "labels."

  // ---- Comma-separated values ----

  /** `char::is_whitespace`. */
  predicate IsSpace(c: char) {
    || '\U{9}' <= c <= '\U{D}' || c == ' ' || c == '\U{85}' || c == '\U{A0}' || c == '\U{1680}'
    || '\U{2000}' <= c <= '\U{200A}'
    || c == '\U{2028}' || c == '\U{2029}' || c == '\U{202F}' || c == '\U{205F}' || c == '\U{3000}'
  }

  function Trim(s: string): string
    decreases |s|
  {
    if s == "" then s
    else if IsSpace(s[0]) then Trim(s[1..])
    else if IsSpace(s[|s| - 1]) then Trim(s[..|s| - 1])
    else s
  }

  /** Trimmed entries, the empty ones dropped. */
  function Entries(parts: seq<string>): seq<string> {
    if parts == [] then []
    else (if Trim(parts[0]) == "" then [] else [Trim(parts[0])]) + Entries(parts[1..])
  }

  function CommaList(value: string): seq<string> { Entries(Split(value, ',')) }

  /** Integer ids, all of them or none. */
  function Ids(entries: seq<string>): Option<seq<Integer>> {
    if entries == [] then Some([])
    else match (DeployRequest.ParseI64(entries[0]), Ids(entries[1..]))
      case (Some(id), Some(rest)) => Some([id] + rest)
      case _ => None
  }

  // ---- The slots ----

  datatype Create = Create(
    name: Option<string>,
    serverType: Option<string>,
    image: Option<string>,
    location: Option<string>,
    datacenter: Option<string>,
    userData: Option<string>,
    sshKeys: Option<seq<string>>,
    firewalls: seq<Integer>,
    labels: map<string, string>)

  const NOTHING := Create(None, None, None, None, None, None, None, [], map[])

  /** One slot read into its field; `None` refuses a slot that has none, or an id that is not one. */
  function ReadSlot(c: Create, field: string, value: string): Option<Create> {
    if field == "server_type" then Some(c.(serverType := Some(value)))
    else if field == "image" then Some(c.(image := Some(value)))
    else if field == "location" then Some(c.(location := Some(value)))
    else if field == "datacenter" then Some(c.(datacenter := Some(value)))
    else if field == "user_data" then Some(c.(userData := Some(value)))
    else if field == "name" then Some(c.(name := Some(value)))
    else if field == "ssh_keys" then Some(c.(sshKeys := Some(CommaList(value))))
    else if field == "firewalls" then
      var ids := Ids(CommaList(value));
      if ids.None? then None else Some(c.(firewalls := c.firewalls + ids.value))
    else
      var name := StripPrefix(field, LABELS);
      if name.None? || name.value == "" then None else Some(c.(labels := c.labels[name.value := value]))
  }

  /** Exactly the slots this target reads. */
  predicate Takes(field: string, value: string) {
    if field in {"server_type", "image", "location", "datacenter", "user_data", "name", "ssh_keys"} then true
    else if field == "firewalls" then Ids(CommaList(value)).Some?
    else LABELS < field
  }

  lemma ReadExactly(c: Create, field: string, value: string)
    ensures ReadSlot(c, field, value).Some? <==> Takes(field, value)
  {
    hide Ids, CommaList;
    if StripPrefix(field, LABELS).Some? {
      assert field == LABELS + StripPrefix(field, LABELS).value;
    }
  }

  /** What the profile says under a slot, among the keys read so far. */
  function At(provider: Provider, done: set<string>, field: string): Option<string> {
    if SLOT + field in provider && SLOT + field in done then Some(provider[SLOT + field]) else None
  }

  function FirewallsAt(value: Option<string>): seq<Integer> {
    if value.Some? && Ids(CommaList(value.value)).Some? then Ids(CommaList(value.value)).value else []
  }

  function KeysAt(value: Option<string>): Option<seq<string>> {
    if value.Some? then Some(CommaList(value.value)) else None
  }

  /** The labels the profile names, all of them and no other. */
  ghost predicate LabelsRead(labels: map<string, string>, provider: Provider, done: set<string>) {
    forall name: string ::
      (if name in labels then Some(labels[name]) else None)
      == if name == "" then None else At(provider, done, LABELS + name)
  }

  /** Every field holds what its slot says. */
  ghost predicate Reads(c: Create, provider: Provider, done: set<string>) {
    && c.name == At(provider, done, "name") && c.serverType == At(provider, done, "server_type")
    && c.image == At(provider, done, "image") && c.location == At(provider, done, "location")
    && c.datacenter == At(provider, done, "datacenter") && c.userData == At(provider, done, "user_data")
    && c.sshKeys == KeysAt(At(provider, done, "ssh_keys"))
    && c.firewalls == FirewallsAt(At(provider, done, "firewalls"))
    && LabelsRead(c.labels, provider, done)
  }

  lemma AtMore(provider: Provider, done: set<string>, key: string, field: string)
    requires key in provider
    ensures At(provider, done + {key}, field) ==
            if StripPrefix(key, SLOT) == Some(field) then Some(provider[key]) else At(provider, done, field)
  {
    if SLOT + field == key {
      StripPrefixIs(SLOT, field);
    }
  }

  lemma FieldsApart(field: string)
    ensures LABELS <= field ==>
              && field != "server_type" && field != "image" && field != "location" && field != "datacenter"
              && field != "user_data" && field != "name" && field != "ssh_keys" && field != "firewalls"
  {
    if LABELS <= field {
      assert field[1] == 'a' && field[0] == 'l';
    }
  }

  lemma LabelsMore(labels: map<string, string>, provider: Provider, done: set<string>, key: string, field: string)
    requires LabelsRead(labels, provider, done) && key in provider && StripPrefix(key, SLOT) == Some(field)
    ensures var name := StripPrefix(field, LABELS);
            LabelsRead(if name.Some? && name.value != "" then labels[name.value := provider[key]] else labels,
                       provider, done + {key})
  {
    var stripped := StripPrefix(field, LABELS);
    var after := if stripped.Some? && stripped.value != "" then labels[stripped.value := provider[key]] else labels;
    forall name: string
      ensures (if name in after then Some(after[name]) else None) ==
              if name == "" then None else At(provider, done + {key}, LABELS + name)
    {
      AtMore(provider, done, key, LABELS + name);
      if LABELS + name == field {
        StripPrefixIs(LABELS, name);
      }
      assert (if name in labels then Some(labels[name]) else None)
          == if name == "" then None else At(provider, done, LABELS + name);
    }
  }

  lemma OtherKeyLabels(labels: map<string, string>, provider: Provider, done: set<string>, key: string)
    requires LabelsRead(labels, provider, done) && key in provider && StripPrefix(key, SLOT).None?
    ensures LabelsRead(labels, provider, done + {key})
  {
    hide At, StripPrefix;
    forall name: string
      ensures (if name in labels then Some(labels[name]) else None)
              == if name == "" then None else At(provider, done + {key}, LABELS + name)
    {
      AtMore(provider, done, key, LABELS + name);
      assert (if name in labels then Some(labels[name]) else None)
          == if name == "" then None else At(provider, done, LABELS + name);
    }
  }

  lemma OtherKey(c: Create, provider: Provider, done: set<string>, key: string)
    requires Reads(c, provider, done) && key in provider && StripPrefix(key, SLOT).None?
    ensures Reads(c, provider, done + {key})
  {
    hide At, StripPrefix, LabelsRead, KeysAt, FirewallsAt;
    AtMore(provider, done, key, "name");
    AtMore(provider, done, key, "server_type");
    AtMore(provider, done, key, "image");
    AtMore(provider, done, key, "location");
    AtMore(provider, done, key, "datacenter");
    AtMore(provider, done, key, "user_data");
    AtMore(provider, done, key, "ssh_keys");
    AtMore(provider, done, key, "firewalls");
    OtherKeyLabels(c.labels, provider, done, key);
  }

  lemma OneMoreSlot(c: Create, provider: Provider, done: set<string>, key: string, field: string)
    requires Reads(c, provider, done) && key in provider && key !in done
    requires StripPrefix(key, SLOT) == Some(field) && ReadSlot(c, field, provider[key]).Some?
    ensures Reads(ReadSlot(c, field, provider[key]).value, provider, done + {key})
  {
    hide At, StripPrefix, Ids, CommaList, LabelsRead;
    AtMore(provider, done, key, "name");
    AtMore(provider, done, key, "server_type");
    AtMore(provider, done, key, "image");
    AtMore(provider, done, key, "location");
    AtMore(provider, done, key, "datacenter");
    AtMore(provider, done, key, "user_data");
    AtMore(provider, done, key, "ssh_keys");
    AtMore(provider, done, key, "firewalls");
    LabelsMore(c.labels, provider, done, key, field);
    FieldsApart(field);
    NotYet(provider, done, key, field);
    assert StripPrefix(field, LABELS).Some? ==> LABELS <= field;
    assert FirewallsAt(None) == [];
    var ids := FirewallsAt(Some(provider[key]));
    assert [] + ids == ids;
  }

  lemma NotYet(provider: Provider, done: set<string>, key: string, field: string)
    requires key !in done && StripPrefix(key, SLOT) == Some(field)
    ensures At(provider, done, field) == None
  {
  }

  /** Every slot of the profile is one this target reads. */
  ghost predicate AllTaken(provider: Provider, done: set<string>) {
    forall field: string :: At(provider, done, field).Some? ==> Takes(field, At(provider, done, field).value)
  }

  lemma OneMoreTaken(provider: Provider, done: set<string>, key: string)
    requires AllTaken(provider, done) && key in provider
    requires StripPrefix(key, SLOT).Some? ==> Takes(StripPrefix(key, SLOT).value, provider[key])
    ensures AllTaken(provider, done + {key})
  {
    hide At, Takes, StripPrefix;
    forall field: string | At(provider, done + {key}, field).Some?
      ensures Takes(field, At(provider, done + {key}, field).value)
    {
      AtMore(provider, done, key, field);
    }
  }

  /** The one pass over the slots: refused at the first this target does not read. */
  method ReadSlots(provider: Provider) returns (r: Option<Create>)
    ensures r.Some? <==> AllTaken(provider, provider.Keys)
    ensures r.Some? ==> Reads(r.value, provider, provider.Keys)
  {
    hide ReadSlot, Takes, Reads, AllTaken;
    var c := NOTHING;
    NothingRead(provider);
    var keys := Ascending(provider.Keys);
    ghost var done := {};
    var i := 0;
    while i < |keys|
      invariant 0 <= i <= |keys| && forall key :: key in done <==> key in keys[..i]
      invariant Reads(c, provider, done) && AllTaken(provider, done)
    {
      var key := keys[i];
      var field := StripPrefix(key, SLOT);
      if field.Some? {
        ReadExactly(c, field.value, provider[key]);
        var read := ReadSlot(c, field.value, provider[key]);
        if read.None? {
          NotTaken(provider, key);
          return None;
        }
        OneMoreSlot(c, provider, done, key, field.value);
        c := read.value;
      } else {
        OtherKey(c, provider, done, key);
      }
      OneMoreTaken(provider, done, key);
      done := done + {key};
      i := i + 1;
    }
    assert keys[..i] == keys && done == provider.Keys;
    return Some(c);
  }

  lemma NotTaken(provider: Provider, key: string)
    requires key in provider && StripPrefix(key, SLOT).Some? && !Takes(StripPrefix(key, SLOT).value, provider[key])
    ensures !AllTaken(provider, provider.Keys)
  {
    hide Takes;
    assert At(provider, provider.Keys, StripPrefix(key, SLOT).value) == Some(provider[key]);
  }

  lemma NothingRead(provider: Provider)
    ensures Reads(NOTHING, provider, {}) && AllTaken(provider, {})
  {
  }

  // ---- The request ----

  function Texts(labels: map<string, string>): map<string, Json> { map name | name in labels :: Str(labels[name]) }

  /** The request as it is sent: no field for what is not stated. */
  function Encoded(c: Create): Json {
    var named := WithSome(map[], "name", Placed(c.name));
    var typed := WithSome(WithSome(named, "server_type", Placed(c.serverType)), "image", Placed(c.image));
    var placed := WithSome(WithSome(typed, "location", Placed(c.location)), "datacenter", Placed(c.datacenter));
    var keyed := WithSome(WithSome(placed, "user_data", Placed(c.userData)), "ssh_keys",
                          if c.sshKeys.Some? then Some(AsTexts(c.sshKeys.value)) else None);
    var walled := WithSome(keyed, "firewalls", Walls(c.firewalls));
    Obj(WithSome(walled, "labels", if c.labels == map[] then None else Some(Obj(Texts(c.labels)))))
  }

  /** The request, field by field: each thing stated under its own name, and nothing else. */
  lemma EncodedSays(c: Create, f: string)
    ensures Encoded(c).Obj?
    ensures Field(Encoded(c).fields, f) ==
            if f == "name" && c.name.Some? then Some(Str(c.name.value))
            else if f == "server_type" && c.serverType.Some? then Some(Str(c.serverType.value))
            else if f == "image" && c.image.Some? then Some(Str(c.image.value))
            else if f == "location" && c.location.Some? then Some(Str(c.location.value))
            else if f == "datacenter" && c.datacenter.Some? then Some(Str(c.datacenter.value))
            else if f == "user_data" && c.userData.Some? then Some(Str(c.userData.value))
            else if f == "ssh_keys" && c.sshKeys.Some? then Some(AsTexts(c.sshKeys.value))
            else if f == "firewalls" && c.firewalls != [] then Walls(c.firewalls)
            else if f == "labels" && c.labels != map[] then Some(Obj(Texts(c.labels)))
            else None
    ensures c.firewalls != [] ==>
              && Walls(c.firewalls).Some? && Walls(c.firewalls).value.Arr?
              && |Walls(c.firewalls).value.items| == |c.firewalls|
              && forall i :: 0 <= i < |c.firewalls| ==>
                   Walls(c.firewalls).value.items[i] == Obj(map["firewall" := Num(Whole(c.firewalls[i]))])
    ensures Texts(c.labels).Keys == c.labels.Keys
            && forall name :: name in c.labels ==> Texts(c.labels)[name] == Str(c.labels[name])
  {
    assert Field(map[], f) == None;
  }

  /** What each field was read from. */
  lemma SlotsSay(c: Create, provider: Provider)
    requires Reads(c, provider, provider.Keys)
    ensures c.name == Slot(provider, "hetzner.name") && c.serverType == Slot(provider, "hetzner.server_type")
    ensures c.image == Slot(provider, "hetzner.image") && c.location == Slot(provider, "hetzner.location")
    ensures c.datacenter == Slot(provider, "hetzner.datacenter") && c.userData == Slot(provider, "hetzner.user_data")
    ensures "hetzner.ssh_keys" in provider ==> c.sshKeys == Some(CommaList(provider["hetzner.ssh_keys"]))
    ensures "hetzner.ssh_keys" !in provider ==> c.sshKeys == None
    ensures "hetzner.firewalls" in provider && Ids(CommaList(provider["hetzner.firewalls"])).Some? ==>
              c.firewalls == Ids(CommaList(provider["hetzner.firewalls"])).value
    ensures "hetzner.firewalls" !in provider ==> c.firewalls == []
  {
    hide CommaList, Ids, LabelsRead;
    assert SLOT + "name" == "hetzner.name" && SLOT + "server_type" == "hetzner.server_type";
    assert SLOT + "image" == "hetzner.image" && SLOT + "location" == "hetzner.location";
    assert SLOT + "datacenter" == "hetzner.datacenter" && SLOT + "user_data" == "hetzner.user_data";
    assert SLOT + "ssh_keys" == "hetzner.ssh_keys" && SLOT + "firewalls" == "hetzner.firewalls";
  }

  lemma LabelsSay(c: Create, provider: Provider, name: string)
    requires Reads(c, provider, provider.Keys)
    ensures name in c.labels <==> name != "" && "hetzner.labels." + name in provider
    ensures name in c.labels ==> c.labels[name] == provider["hetzner.labels." + name]
  {
    hide CommaList, Ids, FirewallsAt, KeysAt;
    assert SLOT + (LABELS + name) == "hetzner.labels." + name;
    assert (if name in c.labels then Some(c.labels[name]) else None)
        == if name == "" then None else At(provider, provider.Keys, LABELS + name);
  }

  ghost function Slot(provider: Provider, key: string): Option<string> {
    if key in provider then Some(provider[key]) else None
  }

  function Walls(ids: seq<Integer>): Option<Json> {
    if ids == [] then None
    else Some(Arr(seq(|ids|, i requires 0 <= i < |ids| => Obj(map["firewall" := Num(Whole(ids[i]))]))))
  }

  /** A lease in the label map, whatever else the map holds, is the lease the listing reads. */
  lemma LabelCarriesLease(c: Create, lease: Timestamp)
    requires LEASE_LABEL in c.labels && c.labels[LEASE_LABEL] == ExpiryStamp(lease)
    ensures CarriesLease(Written(Encoded(c), SERVERS), SERVERS, lease)
  {
    hide CarriesLease, ExpiryStamp;
    var labels := Texts(c.labels);
    assert Get(Encoded(c), "labels") == Some(Obj(labels));
    LabelIsRead(Encoded(c), labels);
    StampCarriesLease(SERVERS, lease);
  }

  lemma TwoLevels(body: Json, outer: string, inner: string, labels: map<string, Json>)
    requires '.' !in outer && '.' !in inner && Get(body, outer) == Some(Obj(labels)) && body.Obj?
    ensures JsonPath(body, outer + "." + inner) == Field(labels, inner)
  {
    SplitOnceIs(outer + "." + inner, '.', outer, inner);
    assert Split(inner, '.') == [inner];
    WalkTwo(body, outer, inner, labels);
    assert Split(outer + "." + inner, '.') == [outer] + [inner];
  }

  lemma WalkTwo(body: Json, outer: string, inner: string, labels: map<string, Json>)
    requires Get(body, outer) == Some(Obj(labels))
    ensures Walk(body, [outer] + [inner]) == Field(labels, inner)
  {
    assert [inner][1..] == [];
    assert ([outer] + [inner])[1..] == [inner];
    assert Walk(Obj(labels), [inner]) == Field(labels, inner) by {
      if inner in labels {
        assert Walk(labels[inner], []) == Some(labels[inner]);
      }
    }
  }

  lemma LabelIsRead(body: Json, labels: map<string, Json>)
    requires body.Obj? && Get(body, "labels") == Some(Obj(labels))
    ensures JsonPath(body, SERVERS.stamp) == Field(labels, LEASE_LABEL)
  {
    hide JsonPath;
    assert SERVERS.stamp == "labels" + "." + LEASE_LABEL;
    TwoLevels(body, "labels", LEASE_LABEL, labels);
  }

  /** `str::to_ascii_lowercase`. */
  function Lowered(s: string): (r: string)
    ensures |r| == |s|
    ensures forall i :: 0 <= i < |s| ==>
              if 'A' <= s[i] <= 'Z' then r[i] as int == s[i] as int + ('a' as int - 'A' as int) else r[i] == s[i]
  {
    if s == "" then ""
    else [if 'A' <= s[0] <= 'Z' then (s[0] as int + 32) as char else s[0]] + Lowered(s[1..])
  }

  /** The lease as a label, over any the profile wrote under the same name. */
  function Labelled(labels: map<string, string>, expiresAt: Option<Timestamp>): map<string, string> {
    if expiresAt.Some? then labels[LEASE_LABEL := ExpiryStamp(expiresAt.value)] else labels
  }

  function NameOr(name: Option<string>, expiresAt: Option<Timestamp>): Option<string> {
    if name.Some? then name else if expiresAt.Some? then Some(Lowered(ExpiryStamp(expiresAt.value))) else None
  }

  /** A server's request. Refused exactly when an answer falls short, some slot is outside the allowlist,
      the type, the image or the keys are not named, or two placements are. What is sent is what the
      slots say, the lease among the labels, and the lease as the name when the profile gives none. */
  method ServerBody(provider: Provider, gpuAnswer: Option<Answer>, diskAnswer: Option<Answer>,
                    expiresAt: Option<Timestamp>)
    returns (r: Result<Create, Refusal>, ghost said: Create)
    ensures r.Ok? <==> && !Refused(gpuAnswer) && !Refused(diskAnswer) && AllTaken(provider, provider.Keys)
                       && At(provider, provider.Keys, "server_type").Some? && At(provider, provider.Keys, "image").Some?
                       && KeysAt(At(provider, provider.Keys, "ssh_keys")) !in {None, Some([])}
                       && !(At(provider, provider.Keys, "location").Some?
                            && At(provider, provider.Keys, "datacenter").Some?)
    ensures r.Ok? && expiresAt.Some? ==> CarriesLease(Written(Encoded(r.value), SERVERS), SERVERS, expiresAt.value)
    ensures r.Ok? ==> && Reads(said, provider, provider.Keys)
                      && r.value == said.(labels := Labelled(said.labels, expiresAt),
                                          name := NameOr(said.name, expiresAt))
    ensures r.Ok? && expiresAt.Some? ==>
              && r.value.labels == said.labels["lmp-exp" := ExpiryStamp(expiresAt.value)]
              && r.value.name == if said.name.Some? then said.name else Some(Lowered(ExpiryStamp(expiresAt.value)))
    ensures r.Ok? && expiresAt.None? ==> r.value == said
  {
    hide CarriesLease, Written, Encoded, ExpiryStamp, LabelsRead, AllTaken, At, CommaList, FirewallsAt;
    said := NOTHING;
    if Refused(gpuAnswer) || Refused(diskAnswer) {
      return Err(Unmet), said;
    }
    var read := ReadSlots(provider);
    if read.None? {
      return Err(Unmet), said;
    }
    var create := read.value;
    said := create;
    if create.serverType.None? || create.image.None? || create.sshKeys.None? {
      return Err(Incomplete), said;
    }
    if create.sshKeys.value == [] {
      return Err(Incomplete), said;
    }
    if create.location.Some? && create.datacenter.Some? {
      return Err(Unmet), said;
    }
    create := create.(labels := Labelled(create.labels, expiresAt));
    create := create.(name := NameOr(create.name, expiresAt));
    if expiresAt.Some? {
      LabelCarriesLease(create, expiresAt.value);
    }
    return Ok(create), said;
  }

  // ---- Lists and listings ----

  /** A comma-separated value is its pieces, trimmed, the empty ones dropped. */
  lemma PiecesAre(piece: string, rest: string)
    requires ',' !in piece
    ensures CommaList(piece) == if Trim(piece) == "" then [] else [Trim(piece)]
    ensures CommaList(piece + "," + rest) == (if Trim(piece) == "" then [] else [Trim(piece)]) + CommaList(rest)
  {
    hide Trim;
    SplitOnceIs(piece + "," + rest, ',', piece, rest);
    assert Split(piece, ',') == [piece] && [piece][1..] == [];
    var parts := Split(piece + "," + rest, ',');
    assert parts == [piece] + Split(rest, ',') && parts[1..] == Split(rest, ',');
  }

  ghost predicate AllSpace(s: string) { forall i :: 0 <= i < |s| ==> IsSpace(s[i]) }

  /** Trimmed text is what is left between the white space around it. */
  lemma {:induction false} TrimmedIs(s: string) returns (left: string, right: string)
    ensures s == left + Trim(s) + right && AllSpace(left) && AllSpace(right)
    ensures Trim(s) != "" ==> !IsSpace(Trim(s)[0]) && !IsSpace(Trim(s)[|Trim(s)| - 1])
    decreases |s|
  {
    hide IsSpace;
    left, right := "", "";
    if s != "" && IsSpace(s[0]) {
      assert Trim(s) == Trim(s[1..]);
      hide Trim;
      left, right := TrimmedIs(s[1..]);
      assert s == [s[0]] + s[1..];
      left := [s[0]] + left;
    } else if s != "" && IsSpace(s[|s| - 1]) {
      var n := |s| - 1;
      assert Trim(s) == Trim(s[..n]);
      hide Trim;
      left, right := TrimmedIs(s[..n]);
      assert s == s[..n] + [s[n]];
      right := right + [s[n]];
    }
  }

  /** Integer ids are read one by one, and one that is not an integer leaves none. */
  lemma IdsAre(entries: seq<string>)
    ensures Ids(entries).Some? <==> forall i :: 0 <= i < |entries| ==> DeployRequest.ParseI64(entries[i]).Some?
    ensures Ids(entries).Some? ==>
              && |Ids(entries).value| == |entries|
              && forall i :: 0 <= i < |entries| ==> DeployRequest.ParseI64(entries[i]) == Some(Ids(entries).value[i])
  {
    if entries != [] {
      IdsAre(entries[1..]);
    }
  }

  /** A row that lists a server reads as that machine under its lease label, unless it is being deleted; it is not
      asked for its label again, and a page names the next under `meta.pagination.next_page`. */
  lemma CreatedIsListed(id: string, text: string, status: string)
    requires text != ""
    ensures var row := Obj(map["id" := Str(id), "status" := Str(status), "labels" := Obj(map["lmp-exp" := Str(text)])]);
            Machines(Arr([row]), SERVERS) == Ok(if status == "deleting" then [] else [Machine(id, Some(text))])
    ensures !SERVERS.stampFromInspect && SERVERS.nextPage == Some("meta.pagination.next_page")
  {
    hide JsonPath;
    var labels := map["lmp-exp" := Str(text)];
    var fields := map["id" := Str(id), "status" := Str(status), "labels" := Obj(labels)];
    OneLevel(fields, "id");
    LabelIsRead(Obj(fields), labels);
    assert ReadRow(Obj(fields), SERVERS) == Some(Machine(id, Some(text)));
    OneRowIs(Obj(fields), SERVERS, Machine(id, Some(text)));
    assert RowEnded(Obj(fields), SERVERS) <==> status == "deleting";
  }

  /** The characters trimmed are the White_Space ones of the Unicode Character Database. */
  lemma SpacesAre(c: char)
    ensures IsSpace(c) <==>
            c as int in {0x9, 0xA, 0xB, 0xC, 0xD, 0x20, 0x85, 0xA0, 0x1680, 0x2000, 0x2001, 0x2002, 0x2003, 0x2004,
                         0x2005, 0x2006, 0x2007, 0x2008, 0x2009, 0x200A, 0x2028, 0x2029, 0x202F, 0x205F, 0x3000}
  {
  }
}
