/** The request that deploys a model on a managed service: three objects the profile addresses by dotted
    slots, and the lease over them. */
module DeployRequest {
  import opened Wrappers
  import opened Text
  import opened Lease
  import opened Json
  import opened Fleets
  import opened Listing
  import opened Requests

  const DEPLOYMENTS := Fleet("deploy_id", "model_name", true, false, Some(("status", {"failed", "deleted"})), None)

  const SLOT := "deepinfra-deploy."
  const HF := "hf"
  const SETTINGS := "settings"

  // ---- A slot's value as a number, a truth value or text ----

  function Magnitude(digits: string): Option<nat> {
    if digits != "" && AllDigits(digits) then Some(Spelled(digits)) else None
  }

  function Signed(negative: bool, magnitude: int): int { if negative then -magnitude else magnitude }

  /** `str::parse::<i64>`. */
  function ParseI64(text: string): (r: Option<Integer>)
    ensures r.Some? ==> -0x8000_0000_0000_0000 <= r.value < 0x8000_0000_0000_0000
  {
    var negative := "-" <= text;
    match Magnitude(if negative || "+" <= text then text[1..] else text)
    case None => None
    case Some(n) =>
      var value := Signed(negative, n);
      if -0x8000_0000_0000_0000 <= value < 0x8000_0000_0000_0000 then Some(value) else None
  }

  function Scalar(value: string): Json {
    match ParseI64(value)
    case Some(n) => Num(Whole(n))
    case None => if value == "true" then Bool(true) else if value == "false" then Bool(false) else Str(value)
  }

  /** Text that starts like no number and is no truth value is spelled by itself alone. */
  lemma TextSpellsItself(value: string, text: string)
    requires text != "" && text[0] !in "0123456789+-tf"
    ensures Scalar(value) == Str(text) <==> value == text
  {
    if value == text {
      assert !("-" <= text) && !("+" <= text) && !IsDigit(text[0]);
      assert Magnitude(text) == None;
      assert text != "true" && text != "false" by { assert "true"[0] == 't' && "false"[0] == 'f'; }
    }
  }

  lemma StampStartsWithTheMark(lease: Timestamp)
    ensures EXPIRY_PREFIX <= ExpiryStamp(lease) && ExpiryStamp(lease) != "" && ExpiryStamp(lease)[0] == 'l'
  {
    YearsFitFourDigits(SecondOf(lease));
    hide Padded;
  }

  // ---- Where a slot lands ----

  predicate NotTheToken(inner: string) { inner != "token_env" }

  /** A slot that is a field of the body itself: not one of `hf.` or `settings.`. */
  predicate IsTop(field: string) {
    match SplitOnce(field, '.')
    case None => true
    case Some((head, _)) => head != HF && head != SETTINGS
  }

  /** Stripping `head.` is splitting at the first dot, when there is none in `head`. */
  lemma HeadIsAPrefix(field: string, head: string)
    requires '.' !in head
    ensures StripPrefix(field, head + ".") ==
            match SplitOnce(field, '.')
            case Some((h, inner)) => if h == head then Some(inner) else None
            case None => None
  {
    match StripPrefix(field, head + ".") {
      case Some(inner) =>
        SplitOnceIs(field, '.', head, inner);
      case None =>
    }
  }

  lemma NestedPrefix(key: string, head: string)
    ensures StripPrefix(key, SLOT + head) ==
            match StripPrefix(key, SLOT) case Some(field) => StripPrefix(field, head) case None => None
  {
    match StripPrefix(key, SLOT) {
      case Some(field) =>
        match StripPrefix(field, head) {
          case Some(inner) =>
            assert key == (SLOT + head) + inner;
            StripPrefixIs(SLOT + head, inner);
          case None =>
        }
      case None =>
    }
  }

  const HF_SLOT := SLOT + (HF + ".")
  const SETTINGS_SLOT := SLOT + (SETTINGS + ".")
  const TOKEN_SLOT := HF_SLOT + "token_env"

  /** The three objects a slot may land in. */
  datatype Objects = Objects(body: map<string, Json>, hf: map<string, Json>, settings: map<string, Json>)

  ghost predicate Says(after: Objects, before: Objects, provider: Provider, done: set<string>) {
    && Overlaid(after.body, before.body, provider, done, SLOT, IsTop, Scalar)
    && Overlaid(after.hf, before.hf, provider, done, HF_SLOT, NotTheToken, Scalar)
    && Overlaid(after.settings, before.settings, provider, done, SETTINGS_SLOT, Anything, Scalar)
  }

  /** One slot's value, put where the slot says. */
  function Landed(o: Objects, field: string, value: Json): Objects {
    match SplitOnce(field, '.')
    case Some((head, inner)) =>
      if head == HF then (if inner == "token_env" then o else o.(hf := o.hf[inner := value]))
      else if head == SETTINGS then o.(settings := o.settings[inner := value])
      else o.(body := o.body[field := value])
    case None => o.(body := o.body[field := value])
  }

  function LandedKey(o: Objects, key: string, provider: Provider): Objects
    requires key in provider
  {
    match StripPrefix(key, SLOT)
    case None => o
    case Some(field) => Landed(o, field, Scalar(provider[key]))
  }

  lemma LandsOnce(o: Objects, key: string, provider: Provider)
    requires key in provider
    ensures LandedKey(o, key, provider).body == Inserted(o.body, key, provider, SLOT, IsTop, Scalar)
    ensures LandedKey(o, key, provider).hf == Inserted(o.hf, key, provider, HF_SLOT, NotTheToken, Scalar)
    ensures LandedKey(o, key, provider).settings == Inserted(o.settings, key, provider, SETTINGS_SLOT, Anything, Scalar)
  {
    hide Scalar, SplitOnce, StripPrefix;
    assert HF != SETTINGS && '.' !in HF && '.' !in SETTINGS;
    NestedPrefix(key, HF + ".");
    NestedPrefix(key, SETTINGS + ".");
    if StripPrefix(key, SLOT).Some? {
      HeadIsAPrefix(StripPrefix(key, SLOT).value, HF);
      HeadIsAPrefix(StripPrefix(key, SLOT).value, SETTINGS);
    }
  }

  lemma OneMoreSlot(after: Objects, before: Objects, provider: Provider, done: set<string>, key: string)
    requires Says(after, before, provider, done) && key in provider && key !in done
    ensures Says(LandedKey(after, key, provider), before, provider, done + {key})
  {
    hide Overlaid, Inserted, LandedKey;
    LandsOnce(after, key, provider);
    OneMoreKey(after.body, before.body, provider, done, SLOT, IsTop, Scalar, key);
    OneMoreKey(after.hf, before.hf, provider, done, HF_SLOT, NotTheToken, Scalar, key);
    OneMoreKey(after.settings, before.settings, provider, done, SETTINGS_SLOT, Anything, Scalar, key);
  }

  /** Every slot of the profile, each where it lands. */
  method LandSlots(before: Objects, provider: Provider) returns (o: Objects)
    ensures Says(o, before, provider, provider.Keys)
  {
    hide Overlaid, LandedKey;
    o := before;
    NothingSaid(before, provider);
    var keys := Ascending(provider.Keys);
    ghost var done := {};
    var i := 0;
    while i < |keys|
      invariant 0 <= i <= |keys| && forall key :: key in done <==> key in keys[..i]
      invariant Says(o, before, provider, done)
    {
      OneMoreSlot(o, before, provider, done, keys[i]);
      o := LandedKey(o, keys[i], provider);
      done := done + {keys[i]};
      i := i + 1;
    }
    assert keys[..i] == keys && done == provider.Keys;
  }

  lemma NothingSaid(before: Objects, provider: Provider)
    ensures Says(before, before, provider, {})
  {
  }

  // ---- The request ----

  function MaxReplicas(provider: Provider): Option<Json> { Replicas(provider, "deploy.max_replicas") }

  function Replicas(provider: Provider, key: string): Option<Json> {
    if key in provider then Some(Scalar(provider[key])) else None
  }

  /** The engine's arguments. */
  function Arguments(serving: Serving): seq<string> {
    (if serving.dtype.Some? then ["--dtype", serving.dtype.value] else []) + serving.extraArgs
  }

  /** The placeholder a token's variable is filled into. */
  function TokenText(variable: string): string { "{{" + variable + ":json}}" }

  function Token(provider: Provider): Option<Json> {
    if TOKEN_SLOT in provider then Some(Str(TokenText(provider[TOKEN_SLOT]))) else None
  }

  /** What the requirements derive for a field of the body. */
  function BodyField(f: string, serving: Serving, gpu: Option<U32>, selected: seq<string>): Option<Json> {
    Or(f, "extra_args", Listed(Arguments(serving)),
    Or(f, "num_gpus", Sized(gpu), Or(f, "gpu", FirstOf(selected), None)))
  }

  function SettingsField(f: string, provider: Provider): Option<Json> {
    Or(f, "max_instances", MaxReplicas(provider),
       Or(f, "min_instances", Replicas(provider, "deploy.min_replicas"), None))
  }

  /** The two objects inside a request: what the profile says of each, over what was derived. */
  ghost predicate Inner(hf: map<string, Json>, settings: map<string, Json>, provider: Provider, model: string) {
    && (forall f: string :: Field(hf, f) == Or(f, "token", Token(provider),
          Over(provider, HF_SLOT, NotTheToken, Scalar, f, Or(f, "repo", Some(Str(model)), None))))
    && (forall f: string :: Field(settings, f)
          == Over(provider, SETTINGS_SLOT, Anything, Scalar, f, SettingsField(f, provider)))
  }

  /** What a top-level field holds before the lease: the two objects, the profile's word, what was derived. */
  function TopField(f: string, hf: map<string, Json>, settings: map<string, Json>, provider: Provider, serving: Serving,
                    gpu: Option<U32>, selected: seq<string>): Option<Json> {
    Or(f, SETTINGS, if settings != map[] then Some(Obj(settings)) else None, Or(f, HF, Some(Obj(hf)),
       Over(provider, SLOT, IsTop, Scalar, f, BodyField(f, serving, gpu, selected))))
  }

  /** A service this target runs as it was declared. */
  predicate Runs(serving: Option<Serving>, gpu: Option<U32>) {
    && serving.Some? && serving.value.engine == "vllm" && serving.value.others == [] && serving.value.model.Some?
    && !(serving.value.tensorParallel.Some? && gpu.Some? && serving.value.tensorParallel.value != gpu.value)
  }

  /** The fields derived before the profile is read. */
  method Derived(serving: Serving, model: string, gpu: Option<U32>, selected: seq<string>, provider: Provider)
    returns (o: Objects)
    ensures forall f: string :: Field(o.body, f) == BodyField(f, serving, gpu, selected)
    ensures forall f: string :: Field(o.hf, f) == Or(f, "repo", Some(Str(model)), None)
    ensures forall f: string :: Field(o.settings, f) == SettingsField(f, provider)
  {
    hide Field, Or, WithSome, FirstOf, Sized, Listed, Replicas, MaxReplicas;
    NoFields();
    var hf := WithSome(map[], "repo", Some(Str(model)));
    var settings := WithSome(map[], "min_instances", Replicas(provider, "deploy.min_replicas"));
    settings := WithSome(settings, "max_instances", MaxReplicas(provider));
    var body := WithSome(map[], "gpu", FirstOf(selected));
    body := WithSome(body, "num_gpus", Sized(gpu));
    body := WithSome(body, "extra_args", Listed(Arguments(serving)));
    o := Objects(body, hf, settings);
  }

  /** Everything but the lease. */
  method Assembled(serving: Serving, model: string, gpu: Option<U32>, selected: seq<string>, provider: Provider)
    returns (body: map<string, Json>, ghost hf: map<string, Json>, ghost settings: map<string, Json>)
    ensures Inner(hf, settings, provider, model)
    ensures forall f: string :: Field(body, f) == TopField(f, hf, settings, provider, serving, gpu, selected)
  {
    hide Field, Or, WithSome, BodyField, SettingsField, Over, Token;
    var derived := Derived(serving, model, gpu, selected, provider);
    var said := LandSlots(derived, provider);
    OverlaidIs(said.body, derived.body, provider, SLOT, IsTop, Scalar);
    OverlaidIs(said.hf, derived.hf, provider, HF_SLOT, NotTheToken, Scalar);
    OverlaidIs(said.settings, derived.settings, provider, SETTINGS_SLOT, Anything, Scalar);
    var withToken := WithSome(said.hf, "token", Token(provider));
    body := WithSome(said.body, HF, Some(Obj(withToken)));
    body := WithSome(body, SETTINGS, if said.settings != map[] then Some(Obj(said.settings)) else None);
    hf, settings := withToken, said.settings;
  }

  lemma ADeviceIsNamed(hf: map<string, Json>, settings: map<string, Json>, provider: Provider, serving: Serving,
                       gpu: Option<U32>, selected: seq<string>)
    ensures TopField("gpu", hf, settings, provider, serving, gpu, selected).Some?
            <==> selected != [] || SLOT + "gpu" in provider
  {
    hide Scalar;
    assert "gpu" != HF && "gpu" != SETTINGS;
  }

  /** The request sent: every field of the body, and of the two objects inside it. */
  ghost predicate Sent(body: map<string, Json>, hf: map<string, Json>, settings: map<string, Json>, provider: Provider,
                       serving: Serving, model: string, gpu: Option<U32>, selected: seq<string>,
                       expiresAt: Option<Timestamp>) {
    && Inner(hf, settings, provider, model)
    && forall f: string ::
         Field(body, f)
         == Or(f, "model_name", LeaseText(expiresAt), TopField(f, hf, settings, provider, serving, gpu, selected))
  }

  /** The body that deploys a model. Refused exactly when the service is not one this target runs as
      declared, an answer falls short, or no device is named. Field by field: the lease, the two
      objects, the profile's word, and what was derived. */
  method DeployBody(serving: Option<Serving>, gpu: Option<U32>, provider: Provider, gpuAnswer: Option<Answer>,
                    diskAnswer: Option<Answer>, expiresAt: Option<Timestamp>)
    returns (r: Result<(map<string, Json>, Option<string>), Refusal>, ghost hf: map<string, Json>,
             ghost settings: map<string, Json>)
    ensures r.Ok? <==> && Runs(serving, gpu) && !Refused(gpuAnswer) && !Refused(diskAnswer)
                       && (Selected(gpuAnswer) != [] || SLOT + "gpu" in provider)
    ensures r.Ok? && expiresAt.Some?
            ==> CarriesLease(Written(Obj(r.value.0), DEPLOYMENTS), DEPLOYMENTS, expiresAt.value)
    ensures r.Ok?
            ==> Sent(r.value.0, hf, settings, provider, serving.value, serving.value.model.value, gpu,
                     Selected(gpuAnswer), expiresAt)
    ensures r.Ok? ==> r.value.1 == if TOKEN_SLOT in provider then Some(provider[TOKEN_SLOT]) else None
  {
    hide CarriesLease, Written, WithSome, TopField, Inner, Field, Or, LeaseText;
    hf, settings := map[], map[];
    if serving.None? {
      return Err(Incomplete), hf, settings;
    }
    if serving.value.engine != "vllm" || serving.value.others != [] {
      return Err(Unmet), hf, settings;
    }
    if serving.value.model.None? {
      return Err(Incomplete), hf, settings;
    }
    if serving.value.tensorParallel.Some? && gpu.Some? && serving.value.tensorParallel.value != gpu.value {
      return Err(Unmet), hf, settings;
    }
    if Refused(gpuAnswer) || Refused(diskAnswer) {
      return Err(Unmet), hf, settings;
    }
    var body;
    body, hf, settings := Assembled(serving.value, serving.value.model.value, gpu, Selected(gpuAnswer), provider);
    ADeviceIsNamed(hf, settings, provider, serving.value, gpu, Selected(gpuAnswer));
    if Field(body, "gpu").None? {
      return Err(Incomplete), hf, settings;
    }
    if expiresAt.Some? {
      StampedCarriesLease(body, DEPLOYMENTS, expiresAt.value);
    }
    var token := if TOKEN_SLOT in provider then Some(provider[TOKEN_SLOT]) else None;
    return Ok((Stamped(body, "model_name", expiresAt), token)), hf, settings;
  }

  // ---- Whose word stands ----

  /** What a request says where a slot lands. */
  function AtSlot(body: map<string, Json>, field: string): Option<Json> {
    match SplitOnce(field, '.')
    case None => Field(body, field)
    case Some((head, inner)) =>
      if head != HF && head != SETTINGS then Field(body, field)
      else match Field(body, head)
        case Some(holder) => Get(holder, inner)
        case None => None
  }

  /** Nothing in the profile makes a `settings` object. */
  ghost predicate NoSettings(provider: Provider) {
    && "deploy.min_replicas" !in provider && "deploy.max_replicas" !in provider
    && forall inner: string :: SETTINGS_SLOT + inner !in provider
  }

  /** Where the profile's word on a slot is the one sent, told by the profile and the lease alone. */
  ghost predicate Kept(provider: Provider, expiresAt: Option<Timestamp>, field: string)
    requires SLOT + field in provider
  {
    var said := provider[SLOT + field];
    match SplitOnce(field, '.')
    case Some((head, inner)) =>
      if head == HF then
        inner != "token_env" && (inner == "token" && TOKEN_SLOT in provider ==> said == TokenText(provider[TOKEN_SLOT]))
      else true
    case None =>
      && field != HF && (field == SETTINGS ==> NoSettings(provider))
      && (field == "model_name" && expiresAt.Some? ==> said == ExpiryStamp(expiresAt.value))
  }

  lemma SettingsAreEmpty(hf: map<string, Json>, settings: map<string, Json>, provider: Provider, model: string)
    requires Inner(hf, settings, provider, model)
    ensures settings == map[] <==> NoSettings(provider)
  {
    hide Scalar, Token;
    if settings == map[] {
      assert Field(settings, "min_instances") == None && Field(settings, "max_instances") == None;
      forall inner: string
        ensures SETTINGS_SLOT + inner !in provider
      {
        assert Field(settings, inner) == None;
      }
    }
    if NoSettings(provider) {
      forall f: string
        ensures f !in settings
      {
        assert Field(settings, f) == None;
      }
    }
  }

  lemma TopStands(f: string, hf: map<string, Json>, settings: map<string, Json>, provider: Provider, serving: Serving,
                  gpu: Option<U32>, selected: seq<string>, expiresAt: Option<Timestamp>)
    requires SLOT + f in provider && IsTop(f)
    ensures Or(f, "model_name", LeaseText(expiresAt), TopField(f, hf, settings, provider, serving, gpu, selected))
              == Some(Scalar(provider[SLOT + f]))
            <==> && f != HF && (f == SETTINGS ==> settings == map[])
                 && (f == "model_name" && expiresAt.Some? ==> provider[SLOT + f] == ExpiryStamp(expiresAt.value))
  {
    hide ExpiryStamp, BodyField;
    assert "model_name" != HF && "model_name" != SETTINGS;
    assert !Scalar(provider[SLOT + f]).Obj?;
    if expiresAt.Some? {
      StampStartsWithTheMark(expiresAt.value);
      TextSpellsItself(provider[SLOT + f], ExpiryStamp(expiresAt.value));
    }
  }

  lemma HfStands(inner: string, hf: map<string, Json>, settings: map<string, Json>, provider: Provider, model: string)
    requires Inner(hf, settings, provider, model) && HF_SLOT + inner in provider
    ensures Field(hf, inner) == Some(Scalar(provider[HF_SLOT + inner]))
            <==>
            && inner != "token_env"
            && (inner == "token" && TOKEN_SLOT in provider ==>
                  provider[HF_SLOT + inner] == TokenText(provider[TOKEN_SLOT]))
  {
    hide Scalar;
    assert "token_env" != "token" && "token_env" != "repo";
    if TOKEN_SLOT in provider {
      assert TokenText(provider[TOKEN_SLOT])[0] == '{';
      TextSpellsItself(provider[HF_SLOT + inner], TokenText(provider[TOKEN_SLOT]));
    }
  }

  lemma SettingStands(inner: string, hf: map<string, Json>, settings: map<string, Json>, provider: Provider,
                      model: string)
    requires Inner(hf, settings, provider, model) && SETTINGS_SLOT + inner in provider
    ensures Field(settings, inner) == Some(Scalar(provider[SETTINGS_SLOT + inner])) && settings != map[]
  {
    hide Scalar;
  }

  lemma ObjectsAreSent(body: map<string, Json>, hf: map<string, Json>, settings: map<string, Json>, provider: Provider,
                       serving: Serving, model: string, gpu: Option<U32>, selected: seq<string>,
                       expiresAt: Option<Timestamp>)
    requires Sent(body, hf, settings, provider, serving, model, gpu, selected, expiresAt)
    ensures Field(body, HF) == Some(Obj(hf))
    ensures settings != map[] ==> Field(body, SETTINGS) == Some(Obj(settings))
  {
    hide Scalar, ExpiryStamp, BodyField, Inner;
    assert "model_name" != HF && "model_name" != SETTINGS && HF != SETTINGS;
  }

  lemma TopIsKept(provider: Provider, expiresAt: Option<Timestamp>, field: string)
    requires SLOT + field in provider && IsTop(field)
    ensures Kept(provider, expiresAt, field)
            <==> && field != HF && (field == SETTINGS ==> NoSettings(provider))
                 && (field == "model_name" && expiresAt.Some?
                     ==> provider[SLOT + field] == ExpiryStamp(expiresAt.value))
  {
    hide ExpiryStamp, NoSettings;
    if SplitOnce(field, '.').Some? {
      assert '.' in field;
      assert '.' !in HF && '.' !in SETTINGS && '.' !in "model_name";
    }
  }

  /** Whose word is sent, for every slot of the profile, told before the request is made. Of the body's own
      fields the profile's stands but for `hf`, for `settings` when anything makes that object, and for
      the lease's field when it says otherwise than the lease; inside `hf` it stands but for the token's
      variable and, when one is named, a token that is not its placeholder; inside `settings` always. */
  lemma TheProfileHasTheLastWordExcept(body: map<string, Json>, hf: map<string, Json>, settings: map<string, Json>,
                                       provider: Provider, serving: Serving, model: string, gpu: Option<U32>,
                                       selected: seq<string>, expiresAt: Option<Timestamp>, field: string)
    requires Sent(body, hf, settings, provider, serving, model, gpu, selected, expiresAt) && SLOT + field in provider
    ensures AtSlot(body, field) == Some(Scalar(provider[SLOT + field])) <==> Kept(provider, expiresAt, field)
  {
    hide Scalar, ExpiryStamp, BodyField, TokenText;
    SettingsAreEmpty(hf, settings, provider, model);
    ObjectsAreSent(body, hf, settings, provider, serving, model, gpu, selected, expiresAt);
    if IsTop(field) {
      TopStands(field, hf, settings, provider, serving, gpu, selected, expiresAt);
      hide TopField, NoSettings, Inner;
      TopIsKept(provider, expiresAt, field);
    } else {
      var parts := SplitOnce(field, '.').value;
      assert SLOT + field == (if parts.0 == HF then HF_SLOT else SETTINGS_SLOT) + parts.1;
      if parts.0 == HF {
        HfStands(parts.1, hf, settings, provider, model);
      } else {
        SettingStands(parts.1, hf, settings, provider, model);
      }
    }
  }

  // ---- The request, in the profile's own terms ----

  /** Digits with at most one sign before them are the integer they spell, where an `i64` can hold it; and no
      other text is one. */
  lemma IntegerIs(sign: string, digits: string, n: Integer)
    requires sign in {"", "+", "-"} && digits != "" && forall i :: 0 <= i < |digits| ==> '0' <= digits[i] <= '9'
    requires -0x8000_0000_0000_0000 <= n < 0x8000_0000_0000_0000
    requires n == (if sign == "-" then -(Spelled(digits) as int) else Spelled(digits))
    ensures ParseI64(sign + digits) == Some(n)
  {
    var text := sign + digits;
    if sign == "" {
      assert text == digits && text[0] != '-' && text[0] != '+';
    } else {
      assert text[1..] == digits;
    }
  }

  lemma IntegerHasTheForm(text: string) returns (sign: string, digits: string)
    requires ParseI64(text).Some?
    ensures text == sign + digits && sign in {"", "+", "-"} && digits != ""
    ensures forall i :: 0 <= i < |digits| ==> '0' <= digits[i] <= '9'
  {
    var negative := "-" <= text;
    digits := if negative || "+" <= text then text[1..] else text;
    sign := if negative then "-" else if "+" <= text then "+" else "";
  }

  /** A slot's value is the integer, the truth value or the text it spells. */
  lemma ValuesAre(value: string)
    ensures ParseI64(value).Some? ==> Scalar(value) == Num(Whole(ParseI64(value).value))
    ensures ParseI64(value).None? ==>
              Scalar(value) ==
              if value == "true" then Bool(true) else if value == "false" then Bool(false) else Str(value)
    ensures ParseI64("true").None? && ParseI64("false").None?
  {
    assert "true"[0] == 't' && "false"[0] == 'f';
  }

  /** What a field of the body itself holds, but for the two objects: the lease, the profile's word, the first
      device selected, the device count, and the engine's arguments. */
  lemma BodySays(f: string, hf: map<string, Json>, settings: map<string, Json>, provider: Provider, serving: Serving,
                 gpu: Option<U32>, selected: seq<string>, expiresAt: Option<Timestamp>)
    requires f != "hf" && f != "settings"
    ensures var arguments :=
              (if serving.dtype.Some? then ["--dtype", serving.dtype.value] else []) + serving.extraArgs;
            Or(f, "model_name", LeaseText(expiresAt), TopField(f, hf, settings, provider, serving, gpu, selected)) ==
            if f == "model_name" && expiresAt.Some? then Some(Str(ExpiryStamp(expiresAt.value)))
            else if "deepinfra-deploy." + f in provider && !("hf." <= f) && !("settings." <= f) then
              Some(Scalar(provider["deepinfra-deploy." + f]))
            else if f == "gpu" && selected != [] then Some(Str(selected[0]))
            else if f == "num_gpus" && gpu.Some? then Some(Num(Whole(gpu.value)))
            else if f == "extra_args" && arguments != [] then Some(AsTexts(arguments))
            else None
  {
    hide ExpiryStamp, Scalar;
    TopIs(f);
  }

  lemma TopIs(f: string)
    ensures IsTop(f) <==> !("hf." <= f) && !("settings." <= f)
  {
    HeadIsAPrefix(f, "hf");
    HeadIsAPrefix(f, "settings");
    if "hf." <= f {
      assert f == "hf." + f[3..];
    }
    if "settings." <= f {
      assert f == "settings." + f[9..];
    }
  }

  /** And what the two objects hold: the profile's word over the model and over the replica counts the profile
      shares between targets, and over a token's variable its placeholder. */
  lemma InnerSays(hf: map<string, Json>, settings: map<string, Json>, provider: Provider, model: string, f: string)
    requires Inner(hf, settings, provider, model)
    ensures Field(hf, f) ==
            if f == "token" && "deepinfra-deploy.hf.token_env" in provider then
              Some(Str("{{" + provider["deepinfra-deploy.hf.token_env"] + ":json}}"))
            else if "deepinfra-deploy.hf." + f in provider && f != "token_env" then
              Some(Scalar(provider["deepinfra-deploy.hf." + f]))
            else if f == "repo" then Some(Str(model))
            else None
    ensures Field(settings, f) ==
            if "deepinfra-deploy.settings." + f in provider then
              Some(Scalar(provider["deepinfra-deploy.settings." + f]))
            else if f == "min_instances" && "deploy.min_replicas" in provider then
              Some(Scalar(provider["deploy.min_replicas"]))
            else if f == "max_instances" && "deploy.max_replicas" in provider then
              Some(Scalar(provider["deploy.max_replicas"]))
            else None
  {
    hide Scalar;
    assert HF_SLOT == "deepinfra-deploy.hf." && SETTINGS_SLOT == "deepinfra-deploy.settings.";
    assert TOKEN_SLOT == "deepinfra-deploy.hf.token_env";
  }

  /** A service that runs as declared is a `vllm` one that names a model and nothing this target has no place
      for, its tensor-parallel size, if it states one, being the device count, if there is one. */
  lemma RunsMeans(serving: Serving, gpu: Option<U32>)
    ensures !Runs(None, gpu)
    ensures Runs(Some(serving), gpu) <==>
            && serving.engine == "vllm" && serving.others == [] && serving.model.Some?
            && (serving.tensorParallel.None? || gpu.None? || serving.tensorParallel.value == gpu.value)
  {
  }

  /** A row that lists a deployment reads as that machine under its name past the account's, and as none where the
      platform has failed or deleted it; it is not asked for its name again. */
  lemma CreatedIsListed(id: string, account: string, text: string, status: string)
    requires text != "" && '/' !in text
    ensures var row := Obj(map["deploy_id" := Str(id), "model_name" := Str(account + "/" + text),
                               "status" := Str(status)]);
            Machines(Arr([row]), DEPLOYMENTS) ==
            Ok(if status == "failed" || status == "deleted" then [] else [Machine(id, Some(text))])
    ensures !DEPLOYMENTS.stampFromInspect
  {
    hide AfterLast, JsonPath;
    AfterLastIs(account, '/', text);
    var fields := map["deploy_id" := Str(id), "model_name" := Str(account + "/" + text), "status" := Str(status)];
    RowReads(fields, DEPLOYMENTS, id, account + "/" + text, text);
    assert RowEnded(Obj(fields), DEPLOYMENTS) <==> status == "failed" || status == "deleted";
  }
}
