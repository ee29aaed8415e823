/**
 * The user step of the config flow: the form's schema, the validation of
 * what the user typed, the error shown for each failure, and the entry
 * created on success.
 */
module ConfigFlow {
  import opened Wrappers

  const DEVICE_TYPES: seq<string> := ["controller", "monitor", "sensor"]
  const DEFAULT_PORT: int := 80
  const DEFAULT_SCAN_INTERVAL: int := 30

  /** What the form submits before the schema runs: port and scan interval may be left blank. */
  datatype FormInput = FormInput(
    host: string, port: Option<int>, username: string, password: string,
    deviceType: string, scanInterval: Option<int>)

  /** What the step receives once the schema has accepted the form. */
  datatype UserInput = UserInput(
    host: string, port: int, username: string, password: string,
    deviceType: string, scanInterval: int)

  /** `STEP_USER_DATA_SCHEMA`: fills the defaults and requires a known device type. */
  function ApplySchema(f: FormInput): (r: Option<UserInput>)
    ensures r.Some? <==> f.deviceType in DEVICE_TYPES
    ensures r.Some? ==> r.value.port == (if f.port.Some? then f.port.value else DEFAULT_PORT)
    ensures r.Some? ==> r.value.scanInterval == (if f.scanInterval.Some? then f.scanInterval.value else DEFAULT_SCAN_INTERVAL)
    ensures r.Some? ==> r.value.host == f.host && r.value.username == f.username
    ensures r.Some? ==> r.value.password == f.password && r.value.deviceType == f.deviceType
  {
    if f.deviceType in DEVICE_TYPES then
      Some(UserInput(
        f.host,
        match f.port case Some(p) => p case None => DEFAULT_PORT,
        f.username, f.password, f.deviceType,
        match f.scanInterval case Some(n) => n case None => DEFAULT_SCAN_INTERVAL))
    else
      None
  }

  /** The exceptions the step distinguishes; Unexpected is every other exception. */
  datatype FlowError = CannotConnect | InvalidAuth | InvalidHost | InvalidPort | Unexpected

  predicate IsLowerWord(s: string)
  {
    forall i :: 0 <= i < |s| ==> 'a' <= s[i] <= 'z'
  }

  /** `str.title()` on a word of lower-case ASCII letters: the first letter is upper-cased. */
  function TitleCase(s: string): (r: string)
    requires IsLowerWord(s)
    ensures |r| == |s|
    ensures |s| > 0 ==> 'A' <= r[0] <= 'Z' && r[0] as int == s[0] as int - 32
    ensures |s| > 0 ==> r[1..] == s[1..]
  {
    if |s| == 0 then [] else [(s[0] as int - 32) as char] + s[1..]
  }

  lemma DeviceTypesTitled()
    ensures forall t :: t in DEVICE_TYPES ==> IsLowerWord(t)
    ensures TitleCase("controller") == "Controller"
    ensures TitleCase("monitor") == "Monitor"
    ensures TitleCase("sensor") == "Sensor"
  {
  }

  function Title(host: string, deviceType: string): string
    requires deviceType in DEVICE_TYPES
  {
    "Athena " + TitleCase(deviceType) + " (" + host + ")"
  }

  /**
   * `validate_input`: host, then port range, then credentials; the title
   * on success. Device type and scan interval are never looked at, and
   * nothing here raises CannotConnect or anything unexpected.
   */
  function ValidateInput(u: UserInput): (r: Result<string, FlowError>)
    requires u.deviceType in DEVICE_TYPES
    ensures u.host == [] ==> r == Err(InvalidHost)
    ensures u.host != [] ==> (r == Err(InvalidPort) <==> !(1 <= u.port <= 65535))
    ensures r == Err(InvalidAuth) <==> u.host != [] && 1 <= u.port <= 65535 && (u.username == [] || u.password == [])
    ensures r.Ok? <==> u.host != [] && 1 <= u.port <= 65535 && u.username != [] && u.password != []
    ensures r.Ok? ==> r.value == "Athena " + TitleCase(u.deviceType) + " (" + u.host + ")"
    ensures r != Err(CannotConnect) && r != Err(Unexpected)
  {
    if u.host == [] then Err(InvalidHost)
    else if u.port < 1 || u.port > 65535 then Err(InvalidPort)
    else if u.username == [] || u.password == [] then Err(InvalidAuth)
    else Ok(Title(u.host, u.deviceType))
  }

  /** An empty host is reported whatever else the form holds. */
  lemma EmptyHostFirst(u: UserInput)
    requires u.deviceType in DEVICE_TYPES && u.host == []
    ensures ValidateInput(u) == Err(InvalidHost)
  {
  }

  /** Changing the device type or the scan interval never changes whether, or why, validation fails. */
  lemma ValidationIgnoresTypeAndInterval(u: UserInput, t: string, n: int)
    requires u.deviceType in DEVICE_TYPES && t in DEVICE_TYPES
    ensures ValidateInput(u).Err? <==> ValidateInput(u.(deviceType := t, scanInterval := n)).Err?
    ensures ValidateInput(u).Err? ==> ValidateInput(u) == ValidateInput(u.(deviceType := t, scanInterval := n))
  {
  }

  /** A title names its host and device type: different forms never share a title. */
  lemma TitleInjective(h1: string, t1: string, h2: string, t2: string)
    requires t1 in DEVICE_TYPES && t2 in DEVICE_TYPES
    ensures Title(h1, t1) == Title(h2, t2) ==> h1 == h2 && t1 == t2
  {
    DeviceTypesTitled();
    if Title(h1, t1) == Title(h2, t2) {
      assert Title(h1, t1)[7] == TitleCase(t1)[0];
      assert Title(h2, t2)[7] == TitleCase(t2)[0];
      assert t1 == t2;
      var n := 7 + |TitleCase(t1)| + 2;
      assert Title(h1, t1)[n..|Title(h1, t1)| - 1] == h1;
      assert Title(h2, t2)[n..|Title(h2, t2)| - 1] == h2;
    }
  }

  /** The `errors["base"]` value shown for each exception. */
  function ErrorKey(e: FlowError): (k: string)
    ensures k in {"cannot_connect", "invalid_auth", "invalid_host", "invalid_port", "unknown"}
    ensures k == "unknown" <==> e == Unexpected
  {
    match e
    case CannotConnect => "cannot_connect"
    case InvalidAuth => "invalid_auth"
    case InvalidHost => "invalid_host"
    case InvalidPort => "invalid_port"
    case Unexpected => "unknown"
  }

  /** Each exception has its own key. */
  lemma ErrorKeyInjective(e1: FlowError, e2: FlowError)
    ensures ErrorKey(e1) == ErrorKey(e2) ==> e1 == e2
  {
  }

  /** The entry's unique id: host and device type joined by an underscore. */
  function UniqueId(host: string, deviceType: string): string
  {
    host + "_" + deviceType
  }

  /**
   * Ids joined by an underscore split back at their last underscore: when
   * neither suffix contains one, equal ids have equal parts, even where
   * a prefix does contain underscores.
   */
  lemma SplitAtLastUnderscore(h1: string, t1: string, h2: string, t2: string)
    requires '_' !in t1 && '_' !in t2
    requires h1 + "_" + t1 == h2 + "_" + t2
    ensures h1 == h2 && t1 == t2
  {
    var id := h1 + "_" + t1;
    assert |t1| == |t2| by {
      // the underscore after each prefix would otherwise fall inside the other suffix
      assert id[|h1|] == '_' && id[|h2|] == '_';
    }
    assert id[|h1| + 1..] == t1;
    assert id[|h2| + 1..] == t2;
    assert id[..|h1|] == h1;
    assert id[..|h2|] == h2;
  }

  /** No device type contains an underscore, so distinct (host, type) pairs get distinct unique ids. */
  lemma UniqueIdInjective(h1: string, t1: string, h2: string, t2: string)
    requires t1 in DEVICE_TYPES && t2 in DEVICE_TYPES
    ensures UniqueId(h1, t1) == UniqueId(h2, t2) ==> h1 == h2 && t1 == t2
  {
    assert forall t :: t in DEVICE_TYPES ==> '_' !in t;
    if UniqueId(h1, t1) == UniqueId(h2, t2) {
      SplitAtLastUnderscore(h1, t1, h2, t2);
    }
  }

  const ALREADY_CONFIGURED: string := "already_configured"

  /** What the step returns to the flow manager. */
  datatype Outcome =
    | Created(title: string, uniqueId: string, data: UserInput)
    | Form(errors: map<string, string>)
    | Abort(reason: string)

  /**
   * `async_step_user`. `configured` is the set of unique ids already
   * taken by entries of this domain.
   */
  method StepUser(userInput: Option<UserInput>, configured: set<string>) returns (o: Outcome)
    requires userInput.Some? ==> userInput.value.deviceType in DEVICE_TYPES
    ensures userInput.None? ==> o == Form(map[])
    ensures o.Created? <==>
      userInput.Some? && ValidateInput(userInput.value).Ok?
      && UniqueId(userInput.value.host, userInput.value.deviceType) !in configured
    ensures o.Created? ==>
      o.title == ValidateInput(userInput.value).value
      && o.uniqueId == userInput.value.host + "_" + userInput.value.deviceType
      && o.data == userInput.value
    ensures o.Abort? <==>
      userInput.Some? && ValidateInput(userInput.value).Ok?
      && UniqueId(userInput.value.host, userInput.value.deviceType) in configured
    ensures o.Abort? ==> o.reason == ALREADY_CONFIGURED
    ensures userInput.Some? && ValidateInput(userInput.value).Err? ==>
      o == Form(map["base" := ErrorKey(ValidateInput(userInput.value).error)])
    ensures userInput.Some? && userInput.value.host == [] ==>
      o == Form(map["base" := "invalid_host"])
    ensures userInput.Some? && userInput.value.host != [] && !(1 <= userInput.value.port <= 65535) ==>
      o == Form(map["base" := "invalid_port"])
    ensures (userInput.Some? && userInput.value.host != [] && 1 <= userInput.value.port <= 65535 &&
             (userInput.value.username == [] || userInput.value.password == [])) ==>
      o == Form(map["base" := "invalid_auth"])
  {
    var errors: map<string, string> := map[];
    if userInput.Some? {
      var u := userInput.value;
      var info := ValidateInput(u);
      if info.Err? {
        errors := errors["base" := ErrorKey(info.error)];
      } else {
        var uniqueId := UniqueId(u.host, u.deviceType);
        if uniqueId in configured {
          return Abort(ALREADY_CONFIGURED);
        }
        return Created(info.value, uniqueId, u);
      }
    }
    return Form(errors);
  }
}
