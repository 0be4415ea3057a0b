/** input_validators.py: the checks run before any backup is taken. The log
    options given on the command line, the node sections and backup path of
    the configuration file, and the objects `ScriptSettings` builds from it.
    Whether an address is a valid IPv4 address (`is_valid_ip`) and whether a
    host answers a ping (`is_host_accessible`) are given as the sets of
    addresses for which they hold. */
module InputValidators {
  import opened Strs
  import opened Wrappers
  import opened Exceptions
  import opened BackupSettings
  import opened Notification
  import opened Onsite

  // ---------------------------------------------------------------------
  // validate_log_level

  /** The numeric levels of Python's `logging` module. */
  const LevelCritical: int := 50
  const LevelError: int := 40
  const LevelWarning: int := 30
  const LevelInfo: int := 20
  const LevelDebug: int := 10

  predicate IsLevel(n: int) {
    n == LevelCritical || n == LevelError || n == LevelWarning || n == LevelInfo || n == LevelDebug
  }

  /** The `--log_level` argument: the default is the number `logging.INFO`,
      a value typed on the command line arrives as text. */
  datatype LogLevelArg = Number(n: int) | Name(text: string)

  /** The level a text names, compared in lower case; INFO for any other
      text. */
  function LevelOfName(s: string): int {
    var l := Lower(s);
    if l == "critical" then LevelCritical
    else if l == "error" then LevelError
    else if l == "warning" then LevelWarning
    else if l == "info" then LevelInfo
    else if l == "debug" then LevelDebug
    else LevelInfo
  }

  /** `validate_log_level(log_level)`: always a level, and a numeric level
      is kept as it is. */
  function ValidateLogLevel(level: LogLevelArg): (r: int)
    ensures IsLevel(r)
    ensures level.Number? && IsLevel(level.n) ==> r == level.n
  {
    match level
    case Number(n) => if IsLevel(n) then n else LevelOfName(IntToString(n))
    case Name(s) => LevelOfName(s)
  }

  /** A text that does not start with a letter names no level. */
  lemma NoLetterNoLevel(s: string)
    requires s != [] && !('A' <= s[0] <= 'Z') && !('a' <= s[0] <= 'z')
    ensures LevelOfName(s) == LevelInfo
  {
    assert Lower(s)[0] == s[0];
  }

  /** A number that is not a level becomes INFO: its decimal text names no
      level. */
  lemma UnknownNumberIsInfo(n: int)
    requires !IsLevel(n)
    ensures ValidateLogLevel(Number(n)) == LevelInfo
  {
    var t := IntToString(n);
    assert IsDigit(NatToDecimal(if n < 0 then -n else n)[0]);
    NoLetterNoLevel(t);
  }

  /** A level typed as digits on the command line ("10") is text, not a
      number, so it becomes INFO whatever it says. */
  lemma NumeralIsInfo(s: string)
    requires IsNumeral(s)
    ensures ValidateLogLevel(Name(s)) == LevelInfo
  {
    NoLetterNoLevel(s);
  }

  /** A name is recognised in capitals too. */
  lemma CapitalNameRecognised()
    ensures ValidateLogLevel(Name("DEBUG")) == LevelDebug
  {
    assert Lower("DEBUG") == "debug";
  }

  /** Lower-casing the argument first changes nothing. */
  lemma LevelOfLowered(s: string)
    ensures ValidateLogLevel(Name(Lower(s))) == ValidateLogLevel(Name(s))
  {
    LowerIdempotent(s);
  }

  /** `s` spells the lower-case `name`, each letter in either case. */
  predicate SpellsIgnoringCase(s: string, name: string) {
    |s| == |name| && forall i :: 0 <= i < |s| ==> LowerChar(s[i]) == name[i]
  }

  /** Lower-casing gives `name` exactly when `s` spells it in any case. */
  lemma LowerIsSpelling(s: string, name: string)
    ensures Lower(s) == name <==> SpellsIgnoringCase(s, name)
  {
    LowerPointwise(s);
    if SpellsIgnoringCase(s, name) {
      assert forall i :: 0 <= i < |s| ==> Lower(s)[i] == name[i];
    }
  }

  /** The names `validate_log_level` recognises: each of the five, in any
      mix of cases, gives its level, and every other text gives INFO. */
  lemma NameLevels(s: string)
    ensures SpellsIgnoringCase(s, "critical") ==> ValidateLogLevel(Name(s)) == LevelCritical
    ensures SpellsIgnoringCase(s, "error") ==> ValidateLogLevel(Name(s)) == LevelError
    ensures SpellsIgnoringCase(s, "warning") ==> ValidateLogLevel(Name(s)) == LevelWarning
    ensures SpellsIgnoringCase(s, "info") ==> ValidateLogLevel(Name(s)) == LevelInfo
    ensures SpellsIgnoringCase(s, "debug") ==> ValidateLogLevel(Name(s)) == LevelDebug
    ensures !SpellsIgnoringCase(s, "critical") && !SpellsIgnoringCase(s, "error") &&
            !SpellsIgnoringCase(s, "warning") && !SpellsIgnoringCase(s, "debug") ==>
      ValidateLogLevel(Name(s)) == LevelInfo
  {
    LowerIsSpelling(s, "critical");
    LowerIsSpelling(s, "error");
    LowerIsSpelling(s, "warning");
    LowerIsSpelling(s, "info");
    LowerIsSpelling(s, "debug");
  }

  /** Validating a validated level gives it back. */
  lemma ValidateLogLevelIdempotent(level: LogLevelArg)
    ensures ValidateLogLevel(Number(ValidateLogLevel(level))) == ValidateLogLevel(level)
  {
  }

  // ---------------------------------------------------------------------
  // validate_log_root_path

  /** The path `validate_log_root_path` settles on: the default replaces a
      missing or blank one. */
  function ChosenLogRoot(path: Option<string>, defaultPath: string): string {
    if path.None? || IsBlank(path.value) then defaultPath else path.value
  }

  /** `validate_log_root_path(log_root_path, default_log_root_path)`:
      `create_path` on the chosen path, which is returned when it exists
      afterwards; otherwise the error names it. */
  function ValidateLogRootPath(w: World, path: Option<string>, defaultPath: string): (r: (World, Result<string, string>))
    ensures var p := ChosenLogRoot(path, defaultPath);
      (r.1.Success? <==> w.Exists(p) || p !in w.blocked) &&
      (r.1.Success? ==> r.1.value == p && r.0.Exists(p)) &&
      (r.1.Failure? ==> r.1.error == "Error creating log root path '" + p + "'." && r.0 == w)
  {
    var p := if path.None? || IsBlank(path.value) then defaultPath else path.value;
    var (w1, created) := w.CreatePath(p);
    if !created then (w1, Failure("Error creating log root path '" + p + "'."))
    else (w1, Success(p))
  }

  /** A blank path is never created: the default is. */
  lemma BlankLogRootUsesDefault(w: World, path: string, defaultPath: string)
    requires Strip(path) == ""
    ensures ValidateLogRootPath(w, Some(path), defaultPath) == ValidateLogRootPath(w, None, defaultPath)
  {
    StripEmptyIffBlank(path);
  }

  // ---------------------------------------------------------------------
  // validate_nodes

  /** The node fields that must not be blank, besides the host name. */
  datatype Field = IP | TYPE | EQ_PROMPT | USERNAME | PASSWORD
  {
    function Name(): string {
      match this
      case IP => "IP"
      case TYPE => "TYPE"
      case EQ_PROMPT => "EQ_PROMPT"
      case USERNAME => "USERNAME"
      case PASSWORD => "PASSWORD"
    }
  }

  /** A validation message. The list the validators fill holds the strings
      `Text()` renders; the model keeps the message itself, from which its
      text follows. */
  datatype Message =
    | NoNodes(fileName: string)
    | NodeUndefined(fileName: string, key: string)
    | FieldEmpty(field: Field, hostname: string)
    | IpInvalid(ip: string, hostname: string)
    | HostUnreachable(hostname: string, ip: string)
    | BackupPathMissing(path: string)
  {
    function Text(): string {
      match this
      case NoNodes(f) => "No nodes defined in the configuration file '" + f + "'. Nothing to do."
      case NodeUndefined(f, k) => "Node parameters not defined in the configuration file'" + f + "' for " + k + ". Nothing to do."
      case FieldEmpty(field, h) => "Node parameter '" + field.Name() + "' is empty for " + h
      case IpInvalid(ip, h) => "Informed IP " + ip + " for node " + h + " is not valid"
      case HostUnreachable(h, ip) => "Node " + h + " with credentials " + ip + " is not accessible"
      case BackupPathMissing(p) => "Informed path for backup storage does not exist: '" + p + "'."
    }
  }

  /** A list of messages that callers hand around and that the validators
      append to in place. */
  class ErrorList {
    var items: seq<Message>

    constructor ()
      ensures items == []
    {
      items := [];
    }
  }

  function FieldError(field: Field, value: string, hostname: string): seq<Message> {
    if IsBlank(value) then [FieldEmpty(field, hostname)] else []
  }

  /** The messages for the address and the reachability of the node. */
  function AddressErrors(n: NodeConfig, validIps: set<string>, reachable: set<string>): seq<Message> {
    (if n.ip !in validIps then [IpInvalid(n.ip, n.hostname)] else []) +
    (if n.ip !in reachable then [HostUnreachable(n.hostname, n.ip)] else [])
  }

  /** The messages for one node, in the order its checks run: the host name,
      the five other fields, the address and the reachability. */
  function NodeErrors(fileName: string, key: string, n: NodeConfig, validIps: set<string>, reachable: set<string>)
    : seq<Message>
  {
    (if IsBlank(n.hostname) then [NodeUndefined(fileName, key)] else []) +
    FieldError(IP, n.ip, n.hostname) +
    FieldError(TYPE, n.nodeType, n.hostname) +
    FieldError(EQ_PROMPT, n.eqPrompt, n.hostname) +
    FieldError(USERNAME, n.username, n.hostname) +
    FieldError(PASSWORD, n.password, n.hostname) +
    AddressErrors(n, validIps, reachable)
  }

  /** A node that passes every check. */
  predicate NodeValid(n: NodeConfig, validIps: set<string>, reachable: set<string>) {
    !IsBlank(n.hostname) && !IsBlank(n.ip) && !IsBlank(n.nodeType) && !IsBlank(n.eqPrompt) &&
    !IsBlank(n.username) && !IsBlank(n.password) && n.ip in validIps && n.ip in reachable
  }

  /** A node adds no message exactly when it passes every check; it adds at
      most one message per check, and a blank host name comes first. */
  lemma NodeErrorsMeaning(fileName: string, key: string, n: NodeConfig, validIps: set<string>, reachable: set<string>)
    ensures NodeErrors(fileName, key, n, validIps, reachable) == [] <==> NodeValid(n, validIps, reachable)
    ensures |NodeErrors(fileName, key, n, validIps, reachable)| <= 8
    ensures IsBlank(n.hostname) ==> NodeErrors(fileName, key, n, validIps, reachable)[0] == NodeUndefined(fileName, key)
  {
  }

  /** The checks of one dictionary entry. */
  type EntryCheck = ((string, NodeConfig)) -> seq<Message>

  /** The messages of every entry, entry after entry. */
  function AllErrors(check: EntryCheck, nodes: seq<(string, NodeConfig)>): seq<Message> {
    if nodes == [] then []
    else AllErrors(check, nodes[..|nodes| - 1]) + check(nodes[|nodes| - 1])
  }

  /** The checks `validate_nodes` runs on each entry. */
  function NodeCheck(fileName: string, validIps: set<string>, reachable: set<string>): EntryCheck {
    (entry: (string, NodeConfig)) => NodeErrors(fileName, entry.0, entry.1, validIps, reachable)
  }

  /** What `validate_nodes` appends to the list: the "no nodes" message for
      an empty dictionary, then the messages of each node. */
  function NodesErrors(fileName: string, nodes: seq<(string, NodeConfig)>, validIps: set<string>, reachable: set<string>)
    : seq<Message>
  {
    (if nodes == [] then [NoNodes(fileName)] else []) + AllErrors(NodeCheck(fileName, validIps, reachable), nodes)
  }

  /** The messages of a dictionary split in two are those of the first part
      followed by those of the second. */
  lemma {:induction false} AllErrorsAppend(check: EntryCheck, a: seq<(string, NodeConfig)>, b: seq<(string, NodeConfig)>)
    ensures AllErrors(check, a + b) == AllErrors(check, a) + AllErrors(check, b)
    decreases |b|
  {
    if b == [] {
      assert a + b == a;
    } else {
      assert (a + b)[..|a + b| - 1] == a + b[..|b| - 1];
      AllErrorsAppend(check, a, b[..|b| - 1]);
    }
  }

  /** One more entry adds its own messages after those of the entries before it. */
  lemma AllErrorsStep(check: EntryCheck, nodes: seq<(string, NodeConfig)>, i: nat)
    requires i < |nodes|
    ensures AllErrors(check, nodes[..i + 1]) == AllErrors(check, nodes[..i]) + check(nodes[i])
  {
    assert nodes[..i + 1][..i] == nodes[..i];
  }

  /** No entry adds a message exactly when every entry passes its checks. */
  lemma {:induction false} AllErrorsEmpty(check: EntryCheck, nodes: seq<(string, NodeConfig)>)
    ensures AllErrors(check, nodes) == [] <==> forall i :: 0 <= i < |nodes| ==> check(nodes[i]) == []
  {
    if nodes != [] {
      var init := nodes[..|nodes| - 1];
      AllErrorsEmpty(check, init);
      assert forall i :: 0 <= i < |init| ==> init[i] == nodes[i];
    }
  }

  /** The messages are empty exactly when there is a node and every node is
      valid; an empty dictionary yields only the "no nodes" message. */
  lemma NodesErrorsMeaning(fileName: string, nodes: seq<(string, NodeConfig)>, validIps: set<string>, reachable: set<string>)
    ensures NodesErrors(fileName, nodes, validIps, reachable) == [] <==>
            nodes != [] && forall i :: 0 <= i < |nodes| ==> NodeValid(nodes[i].1, validIps, reachable)
    ensures nodes == [] ==> NodesErrors(fileName, nodes, validIps, reachable) == [NoNodes(fileName)]
  {
    var check := NodeCheck(fileName, validIps, reachable);
    AllErrorsEmpty(check, nodes);
    forall i | 0 <= i < |nodes|
      ensures check(nodes[i]) == [] <==> NodeValid(nodes[i].1, validIps, reachable)
    {
      NodeErrorsMeaning(fileName, nodes[i].0, nodes[i].1, validIps, reachable);
    }
  }

  /** `validate_nodes(node_config_dict, config_file_name, validation_error_list)`:
      appends the messages to the caller's list and answers whether the list
      is empty afterwards, messages put there before included. */
  method ValidateNodes(nodes: seq<(string, NodeConfig)>, fileName: string, errors: ErrorList,
                       validIps: set<string>, reachable: set<string>) returns (ok: bool)
    modifies errors
    ensures errors.items == old(errors.items) + NodesErrors(fileName, nodes, validIps, reachable)
    ensures ok <==> errors.items == []
  {
    var noNodes: seq<Message> := if |nodes| == 0 then [NoNodes(fileName)] else [];
    var check := NodeCheck(fileName, validIps, reachable);
    var found: seq<Message> := [];
    var i := 0;
    while i < |nodes|
      invariant 0 <= i <= |nodes|
      invariant found == AllErrors(check, nodes[..i])
      invariant unchanged(errors)
    {
      AllErrorsStep(check, nodes, i);
      found := found + check(nodes[i]);
      i := i + 1;
    }
    assert nodes[..i] == nodes;
    assert noNodes + found == NodesErrors(fileName, nodes, validIps, reachable);
    errors.items := errors.items + (noNodes + found);
    ok := |errors.items| == 0;
  }

  // ---------------------------------------------------------------------
  // validate_backup_location and validate_nodes_backup_location

  /** `validate_backup_location(backup_config, validation_error_list)`. The
      second component is the list as the call leaves it: the caller's list
      when one is given, else the fresh list the call makes for itself. Only
      without a caller's list is the path looked at. */
  function ValidateBackupLocation(w: World, path: string, errors: Option<seq<Message>>): (r: (bool, seq<Message>))
    ensures errors.Some? ==> r.0 && r.1 == errors.value
    ensures errors.None? ==> (r.0 <==> w.Exists(path))
    ensures errors.None? ==> r.1 == (if r.0 then [] else [BackupPathMissing(path)])
  {
    match errors
    case Some(list) => (true, list)
    case None => if !w.Exists(path) then (false, [BackupPathMissing(path)]) else (true, [])
  }

  /** What `validate_nodes_backup_location` ends with: it raises with the
      list of messages, or returns True. No argument about the backup path
      appears, because the path is never checked. */
  function NodesBackupLocationOutcome(fileName: string, nodes: seq<(string, NodeConfig)>,
                                      validIps: set<string>, reachable: set<string>): Result<bool, seq<Message>>
  {
    var messages := NodesErrors(fileName, nodes, validIps, reachable);
    if messages != [] then Failure(messages) else Success(true)
  }

  /** `validate_nodes_backup_location(config_file_name, script_objects)`:
      whatever the file system holds, the outcome depends only on the
      nodes. */
  method ValidateNodesBackupLocation(w: World, fileName: string, nodes: seq<(string, NodeConfig)>, backup: BackupConfig,
                                     validIps: set<string>, reachable: set<string>) returns (r: Result<bool, seq<Message>>)
    ensures r == NodesBackupLocationOutcome(fileName, nodes, validIps, reachable)
  {
    var errors := new ErrorList();
    var _ := ValidateNodes(nodes, fileName, errors, validIps, reachable);
    var (_, list) := ValidateBackupLocation(w, backup.path, Some(errors.items));
    assert list == NodesErrors(fileName, nodes, validIps, reachable);
    if |list| != 0 {
      return Failure(list);
    }
    return Success(true);
  }

  /** The validation raises exactly when a node is missing or invalid, and
      then with the messages `validate_nodes` collected. */
  lemma NodesBackupLocationMeaning(fileName: string, nodes: seq<(string, NodeConfig)>,
                                   validIps: set<string>, reachable: set<string>)
    ensures var r := NodesBackupLocationOutcome(fileName, nodes, validIps, reachable);
      (r.Success? <==> nodes != [] && forall i :: 0 <= i < |nodes| ==> NodeValid(nodes[i].1, validIps, reachable)) &&
      (r.Failure? ==> r.error == NodesErrors(fileName, nodes, validIps, reachable))
  {
    NodesErrorsMeaning(fileName, nodes, validIps, reachable);
  }

  // ---------------------------------------------------------------------
  // validate_script_settings

  /** The `script_objects` dictionary, one entry per SCRIPT_OBJECTS key, in
      the order the keys are filled. */
  datatype ScriptObjects = ScriptObjects(
    notificationHandler: Option<NotificationHandler>,
    nodeConfigDict: Option<seq<(string, NodeConfig)>>,
    backupConfig: Option<BackupConfig>,
    delay: Option<DelayConfig>,
    ombsConfig: Option<OMBSConfig>)

  /** The empty dictionary the caller passes in. */
  const NoObjects: ScriptObjects := ScriptObjects(None, None, None, None, None)

  /** What `validate_script_settings` raises. */
  datatype ValidationError =
    | NotConstructed(e: BasicException)
      // raised by the ScriptSettings constructor, before the `try`
    | Rewrapped(message: string)
      // the Exception built from a BackupSettingsException
    | Escaped(cause: SettingsError)
      // any other exception, which the `except` clause does not catch

  const RewrapPrefix: string := "Error validating ScriptSettings object due to: "

  /** The `except BackupSettingsException` clause. */
  function Rewrap(e: SettingsError): ValidationError {
    if e.Raised? then Rewrapped(RewrapPrefix + Str(e.e) + ".") else Escaped(e)
  }

  /** The dictionary from the results of the five getters, taken in the
      order of the keys: the first failure is the one raised. (The getters
      have no effect, so reading the later ones after a failure changes
      nothing.) */
  function ObjectsFrom(handler: Result<NotificationHandler, SettingsError>,
                       nodes: Result<seq<(string, NodeConfig)>, SettingsError>,
                       backup: Result<BackupConfig, SettingsError>,
                       delay: Result<DelayConfig, SettingsError>,
                       ombs: Result<OMBSConfig, SettingsError>): (r: Result<ScriptObjects, SettingsError>)
    ensures r.Success? <==> handler.Success? && nodes.Success? && backup.Success? && delay.Success? && ombs.Success?
    ensures r.Success? ==> r.value.notificationHandler.Some? && r.value.nodeConfigDict == Some(nodes.value) &&
                           r.value.backupConfig.Some? && r.value.delay.Some? && r.value.ombsConfig.Some?
  {
    var h :- handler;
    var n :- nodes;
    var b :- backup;
    var d :- delay;
    var o :- ombs;
    Success(ScriptObjects(Some(h), Some(n), Some(b), Some(d), Some(o)))
  }

  /** The five getters of the settings. */
  function ObjectsRead(s: ScriptSettings): Result<ScriptObjects, SettingsError> {
    ObjectsFrom(GetNotificationHandler(s), NodeConfigDict(s.config, None), GetBackupConfig(s),
                GetDelayConfig(s), GetOmbsConfig(s))
  }

  /** `validate_script_settings(config_file_name, {})`: the settings are
      built from the file found by `_get_config_file_path`, then read. */
  function ScriptSettingsValidated(fileName: string, home: string, packageDir: string, readable: set<string>,
                                   parsed: Result<ParsedConfig, ReadProblem>): Result<ScriptObjects, ValidationError>
  {
    match MakeScriptSettings(fileName, home, packageDir, readable, parsed)
    case Failure(e) => Failure(NotConstructed(e))
    case Success(s) =>
      match ObjectsRead(s)
      case Success(o) => Success(o)
      case Failure(e) => Failure(Rewrap(e))
  }

  /** `validate_script_settings`, filling the dictionary key by key. */
  method ValidateScriptSettings(fileName: string, home: string, packageDir: string, readable: set<string>,
                                parsed: Result<ParsedConfig, ReadProblem>) returns (r: Result<ScriptObjects, ValidationError>)
    ensures r == ScriptSettingsValidated(fileName, home, packageDir, readable, parsed)
  {
    var settings := MakeScriptSettings(fileName, home, packageDir, readable, parsed);
    if settings.Failure? {
      return Failure(NotConstructed(settings.error));
    }
    var s := settings.value;
    var objects := NoObjects;
    var handler := GetNotificationHandler(s);
    if handler.Failure? {
      return Failure(Rewrap(handler.error));
    }
    objects := objects.(notificationHandler := Some(handler.value));
    var nodes := GetNodeConfigDict(s, None);
    if nodes.Failure? {
      return Failure(Rewrap(nodes.error));
    }
    objects := objects.(nodeConfigDict := Some(nodes.value));
    var backup := GetBackupConfig(s);
    if backup.Failure? {
      return Failure(Rewrap(backup.error));
    }
    objects := objects.(backupConfig := Some(backup.value));
    var delay := GetDelayConfig(s);
    if delay.Failure? {
      return Failure(Rewrap(delay.error));
    }
    objects := objects.(delay := Some(delay.value));
    var ombs := GetOmbsConfig(s);
    if ombs.Failure? {
      return Failure(Rewrap(ombs.error));
    }
    objects := objects.(ombsConfig := Some(ombs.value));
    return Success(objects);
  }

  /** On success every key is filled, each with what its getter returns. */
  lemma ScriptSettingsValidatedMeaning(fileName: string, home: string, packageDir: string, readable: set<string>,
                                       parsed: Result<ParsedConfig, ReadProblem>, s: ScriptSettings)
    requires MakeScriptSettings(fileName, home, packageDir, readable, parsed) == Success(s)
    ensures var r := ScriptSettingsValidated(fileName, home, packageDir, readable, parsed);
      (r.Success? <==> GetNotificationHandler(s).Success? && NodeConfigDict(s.config, None).Success? &&
                       GetBackupConfig(s).Success? && GetDelayConfig(s).Success? && GetOmbsConfig(s).Success?) &&
      (r.Success? ==>
        r.value.notificationHandler == Some(GetNotificationHandler(s).value) &&
        r.value.nodeConfigDict == Some(NodeConfigDict(s.config, None).value) &&
        r.value.backupConfig == Some(GetBackupConfig(s).value) &&
        r.value.delay == Some(GetDelayConfig(s).value) &&
        r.value.ombsConfig == Some(GetOmbsConfig(s).value))
  {
  }

  /** The node dictionary never raises a BackupSettingsException that can
      be printed: its failures are lookups or a missing reserved section. */
  lemma NodeConfigDictNeverRaised(c: ConfigFile)
    requires NodeConfigDict(c, None).Failure?
    ensures !NodeConfigDict(c, None).error.Raised?
  {
    NodeSectionsMeaning(c.sections);
    var nodes := NodeSections(c.sections);
    if nodes.Success? {
      ReadEachFailMeaning(SectionReader(c), nodes.value);
    }
  }

  /** The only BackupSettingsException raised in place is the one for a
      missing option: the node dictionary's own exceptions and a bad size
      never take that form. */
  lemma RaisedOnlyForMissingOptions(s: ScriptSettings)
    requires ObjectsRead(s).Failure? && ObjectsRead(s).error.Raised?
    ensures ObjectsRead(s).error.e.code == ConfigurationFileOptionError
  {
    var h, n, b, d, o := GetNotificationHandler(s), NodeConfigDict(s.config, None), GetBackupConfig(s),
                         GetDelayConfig(s), GetOmbsConfig(s);
    if h.Success? && n.Failure? {
      NodeConfigDictNeverRaised(s.config);
    }
  }

  /** So a rewrapped exception is always one for a missing option, code 53. */
  lemma RewrappedOnlyMissingOptions(fileName: string, home: string, packageDir: string, readable: set<string>,
                                    parsed: Result<ParsedConfig, ReadProblem>, s: ScriptSettings)
    requires MakeScriptSettings(fileName, home, packageDir, readable, parsed) == Success(s)
    requires ScriptSettingsValidated(fileName, home, packageDir, readable, parsed).Failure?
    requires ScriptSettingsValidated(fileName, home, packageDir, readable, parsed).error.Rewrapped?
    ensures ObjectsRead(s).Failure? && ObjectsRead(s).error.Raised?
    ensures ObjectsRead(s).error.e.code == ConfigurationFileOptionError
    ensures ScriptSettingsValidated(fileName, home, packageDir, readable, parsed).error == Rewrap(ObjectsRead(s).error)
  {
    RaisedOnlyForMissingOptions(s);
  }

  /** The message of a rewrapped missing-option exception: the prefix, then
      "Error: 53. ", and a closing full stop. */
  lemma RewrappedMessageShape(e: BasicException)
    requires e.code == ConfigurationFileOptionError
    ensures var m := Rewrap(Raised(e)).message;
      m[..|RewrapPrefix|] == RewrapPrefix &&
      m[|RewrapPrefix|..|RewrapPrefix| + 11] == "Error: 53. " &&
      m[|m| - 1] == '.'
  {
    var m := Rewrap(Raised(e)).message;
    assert NatToDecimal(53) == "53";
    assert m == RewrapPrefix + Str(e) + ".";
    assert m[|RewrapPrefix|..|RewrapPrefix| + 11] == Str(e)[..11];
  }

  /** A BackupSettingsException built from a bare message is rewrapped with
      the default code: "Error validating ScriptSettings object due to:
      Error: 30. <message>." */
  lemma RewrapDefaultCode(message: string)
    ensures Rewrap(Raised(BackupSettingsException(message, None))) ==
            Rewrapped(RewrapPrefix + "Error: 30. " + message + ".")
  {
    DefaultCodeText(message);
  }

  /** A missing reserved section is not a BackupSettingsException: it
      escapes without the "Error validating" wrapper. */
  lemma MissingSectionEscapes(fileName: string, home: string, packageDir: string, readable: set<string>,
                              parsed: Result<ParsedConfig, ReadProblem>, s: ScriptSettings, x: string)
    requires MakeScriptSettings(fileName, home, packageDir, readable, parsed) == Success(s)
    requires GetNotificationHandler(s).Success?
    requires x in ReservedSections && x !in s.config.sections
    ensures ScriptSettingsValidated(fileName, home, packageDir, readable, parsed).Failure?
    ensures ScriptSettingsValidated(fileName, home, packageDir, readable, parsed).error.Escaped?
  {
    ObjectsReadMissingSection(s, x);
  }

  /** The objects cannot be read from settings that lack a reserved
      section: the node dictionary's `ValueError` comes out. */
  lemma ObjectsReadMissingSection(s: ScriptSettings, x: string)
    requires GetNotificationHandler(s).Success?
    requires x in ReservedSections && x !in s.config.sections
    ensures ObjectsRead(s).Failure? && ObjectsRead(s).error.ReservedSectionMissing?
  {
    MissingReservedSection(s.config, None, x);
  }

  /** A configuration file that cannot be found or parsed makes the
      constructor raise, outside the `try`: the exception keeps its own code
      (51 or 52) and is not rewrapped. */
  lemma ConstructorErrorsNotRewrapped(fileName: string, home: string, packageDir: string, readable: set<string>,
                                      parsed: Result<ParsedConfig, ReadProblem>)
    requires MakeScriptSettings(fileName, home, packageDir, readable, parsed).Failure?
    ensures var r := ScriptSettingsValidated(fileName, home, packageDir, readable, parsed);
      r.Failure? && r.error.NotConstructed? &&
      (r.error.e.code == ConfigurationFileReadError || r.error.e.code == ConfigurationFileParsingError)
  {
  }
}
