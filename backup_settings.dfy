/** backup_settings.py: the records built from the configuration file and
    the `ScriptSettings` readers that build them. The parsed file is a value:
    its sections in file order, the options of each section (option names
    already lower-cased, as ConfigParser stores them) and the [DEFAULT]
    options that every section inherits. */
module BackupSettings {
  import opened Strs
  import opened Wrappers
  import opened Exceptions
  import opened Utils
  import opened Notification

  // ---------------------------------------------------------------------
  // Records

  /** `NodeConfig`: one network device to back up. */
  datatype NodeConfig = NodeConfig(hostname: string, ip: string, nodeType: string, eqPrompt: string,
                                   username: string, password: string)
  {
    /** `self.host`, the SSH destination. */
    function Host(): string {
      username + "@" + ip
    }
  }

  /** `BackupConfig`: where backups go, the pexpect read buffer and the
      smallest acceptable backup, both sizes already converted to bytes. */
  datatype BackupConfig = BackupConfig(path: string, bufferSize: nat, minBackupSize: nat)

  /** `OMBSConfig`: the backup server the folder is copied to. */
  datatype OMBSConfig = OMBSConfig(ip: string, username: string, dir: string, keyPath: string)
  {
    function Host(): string {
      username + "@" + ip
    }
  }

  /** `DelayConfig`: the settle time, kept as the raw configuration text. */
  datatype DelayConfig = DelayConfig(maxDelay: string)

  /** An SSH destination `user@ip` splits back into its parts at the first
      '@' whenever the user name holds none. */
  lemma {:induction false} HostSplits(username: string, ip: string)
    requires forall i :: 0 <= i < |username| ==> username[i] != '@'
    ensures var host := username + "@" + ip;
      FirstAt(host) == |username| && host[..FirstAt(host)] == username && host[FirstAt(host) + 1..] == ip
  {
    var host := username + "@" + ip;
    assert host == username + ("@" + ip);
    FirstAtOfPrefix(username, "@" + ip);
    assert host[..|username|] == username;
    assert host[|username| + 1..] == ip;
  }

  /** The index of the first '@' of `s`, or `|s|` when there is none. */
  function FirstAt(s: string): (i: nat)
    ensures i <= |s|
    ensures i < |s| ==> s[i] == '@'
    ensures forall j :: 0 <= j < i ==> s[j] != '@'
  {
    if s == [] then 0 else if s[0] == '@' then 0 else 1 + FirstAt(s[1..])
  }

  lemma {:induction false} FirstAtOfPrefix(a: string, b: string)
    requires forall i :: 0 <= i < |a| ==> a[i] != '@'
    requires b != [] && b[0] == '@'
    ensures FirstAt(a + b) == |a|
    decreases |a|
  {
    if a != [] {
      assert (a + b)[1..] == a[1..] + b;
      FirstAtOfPrefix(a[1..], b);
    }
  }

  lemma NodeHostSplits(n: NodeConfig)
    requires forall i :: 0 <= i < |n.username| ==> n.username[i] != '@'
    ensures n.Host()[..FirstAt(n.Host())] == n.username && n.Host()[FirstAt(n.Host()) + 1..] == n.ip
  {
    HostSplits(n.username, n.ip);
  }

  // ---------------------------------------------------------------------
  // The parsed configuration file

  /** The two lookup errors of `ConfigParser.get`. */
  datatype LookupError = NoSection(section: string) | NoOption(option: string, section: string)
  {
    /** The exception's `message`. */
    function Message(): string {
      match this
      case NoSection(s) => "No section: " + QuotedText(s)
      case NoOption(o, s) => "No option " + QuotedText(o) + " in section: " + QuotedText(s)
    }
  }

  datatype ConfigFile = ConfigFile(sections: seq<string>, options: map<string, map<string, string>>,
                                   defaults: map<string, string>)
  {
    /** `config.get(section, option)`: the section's own value, else the
        [DEFAULT] one; the option name is matched case-insensitively. */
    function Get(section: string, option: string): (r: Result<string, LookupError>)
      ensures r == Failure(NoSection(section)) <==> section !in options && section != "DEFAULT"
      ensures r.Failure? && r.error.NoOption? ==> r.error == NoOption(Lower(option), section)
    {
      if section !in options && section != "DEFAULT" then Failure(NoSection(section))
      else
        var key := Lower(option);
        if section in options && key in options[section] then Success(options[section][key])
        else if key in defaults then Success(defaults[key])
        else Failure(NoOption(key, section))
    }

    /** What `ConfigParser` builds from a file: each section once, in file
        order, [DEFAULT] kept apart, and option names stored in lower case. */
    predicate Valid() {
      Distinct(sections) &&
      (forall name :: name in options ==> name in sections) &&
      (forall name :: name in sections ==> name in options) &&
      "DEFAULT" !in options &&
      (forall name, key :: name in options && key in options[name] ==> Lower(key) == key) &&
      (forall key :: key in defaults ==> Lower(key) == key)
    }
  }

  /** A configuration file as parsing leaves it. */
  type ParsedConfig = c: ConfigFile | c.Valid() witness ConfigFile([], map[], map[])

  /** An option stored under a section is read back whatever the case of
      the name asked for; [DEFAULT] only fills in for options the section
      lacks; and an option found in neither is reported missing. */
  lemma GetMeaning(c: ConfigFile, section: string, option: string)
    requires section in c.options
    ensures Lower(option) in c.options[section] ==> c.Get(section, option) == Success(c.options[section][Lower(option)])
    ensures Lower(option) !in c.options[section] && Lower(option) in c.defaults ==>
      c.Get(section, option) == Success(c.defaults[Lower(option)])
    ensures Lower(option) !in c.options[section] && Lower(option) !in c.defaults ==>
      c.Get(section, option) == Failure(NoOption(Lower(option), section))
  {
  }

  /** Option names differing only in case name the same option. */
  lemma GetIgnoresCase(c: ConfigFile, section: string, option: string)
    ensures c.Get(section, Lower(option)) == c.Get(section, option)
  {
    LowerIdempotent(option);
  }

  lemma LowerIdempotent(s: string)
    ensures Lower(Lower(s)) == Lower(s)
  {
    var l := Lower(s);
    LowerPointwise(s);
    LowerPointwise(l);
    assert forall i :: 0 <= i < |l| ==> Lower(l)[i] == l[i];
  }

  // ---------------------------------------------------------------------
  // ScriptSettings

  /** What a `ScriptSettings` reader can raise. */
  datatype SettingsError =
    | Raised(e: BasicException)
      // a BackupSettingsException with its message and code in place
    | NodeLookupFailed(cause: LookupError)
      // the BackupSettingsException of get_node_config_dict, whose message
      // and code arguments are swapped, so only the fact that it is raised
      // is meaningful
    | ReservedSectionMissing(section: string)
      // the ValueError of `list.remove`
    | SizeUnparsable(error: ParseError)
      // the ValueError or KeyError of `to_bytes`

  datatype ScriptSettings = ScriptSettings(configFileName: string, configFilePath: string, config: ConfigFile)

  /** The exception raised for a missing section or option. */
  function OptionError(configFileName: string, cause: LookupError): (e: BasicException)
    ensures e.code == ConfigurationFileOptionError
  {
    BackupSettingsException("Error reading the configuration file '" + configFileName + "': " + cause.Message(),
                            Some(ConfigurationFileOptionError))
  }

  /** `str(self.config.get(section, option))` inside the readers that wrap
      lookup errors. */
  function Lookup(s: ScriptSettings, section: string, option: string): (r: Result<string, SettingsError>)
    ensures r.Success? <==> s.config.Get(section, option).Success?
    ensures r.Success? ==> r.value == s.config.Get(section, option).value
    ensures r.Failure? ==> r.error == Raised(OptionError(s.configFileName, s.config.Get(section, option).error))
  {
    match s.config.Get(section, option)
    case Success(v) => Success(v)
    case Failure(e) => Failure(Raised(OptionError(s.configFileName, e)))
  }

  /** `get_notification_handler()`: EMAIL_TO and EMAIL_URL of
      SUPPORT_CONTACT, with the default e-mail domain. */
  function GetNotificationHandler(s: ScriptSettings): (r: Result<NotificationHandler, SettingsError>)
    ensures r.Success? <==> Lookup(s, "SUPPORT_CONTACT", "EMAIL_TO").Success? && Lookup(s, "SUPPORT_CONTACT", "EMAIL_URL").Success?
    ensures r.Success? ==> r.value == NotificationHandler(s.config.Get("SUPPORT_CONTACT", "EMAIL_TO").value,
                                                          s.config.Get("SUPPORT_CONTACT", "EMAIL_URL").value, DefaultDomain)
    ensures r.Failure? ==> r.error.Raised? && r.error.e.code == ConfigurationFileOptionError
    ensures var to, url := s.config.Get("SUPPORT_CONTACT", "EMAIL_TO"), s.config.Get("SUPPORT_CONTACT", "EMAIL_URL");
      (to.Failure? ==> r == Failure(Raised(OptionError(s.configFileName, to.error)))) &&
      (to.Success? && url.Failure? ==> r == Failure(Raised(OptionError(s.configFileName, url.error))))
  {
    var to :- Lookup(s, "SUPPORT_CONTACT", "EMAIL_TO");
    var url :- Lookup(s, "SUPPORT_CONTACT", "EMAIL_URL");
    Success(MakeNotificationHandler(to, url, None))
  }

  /** `get_ombs_config()`: IP, USERNAME, BKP_DIR and KEY_PATH of OMBS_CONFIG. */
  function GetOmbsConfig(s: ScriptSettings): (r: Result<OMBSConfig, SettingsError>)
    ensures r.Success? <==> Lookup(s, "OMBS_CONFIG", "IP").Success? && Lookup(s, "OMBS_CONFIG", "USERNAME").Success? &&
                            Lookup(s, "OMBS_CONFIG", "BKP_DIR").Success? && Lookup(s, "OMBS_CONFIG", "KEY_PATH").Success?
    ensures r.Success? ==>
      r.value.dir == s.config.Get("OMBS_CONFIG", "BKP_DIR").value &&
      r.value.Host() == s.config.Get("OMBS_CONFIG", "USERNAME").value + "@" + s.config.Get("OMBS_CONFIG", "IP").value &&
      r.value.keyPath == s.config.Get("OMBS_CONFIG", "KEY_PATH").value
    ensures r.Failure? ==> r.error.Raised? && r.error.e.code == ConfigurationFileOptionError
    ensures var ip, user := s.config.Get("OMBS_CONFIG", "IP"), s.config.Get("OMBS_CONFIG", "USERNAME");
      (ip.Failure? ==> r == Failure(Raised(OptionError(s.configFileName, ip.error)))) &&
      (ip.Success? && user.Failure? ==> r == Failure(Raised(OptionError(s.configFileName, user.error))))
    ensures var ip, user, dir, key := s.config.Get("OMBS_CONFIG", "IP"), s.config.Get("OMBS_CONFIG", "USERNAME"),
                                      s.config.Get("OMBS_CONFIG", "BKP_DIR"), s.config.Get("OMBS_CONFIG", "KEY_PATH");
      (ip.Success? && user.Success? && dir.Failure? ==> r == Failure(Raised(OptionError(s.configFileName, dir.error)))) &&
      (ip.Success? && user.Success? && dir.Success? && key.Failure? ==>
         r == Failure(Raised(OptionError(s.configFileName, key.error))))
  {
    var ip :- Lookup(s, "OMBS_CONFIG", "IP");
    var username :- Lookup(s, "OMBS_CONFIG", "USERNAME");
    var dir :- Lookup(s, "OMBS_CONFIG", "BKP_DIR");
    var key :- Lookup(s, "OMBS_CONFIG", "KEY_PATH");
    Success(OMBSConfig(ip, username, dir, key))
  }

  /** `to_bytes` with its error passed on unwrapped. */
  function Bytes(text: string): (r: Result<nat, SettingsError>)
    ensures r.Success? <==> ToBytes(text).Success?
    ensures r.Success? ==> r.value == ToBytes(text).value
    ensures r.Failure? ==> r.error == SizeUnparsable(ToBytes(text).error)
  {
    match ToBytes(text)
    case Success(n) => Success(n)
    case Failure(e) => Failure(SizeUnparsable(e))
  }

  /** `get_backup_config()`: PATH as text, BUFFER_SIZE and MIN_BACKUP_SIZE
      through `to_bytes`. The arguments are evaluated left to right, so a
      bad BUFFER_SIZE is reported before a missing MIN_BACKUP_SIZE, and a
      `to_bytes` error escapes the `except` clause unwrapped. */
  function GetBackupConfig(s: ScriptSettings): (r: Result<BackupConfig, SettingsError>)
    ensures r.Success? ==>
      s.config.Get("BACKUP_CONFIG", "PATH") == Success(r.value.path) &&
      s.config.Get("BACKUP_CONFIG", "BUFFER_SIZE").Success? &&
      ToBytes(s.config.Get("BACKUP_CONFIG", "BUFFER_SIZE").value) == Success(r.value.bufferSize) &&
      s.config.Get("BACKUP_CONFIG", "MIN_BACKUP_SIZE").Success? &&
      ToBytes(s.config.Get("BACKUP_CONFIG", "MIN_BACKUP_SIZE").value) == Success(r.value.minBackupSize)
    ensures s.config.Get("BACKUP_CONFIG", "PATH").Success? && s.config.Get("BACKUP_CONFIG", "BUFFER_SIZE").Success? &&
            ToBytes(s.config.Get("BACKUP_CONFIG", "BUFFER_SIZE").value).Failure? ==>
      r == Failure(SizeUnparsable(ToBytes(s.config.Get("BACKUP_CONFIG", "BUFFER_SIZE").value).error))
    ensures r.Failure? ==> (r.error.Raised? && r.error.e.code == ConfigurationFileOptionError) || r.error.SizeUnparsable?
    ensures var path, buffer, min := s.config.Get("BACKUP_CONFIG", "PATH"), s.config.Get("BACKUP_CONFIG", "BUFFER_SIZE"),
                                     s.config.Get("BACKUP_CONFIG", "MIN_BACKUP_SIZE");
      r.Success? <==> path.Success? && buffer.Success? && ToBytes(buffer.value).Success? &&
                      min.Success? && ToBytes(min.value).Success?
    ensures var path, buffer, min := s.config.Get("BACKUP_CONFIG", "PATH"), s.config.Get("BACKUP_CONFIG", "BUFFER_SIZE"),
                                     s.config.Get("BACKUP_CONFIG", "MIN_BACKUP_SIZE");
      path.Success? && buffer.Success? && ToBytes(buffer.value).Success? && min.Success? && ToBytes(min.value).Failure? ==>
        r == Failure(SizeUnparsable(ToBytes(min.value).error))
    ensures var path, buffer := s.config.Get("BACKUP_CONFIG", "PATH"), s.config.Get("BACKUP_CONFIG", "BUFFER_SIZE");
      (path.Failure? ==> r == Failure(Raised(OptionError(s.configFileName, path.error)))) &&
      (path.Success? && buffer.Failure? ==> r == Failure(Raised(OptionError(s.configFileName, buffer.error))))
    ensures var path, buffer, min := s.config.Get("BACKUP_CONFIG", "PATH"), s.config.Get("BACKUP_CONFIG", "BUFFER_SIZE"),
                                     s.config.Get("BACKUP_CONFIG", "MIN_BACKUP_SIZE");
      path.Success? && buffer.Success? && ToBytes(buffer.value).Success? && min.Failure? ==>
        r == Failure(Raised(OptionError(s.configFileName, min.error)))
  {
    var path :- Lookup(s, "BACKUP_CONFIG", "PATH");
    var bufferText :- Lookup(s, "BACKUP_CONFIG", "BUFFER_SIZE");
    var bufferSize :- Bytes(bufferText);
    var minText :- Lookup(s, "BACKUP_CONFIG", "MIN_BACKUP_SIZE");
    var minSize :- Bytes(minText);
    Success(BackupConfig(path, bufferSize, minSize))
  }

  /** `get_delay_config()`: BKP_MAX_DELAY, kept as text. */
  function GetDelayConfig(s: ScriptSettings): (r: Result<DelayConfig, SettingsError>)
    ensures r.Success? <==> s.config.Get("DELAY", "BKP_MAX_DELAY").Success?
    ensures r.Success? ==> r.value.maxDelay == s.config.Get("DELAY", "BKP_MAX_DELAY").value
    ensures r.Failure? ==> r.error.Raised? && r.error.e.code == ConfigurationFileOptionError
    ensures r.Failure? ==> r == Failure(Raised(OptionError(s.configFileName, s.config.Get("DELAY", "BKP_MAX_DELAY").error)))
  {
    var delay :- Lookup(s, "DELAY", "BKP_MAX_DELAY");
    Success(DelayConfig(delay))
  }

  /** Sizes written as digits and a unit: a BUFFER_SIZE of "<n>MB" holds
      n + 1000000 bytes (so "100MB" is 1000100), and a MIN_BACKUP_SIZE of
      "<m>B" holds m + 1. */
  lemma BackupConfigOfRenderedSizes(s: ScriptSettings, path: string, buffer: nat, min: nat)
    requires s.config.Get("BACKUP_CONFIG", "PATH") == Success(path)
    requires s.config.Get("BACKUP_CONFIG", "BUFFER_SIZE") == Success(NatToDecimal(buffer) + "MB")
    requires s.config.Get("BACKUP_CONFIG", "MIN_BACKUP_SIZE") == Success(NatToDecimal(min) + "B")
    ensures GetBackupConfig(s) == Success(BackupConfig(path, buffer + 1000000, min + 1))
  {
    RenderedSizes(buffer, min);
    var r := GetBackupConfig(s);
    assert r.Success?;
    assert r.value == BackupConfig(r.value.path, r.value.bufferSize, r.value.minBackupSize);
  }

  /** The two sizes of the lemma above, as `to_bytes` reads them. */
  lemma RenderedSizes(buffer: nat, min: nat)
    ensures ToBytes(NatToDecimal(buffer) + "MB") == Success(buffer + 1000000)
    ensures ToBytes(NatToDecimal(min) + "B") == Success(min + 1)
  {
    assert ToBytes(NatToDecimal(buffer) + "MB") == Success(buffer + 1000000) by {
      ToBytesTwoLetterRendered(buffer, "MB");
      assert SizeUnit("MB") == Some(1000000);
    }
    assert ToBytes(NatToDecimal(min) + "B") == Success(min + 1) by {
      ToBytesOneLetterRendered(min);
    }
  }

  // ---------------------------------------------------------------------
  // get_node_config_dict

  /** `list.remove(x)`: drop the first occurrence, or fail with ValueError. */
  function RemoveFirst(s: seq<string>, x: string): (r: Option<seq<string>>)
    ensures r.Some? <==> x in s
    ensures r.Some? ==> multiset(r.value) == multiset(s) - multiset{x}
  {
    if s == [] then None
    else if s[0] == x then
      assert s == [s[0]] + s[1..];
      Some(s[1..])
    else
      match RemoveFirst(s[1..], x)
      case None => None
      case Some(t) =>
        assert s == [s[0]] + s[1..];
        Some([s[0]] + t)
  }

  /** `list.remove` drops the FIRST occurrence and keeps the order of the
      rest. */
  lemma {:induction false} RemoveFirstKeepsOrder(s: seq<string>, x: string)
    requires x in s
    ensures exists i :: 0 <= i < |s| && s[i] == x && x !in s[..i] && RemoveFirst(s, x) == Some(s[..i] + s[i + 1..])
  {
    if s[0] == x {
      assert s[..0] + s[0 + 1..] == s[1..];
      assert x !in s[..0];
    } else {
      var t := s[1..];
      RemoveFirstKeepsOrder(t, x);
      var i :| 0 <= i < |t| && t[i] == x && x !in t[..i] && RemoveFirst(t, x) == Some(t[..i] + t[i + 1..]);
      RemoveFirstStep(s, x, i);
    }
  }

  /** The first occurrence in the tail, shifted by the head that is kept. */
  lemma RemoveFirstStep(s: seq<string>, x: string, i: nat)
    requires s != [] && s[0] != x && i < |s| - 1
    requires s[1..][i] == x && x !in s[1..][..i] && RemoveFirst(s[1..], x) == Some(s[1..][..i] + s[1..][i + 1..])
    ensures s[i + 1] == x && x !in s[..i + 1] && RemoveFirst(s, x) == Some(s[..i + 1] + s[i + 2..])
  {
    var t := s[1..];
    assert RemoveFirst(s, x) == Some([s[0]] + (t[..i] + t[i + 1..]));
    ConsSplit(s, i);
  }

  /** Cutting out element `i + 1` of a list is keeping its head and cutting
      element `i` out of its tail. */
  lemma ConsSplit(s: seq<string>, i: nat)
    requires i < |s| - 1
    ensures s[..i + 1] == [s[0]] + s[1..][..i]
    ensures s[..i + 1] + s[i + 2..] == [s[0]] + (s[1..][..i] + s[1..][i + 1..])
  {
    var t := s[1..];
    assert s[..i + 1] == [s[0]] + t[..i];
    assert s[i + 2..] == t[i + 1..];
  }

  /** No name occurs twice: ConfigParser keeps its sections as dictionary
      keys. */
  predicate Distinct(s: seq<string>) {
    forall i, j :: 0 <= i < j < |s| ==> s[i] != s[j]
  }

  /** The sections of `s` that are not named in `xs`, in their order. */
  function Without(s: seq<string>, xs: seq<string>): (r: seq<string>)
    ensures forall y :: y in r <==> y in s && y !in xs
  {
    if s == [] then []
    else (if s[0] in xs then [] else [s[0]]) + Without(s[1..], xs)
  }

  /** A name absent from `s` changes nothing in `Without`. */
  lemma {:induction false} WithoutIgnoresAbsent(s: seq<string>, xs: seq<string>, x: string)
    requires x !in s
    ensures Without(s, xs + [x]) == Without(s, xs)
  {
    if s != [] {
      assert s[0] in xs + [x] <==> s[0] in xs;
      WithoutIgnoresAbsent(s[1..], xs, x);
    }
  }

  /** In a list without repeats, removing one more present name from what
      `Without` leaves is filtering it out as well. */
  lemma {:induction false} RemoveFromWithout(s: seq<string>, init: seq<string>, x: string)
    requires Distinct(s) && x in s && x !in init
    ensures RemoveFirst(Without(s, init), x) == Some(Without(s, init + [x]))
  {
    var t := s[1..];
    assert Distinct(t);
    if s[0] == x {
      assert x !in t;
      assert Without(s, init) == [x] + Without(t, init);
      assert Without(s, init + [x]) == Without(t, init + [x]);
      WithoutIgnoresAbsent(t, init, x);
    } else {
      RemoveFromWithout(t, init, x);
      var w := Without(t, init);
      if s[0] in init {
        assert Without(s, init) == w;
        assert Without(s, init + [x]) == Without(t, init + [x]);
      } else {
        assert Without(s, init) == [s[0]] + w;
        assert Without(s, init + [x]) == [s[0]] + Without(t, init + [x]);
        assert ([s[0]] + w)[0] == s[0] && ([s[0]] + w)[1..] == w;
      }
    }
  }

  /** With distinct sections that hold every name once, the successive
      removals leave the other sections in their original order. */
  lemma {:induction false} RemoveAllKeepsOrder(s: seq<string>, xs: seq<string>)
    requires Distinct(s) && Distinct(xs) && forall x :: x in xs ==> x in s
    ensures RemoveAll(s, xs) == Success(Without(s, xs))
    decreases |xs|
  {
    if xs == [] {
      assert forall i :: 0 <= i < |s| ==> s[i] !in xs;
      WithoutNothing(s, xs);
    } else {
      var init, x := xs[..|xs| - 1], xs[|xs| - 1];
      assert xs == init + [x];
      assert Distinct(init);
      RemoveAllKeepsOrder(s, init);
      assert x !in init;
      RemoveFromWithout(s, init, x);
    }
  }

  /** Filtering out names none of which occurs leaves the list as it is. */
  lemma {:induction false} WithoutNothing(s: seq<string>, xs: seq<string>)
    requires forall i :: 0 <= i < |s| ==> s[i] !in xs
    ensures Without(s, xs) == s
  {
    if s != [] {
      WithoutNothing(s[1..], xs);
    }
  }

  /** The sections that are not nodes, removed in this order. */
  const ReservedSections: seq<string> := ["SUPPORT_CONTACT", "BACKUP_CONFIG", "DELAY", "OMBS_CONFIG"]

  /** Successive `list.remove` calls, stopping at the first that fails. */
  function RemoveAll(s: seq<string>, xs: seq<string>): Result<seq<string>, SettingsError>
  {
    if xs == [] then Success(s)
    else
      var t :- RemoveAll(s, xs[..|xs| - 1]);
      match RemoveFirst(t, xs[|xs| - 1])
      case Some(u) => Success(u)
      case None => Failure(ReservedSectionMissing(xs[|xs| - 1]))
  }

  /** The node sections: what is left of the section list once the four
      reserved sections are removed. */
  function NodeSections(sections: seq<string>): Result<seq<string>, SettingsError> {
    RemoveAll(sections, ReservedSections)
  }

  /** Removing a list of names succeeds exactly when the section list holds
      each of them as often as the list names it, and leaves the other
      sections. */
  lemma {:induction false} RemoveAllMeaning(s: seq<string>, xs: seq<string>)
    ensures RemoveAll(s, xs).Success? <==> multiset(xs) <= multiset(s)
    ensures RemoveAll(s, xs).Success? ==> multiset(RemoveAll(s, xs).value) == multiset(s) - multiset(xs)
    ensures RemoveAll(s, xs).Failure? ==> RemoveAll(s, xs).error.ReservedSectionMissing? && RemoveAll(s, xs).error.section in xs
  {
    if xs != [] {
      var init, x := xs[..|xs| - 1], xs[|xs| - 1];
      assert xs == init + [x];
      RemoveAllMeaning(s, init);
      if RemoveAll(s, init).Success? {
        var t := RemoveAll(s, init).value;
        RemoveOneMore(s, init, x, t);
      } else {
        CannotRemoveMore(s, init, x);
      }
    }
  }

  /** With the names `init` removed from `s` leaving `t`, one more name `x`
      can be removed exactly when `s` holds `init + [x]`, and what is left
      is `s` without all of them. */
  lemma RemoveOneMore(s: seq<string>, init: seq<string>, x: string, t: seq<string>)
    requires multiset(init) <= multiset(s) && multiset(t) == multiset(s) - multiset(init)
    ensures x in t <==> multiset(init + [x]) <= multiset(s)
    ensures x in t ==> multiset(t) - multiset{x} == multiset(s) - multiset(init + [x])
  {
    assert multiset(init + [x]) == multiset(init) + multiset{x};
    assert multiset(t)[x] == multiset(s)[x] - multiset(init)[x];
    if x in t {
      assert multiset(init + [x]) <= multiset(s) by {
        forall y ensures multiset(init + [x])[y] <= multiset(s)[y] {
          if y != x { assert multiset(init + [x])[y] == multiset(init)[y]; }
        }
      }
    } else {
      assert multiset(init + [x])[x] > multiset(s)[x];
    }
  }

  /** Names `s` does not hold stay missing when one more is asked for. */
  lemma CannotRemoveMore(s: seq<string>, init: seq<string>, x: string)
    requires !(multiset(init) <= multiset(s))
    ensures !(multiset(init + [x]) <= multiset(s))
  {
    var y :| multiset(init)[y] > multiset(s)[y];
    assert multiset(init + [x]) == multiset(init) + multiset{x};
    assert multiset(init + [x])[y] >= multiset(init)[y];
  }

  /** The reserved sections must all be present (each `remove` raises
      ValueError otherwise); what remains is the section list without them. */
  lemma NodeSectionsMeaning(sections: seq<string>)
    ensures NodeSections(sections).Success? <==> forall x :: x in ReservedSections ==> x in sections
    ensures NodeSections(sections).Success? ==>
      multiset(NodeSections(sections).value) == multiset(sections) - multiset(ReservedSections)
    ensures NodeSections(sections).Failure? ==>
      NodeSections(sections).error.ReservedSectionMissing? && NodeSections(sections).error.section in ReservedSections
  {
    RemoveAllMeaning(sections, ReservedSections);
    var r := ReservedSections;
    var m := multiset(r);
    assert m == multiset{"SUPPORT_CONTACT", "BACKUP_CONFIG", "DELAY", "OMBS_CONFIG"};
    if forall x :: x in r ==> x in sections {
      forall y ensures m[y] <= multiset(sections)[y] {
        if y in r { assert m[y] == 1; assert y in multiset(sections); }
        else { assert m[y] == 0; }
      }
    } else {
      var x :| x in r && x !in sections;
      assert m[x] >= 1;
    }
  }

  /** For the distinct sections ConfigParser returns, the node sections are
      the sections other than the reserved ones, in file order. */
  lemma NodeSectionsInOrder(sections: seq<string>)
    requires Distinct(sections) && forall x :: x in ReservedSections ==> x in sections
    ensures NodeSections(sections) == Success(Without(sections, ReservedSections))
  {
    RemoveAllKeepsOrder(sections, ReservedSections);
  }

  /** For a parsed file holding the four reserved sections, the node
      sections are the others, in file order. */
  lemma ParsedNodeSectionsInOrder(c: ConfigFile)
    requires c.Valid() && forall x :: x in ReservedSections ==> x in c.sections
    ensures NodeSections(c.sections) == Success(Without(c.sections, ReservedSections))
  {
    NodeSectionsInOrder(c.sections);
  }

  /** Failing removals stay failed whatever is removed after them. */
  lemma {:induction false} RemoveAllFailureSticks(s: seq<string>, xs: seq<string>, ys: seq<string>)
    requires RemoveAll(s, xs).Failure?
    ensures RemoveAll(s, xs + ys) == RemoveAll(s, xs)
    decreases |ys|
  {
    if ys == [] {
      assert xs + ys == xs;
    } else {
      var ys' := ys[..|ys| - 1];
      assert (xs + ys)[..|xs + ys| - 1] == xs + ys';
      RemoveAllFailureSticks(s, xs, ys');
    }
  }

  /** `sections.remove(...)` for each reserved section in turn. */
  method RemoveReserved(sections: seq<string>) returns (r: Result<seq<string>, SettingsError>)
    ensures r == NodeSections(sections)
  {
    r := RemoveEach(sections, ReservedSections);
  }

  /** The removals of the first `k + 1` names, after those of the first `k`
      left `t`. */
  lemma RemovePrefixStep(s: seq<string>, names: seq<string>, k: nat, t: seq<string>)
    requires k < |names| && RemoveAll(s, names[..k]) == Success(t)
    ensures RemoveFirst(t, names[k]).Some? ==> RemoveAll(s, names[..k + 1]) == Success(RemoveFirst(t, names[k]).value)
    ensures RemoveFirst(t, names[k]).None? ==> RemoveAll(s, names[..k + 1]) == Failure(ReservedSectionMissing(names[k]))
  {
    assert names[..k + 1] == names[..k] + [names[k]];
    RemoveAllStep(s, names[..k], t, names[k]);
  }

  /** Once the removals of the first `j` names fail, so do all of them, with
      the same error. */
  lemma RemovePrefixFails(s: seq<string>, names: seq<string>, j: nat)
    requires j <= |names| && RemoveAll(s, names[..j]).Failure?
    ensures RemoveAll(s, names) == RemoveAll(s, names[..j])
  {
    assert names == names[..j] + names[j..];
    RemoveAllFailureSticks(s, names[..j], names[j..]);
  }

  /** One more removal after removals that left `t`. */
  lemma RemoveAllStep(s: seq<string>, xs: seq<string>, t: seq<string>, x: string)
    requires RemoveAll(s, xs) == Success(t)
    ensures RemoveFirst(t, x).Some? ==> RemoveAll(s, xs + [x]) == Success(RemoveFirst(t, x).value)
    ensures RemoveFirst(t, x).None? ==> RemoveAll(s, xs + [x]) == Failure(ReservedSectionMissing(x))
  {
    assert (xs + [x])[..|xs|] == xs;
  }

  /** Successive `sections.remove(name)` calls, one per name, stopping at
      the first that raises. */
  method RemoveEach(sections: seq<string>, names: seq<string>) returns (r: Result<seq<string>, SettingsError>)
    ensures r == RemoveAll(sections, names)
  {
    var rest := sections;
    var k := 0;
    while k < |names|
      invariant 0 <= k <= |names|
      invariant RemoveAll(sections, names[..k]) == Success(rest)
    {
      RemovePrefixStep(sections, names, k, rest);
      var removed := RemoveFirst(rest, names[k]);
      if removed.None? {
        RemovePrefixFails(sections, names, k + 1);
        return Failure(ReservedSectionMissing(names[k]));
      }
      rest := removed.value;
      k := k + 1;
    }
    assert names[..k] == names;
    return Success(rest);
  }

  /** The node read from `section`, given the host name it is stored under:
      IP, TYPE, EQ_PROMPT, USERNAME and PASSWORD, read in this order. */
  function ReadNodeFields(c: ConfigFile, section: string, hostname: string): (r: Result<NodeConfig, LookupError>)
    ensures r.Success? ==> r.value.hostname == hostname
  {
    var ip :- c.Get(section, "IP");
    var nodeType :- c.Get(section, "TYPE");
    var prompt :- c.Get(section, "EQ_PROMPT");
    var username :- c.Get(section, "USERNAME");
    var password :- c.Get(section, "PASSWORD");
    Success(NodeConfig(hostname, ip, nodeType, prompt, username, password))
  }

  /** Every field of the node is the option of the same name, and the read
      fails exactly when one of the five options is missing. */
  lemma ReadNodeFieldsMeaning(c: ConfigFile, section: string, hostname: string)
    ensures ReadNodeFields(c, section, hostname).Success? <==>
      c.Get(section, "IP").Success? && c.Get(section, "TYPE").Success? &&
      c.Get(section, "EQ_PROMPT").Success? && c.Get(section, "USERNAME").Success? && c.Get(section, "PASSWORD").Success?
    ensures ReadNodeFields(c, section, hostname).Success? ==>
      ReadNodeFields(c, section, hostname).value == NodeConfig(hostname, c.Get(section, "IP").value, c.Get(section, "TYPE").value,
        c.Get(section, "EQ_PROMPT").value, c.Get(section, "USERNAME").value, c.Get(section, "PASSWORD").value)
  {
  }

  /** The node of one section in the all-nodes loop: HOSTNAME comes first. */
  function ReadNodeSection(c: ConfigFile, section: string): (r: Result<NodeConfig, LookupError>)
    ensures r.Success? ==> c.Get(section, "HOSTNAME") == Success(r.value.hostname)
  {
    var hostname :- c.Get(section, "HOSTNAME");
    ReadNodeFields(c, section, hostname)
  }

  /** How one section is turned into a node. */
  type NodeReader = string -> Result<NodeConfig, LookupError>

  /** A loop over sections as a definition: the entries of the sections read
      so far, or the lookup that failed first. */
  function ReadEach(read: NodeReader, sections: seq<string>): Result<seq<(string, NodeConfig)>, SettingsError>
  {
    if sections == [] then Success([])
    else
      var entries :- ReadEach(read, sections[..|sections| - 1]);
      var last := sections[|sections| - 1];
      match read(last)
      case Success(n) => Success(entries + [(last, n)])
      case Failure(e) => Failure(NodeLookupFailed(e))
  }

  /** The loop fails exactly when some section cannot be read, and then
      with that lookup error. */
  lemma {:induction false} ReadEachFailMeaning(read: NodeReader, sections: seq<string>)
    ensures ReadEach(read, sections).Success? <==>
      forall i :: 0 <= i < |sections| ==> read(sections[i]).Success?
    ensures ReadEach(read, sections).Failure? ==> ReadEach(read, sections).error.NodeLookupFailed?
  {
    if sections != [] {
      var init := sections[..|sections| - 1];
      ReadEachFailMeaning(read, init);
      if ReadEach(read, init).Failure? {
        var i :| 0 <= i < |init| && !read(init[i]).Success?;
        assert init[i] == sections[i];
      } else {
        assert forall i :: 0 <= i < |init| ==> init[i] == sections[i];
      }
    }
  }

  /** One entry per section, in section order, keyed by the section and
      holding what was read from it. */
  lemma {:induction false} ReadEachMeaning(read: NodeReader, sections: seq<string>)
    requires ReadEach(read, sections).Success?
    ensures |ReadEach(read, sections).value| == |sections|
    ensures forall i :: 0 <= i < |sections| ==>
      ReadEach(read, sections).value[i].0 == sections[i] &&
      read(sections[i]) == Success(ReadEach(read, sections).value[i].1)
  {
    if sections != [] {
      var init := sections[..|sections| - 1];
      var last := sections[|sections| - 1];
      ReadEachMeaning(read, init);
      var e := ReadEach(read, init).value;
      var r := ReadEach(read, sections).value;
      assert r == e + [(last, read(last).value)];
      forall i | 0 <= i < |sections|
        ensures r[i].0 == sections[i] && read(sections[i]) == Success(r[i].1)
      {
        if i < |init| { assert init[i] == sections[i]; }
      }
    }
  }

  /** A failed read stays failed however many sections follow. */
  lemma {:induction false} ReadEachFailureSticks(read: NodeReader, sections: seq<string>, rest: seq<string>)
    requires ReadEach(read, sections).Failure?
    ensures ReadEach(read, sections + rest) == ReadEach(read, sections)
    decreases |rest|
  {
    if rest == [] {
      assert sections + rest == sections;
    } else {
      var rest' := rest[..|rest| - 1];
      assert (sections + rest)[..|sections + rest| - 1] == sections + rest';
      ReadEachFailureSticks(read, sections, rest');
    }
  }

  /** One more section read after a run of sections that all succeeded. */
  lemma ReadEachStep(read: NodeReader, sections: seq<string>, i: nat)
    requires i < |sections| && ReadEach(read, sections[..i]).Success?
    ensures read(sections[i]).Success? ==>
      ReadEach(read, sections[..i + 1]) == Success(ReadEach(read, sections[..i]).value + [(sections[i], read(sections[i]).value)])
    ensures read(sections[i]).Failure? ==>
      ReadEach(read, sections[..i + 1]) == Failure(NodeLookupFailed(read(sections[i]).error))
  {
    assert sections[..i + 1][..i] == sections[..i];
  }

  /** The loop over the node sections, each read by `ReadNodeSection`. */
  function NodeEntries(c: ConfigFile, sections: seq<string>): Result<seq<(string, NodeConfig)>, SettingsError> {
    ReadEach(SectionReader(c), sections)
  }

  function SectionReader(c: ConfigFile): NodeReader {
    section => ReadNodeSection(c, section)
  }

  /** `get_node_config_dict(hostname)`. The dictionary it returns is a list
      of (key, node) pairs in section order. */
  function NodeConfigDict(c: ConfigFile, hostname: Option<string>): Result<seq<(string, NodeConfig)>, SettingsError>
  {
    var nodeSections :- NodeSections(c.sections);
    if hostname.Some? && !IsBlank(hostname.value) then
      match ReadNodeFields(c, hostname.value, hostname.value)
      case Success(n) => Success([(hostname.value, n)])
      case Failure(e) => Failure(NodeLookupFailed(e))
    else NodeEntries(c, nodeSections)
  }

  /** The `for section in sections` loop. */
  method ReadNodes(c: ConfigFile, sections: seq<string>) returns (r: Result<seq<(string, NodeConfig)>, SettingsError>)
    ensures r == NodeEntries(c, sections)
  {
    r := ReadSections(SectionReader(c), sections);
  }

  /** The loop itself, for any way of reading one section. */
  method ReadSections(read: NodeReader, sections: seq<string>) returns (r: Result<seq<(string, NodeConfig)>, SettingsError>)
    ensures r == ReadEach(read, sections)
  {
    var entries: seq<(string, NodeConfig)> := [];
    var i := 0;
    while i < |sections|
      invariant 0 <= i <= |sections|
      invariant ReadEach(read, sections[..i]) == Success(entries)
    {
      ReadEachStep(read, sections, i);
      var section := sections[i];
      var n := read(section);
      if n.Failure? {
        assert sections == sections[..i + 1] + sections[i + 1..];
        ReadEachFailureSticks(read, sections[..i + 1], sections[i + 1..]);
        return Failure(NodeLookupFailed(n.error));
      }
      entries := entries + [(section, n.value)];
      i := i + 1;
    }
    assert sections[..i] == sections;
    return Success(entries);
  }

  /** `get_node_config_dict(hostname)`: remove the reserved sections from a
      copy of the section list, then read one node or every node. */
  method GetNodeConfigDict(s: ScriptSettings, hostname: Option<string>) returns (r: Result<seq<(string, NodeConfig)>, SettingsError>)
    ensures r == NodeConfigDict(s.config, hostname)
  {
    var sections := RemoveReserved(s.config.sections);
    if sections.Failure? {
      return Failure(sections.error);
    }
    if hostname.Some? {
      StripEmptyIffBlank(hostname.value);
      if Strip(hostname.value) != "" {
        var n := ReadNodeFields(s.config, hostname.value, hostname.value);
        if n.Failure? {
          return Failure(NodeLookupFailed(n.error));
        }
        return Success([(hostname.value, n.value)]);
      }
    }
    r := ReadNodes(s.config, sections.value);
  }

  /** Without a host name, every node section yields one entry keyed by the
      section and read from it, in section order. */
  lemma AllNodesRead(c: ConfigFile, hostname: Option<string>, nodes: seq<string>)
    requires hostname.None? || IsBlank(hostname.value)
    requires NodeSections(c.sections) == Success(nodes)
    requires forall x :: x in nodes ==> ReadNodeSection(c, x).Success?
    ensures NodeConfigDict(c, hostname).Success?
    ensures |NodeConfigDict(c, hostname).value| == |nodes|
    ensures forall i :: 0 <= i < |nodes| ==>
      NodeConfigDict(c, hostname).value[i].0 == nodes[i] &&
      ReadNodeSection(c, nodes[i]) == Success(NodeConfigDict(c, hostname).value[i].1)
  {
    ReadEachFailMeaning(SectionReader(c), nodes);
    ReadEachMeaning(SectionReader(c), nodes);
  }

  /** With a non-blank host name, the dictionary holds exactly that node,
      keyed and named by the argument and read from its section. */
  lemma OneNodeRead(c: ConfigFile, hostname: string)
    requires NodeSections(c.sections).Success?
    requires !IsBlank(hostname)
    requires ReadNodeFields(c, hostname, hostname).Success?
    ensures NodeConfigDict(c, Some(hostname)) == Success([(hostname, ReadNodeFields(c, hostname, hostname).value)])
    ensures NodeConfigDict(c, Some(hostname)).value[0].1.hostname == hostname
  {
  }

  /** A missing reserved section raises before any node is read, with or
      without a host name. */
  lemma MissingReservedSection(c: ConfigFile, hostname: Option<string>, x: string)
    requires x in ReservedSections && x !in c.sections
    ensures NodeConfigDict(c, hostname).Failure? && NodeConfigDict(c, hostname).error.ReservedSectionMissing?
  {
    NodeSectionsMeaning(c.sections);
  }

  // ---------------------------------------------------------------------
  // The configuration file itself

  /** `_get_config_file_path()`: the file under the user's configuration
      directory when that directory is readable, else under the package's
      own `config` directory. */
  function GetConfigFilePath(home: string, packageDir: string, fileName: string, readable: set<string>): (r: string)
    ensures var system := PathJoin(PathJoin(home, "network_backup_offsite"), "config");
      system in readable ==> r == PathJoin(system, fileName)
    ensures var system := PathJoin(PathJoin(home, "network_backup_offsite"), "config");
      system !in readable ==> r == PathJoin(PathJoin(packageDir, "config"), fileName)
  {
    var root := PathJoin(PathJoin(home, "network_backup_offsite"), "config");
    var root' := if root in readable then root else PathJoin(packageDir, "config");
    PathJoin(root', fileName)
  }

  /** The file name ends the path whichever directory is chosen. */
  lemma ConfigFilePathEndsWithName(home: string, packageDir: string, fileName: string, readable: set<string>)
    ensures var r := GetConfigFilePath(home, packageDir, fileName, readable);
      |fileName| <= |r| && r[|r| - |fileName|..] == fileName
  {
  }

  /** Why ConfigParser could not read the file. */
  datatype ReadProblem = Unparsable(message: string) | Unreadable(message: string)

  /** `_get_config_details()` on the file at `path`: its accessibility and
      what parsing it yields are given. */
  function GetConfigDetails(path: string, accessible: bool, parsed: Result<ParsedConfig, ReadProblem>): (r: Result<ConfigFile, BasicException>)
    ensures !accessible ==> r == Failure(BackupSettingsException("Configuration file is not accessible '" + path + "'", Some(ConfigurationFileReadError)))
    ensures r.Success? <==> accessible && parsed.Success?
    ensures r.Success? ==> r.value == parsed.value && r.value.Valid()
    ensures accessible && parsed.Failure? && parsed.error.Unparsable? ==> r.error.code == ConfigurationFileParsingError
    ensures accessible && parsed.Failure? && parsed.error.Unreadable? ==> r.error.code == ConfigurationFileReadError
  {
    if !accessible then
      Failure(BackupSettingsException("Configuration file is not accessible '" + path + "'", Some(ConfigurationFileReadError)))
    else
      match parsed
      case Success(c) => Success(c)
      case Failure(Unparsable(m)) =>
        Failure(BackupSettingsException("Parsing configuration file error: " + m, Some(ConfigurationFileParsingError)))
      case Failure(Unreadable(m)) =>
        Failure(BackupSettingsException("Configuration file error: " + m, Some(ConfigurationFileReadError)))
  }

  /** `ScriptSettings(config_file_name, logger)`: locate the file, then read
      it. */
  function MakeScriptSettings(fileName: string, home: string, packageDir: string, readable: set<string>,
                              parsed: Result<ParsedConfig, ReadProblem>): (r: Result<ScriptSettings, BasicException>)
    ensures var path := GetConfigFilePath(home, packageDir, fileName, readable);
      r.Success? <==> path in readable && parsed.Success?
    ensures r.Success? ==> r.value == ScriptSettings(fileName, GetConfigFilePath(home, packageDir, fileName, readable), parsed.value)
    ensures r.Success? ==> r.value.config.Valid()
    ensures r.Failure? ==> r.error.code == ConfigurationFileReadError || r.error.code == ConfigurationFileParsingError
  {
    var path := GetConfigFilePath(home, packageDir, fileName, readable);
    var config :- GetConfigDetails(path, path in readable, parsed);
    Success(ScriptSettings(fileName, path, config))
  }
}
