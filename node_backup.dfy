/** node_backup_handler.py: the backup folder of the day, and the SSH
    session that copies the configuration of one network device into a file
    of that folder. The session runs against an `OnsiteServer`; the pure
    function `NodeRun` says step by step what it does, and the lemmas below
    spell out the file it leaves and the dialogue it holds. */
module NodeBackup {
  import opened Strs
  import opened Wrappers
  import opened Utils
  import opened BackupSettings
  import opened Onsite

  // ---------------------------------------------------------------------
  // Constants

  /** A line of 83 dashes. */
  const Separator: string :=
    "-----------------------------------------------------------------------------------\n"
  /** The spawn timeout, also used by every `expect` that names none. */
  const TimeOut1: nat := 120
  /** The timeout of the wait for the device prompt. */
  const TimeOut2: nat := 240

  const PasswordPrompt: string := "assword:"
  const SrxCommand: string := "show config | display set | no-more"
  const DisablePaging: string := "disable clipaging"
  const SwitchCommand: string := "show configuration"
  const Unsupported: string := "Equipment not supported!"

  // ---------------------------------------------------------------------
  // The date stamp

  /** The clock reading, which the tool takes from `datetime.now()`. */
  datatype Date = Date(year: nat, month: nat, day: nat)

  /** The dates `strftime` formats: Python 2 refuses years before 1900. */
  predicate ValidDate(d: Date) {
    1900 <= d.year <= 9999 && 1 <= d.month <= 12 && 1 <= d.day <= 31
  }

  function Digits2(n: nat): string
    requires n < 100
  {
    [DigitChar(n / 10), DigitChar(n % 10)]
  }

  /** `strftime("%Y%m%d")`: eight digits, zero-padded. */
  function Stamp(d: Date): (r: string)
    requires ValidDate(d)
    ensures |r| == 8 && forall i :: 0 <= i < 8 ==> IsDigit(r[i])
  {
    Digits2(d.year / 100) + Digits2(d.year % 100) + Digits2(d.month) + Digits2(d.day)
  }

  function Value2(s: string, i: nat): nat
    requires i + 2 <= |s| && IsDigit(s[i]) && IsDigit(s[i + 1])
  {
    DigitValue(s[i]) * 10 + DigitValue(s[i + 1])
  }

  /** Reading an eight-digit stamp back as a date. */
  function ParseStamp(s: string): Date
    requires |s| == 8 && forall i :: 0 <= i < 8 ==> IsDigit(s[i])
  {
    Date(Value2(s, 0) * 100 + Value2(s, 2), Value2(s, 4), Value2(s, 6))
  }

  lemma DigitRoundTrip(d: nat)
    requires d < 10
    ensures DigitValue(DigitChar(d)) == d
  {
  }

  /** The stamp is a faithful rendering: it reads back as the same date. */
  lemma StampRoundTrip(d: Date)
    requires ValidDate(d)
    ensures ParseStamp(Stamp(d)) == d
  {
    var s := Stamp(d);
    DigitRoundTrip(d.year / 100 / 10);
    DigitRoundTrip(d.year / 100 % 10);
    DigitRoundTrip(d.year % 100 / 10);
    DigitRoundTrip(d.year % 100 % 10);
    DigitRoundTrip(d.month / 10);
    DigitRoundTrip(d.month % 10);
    DigitRoundTrip(d.day / 10);
    DigitRoundTrip(d.day % 10);
  }

  /** Different days get different stamps, so two days' folders never clash. */
  lemma StampInjective(d: Date, e: Date)
    requires ValidDate(d) && ValidDate(e) && Stamp(d) == Stamp(e)
    ensures d == e
  {
    StampRoundTrip(d);
    StampRoundTrip(e);
  }

  // ---------------------------------------------------------------------
  // Errors and outcomes

  /** What makes a node backup or the folder creation raise. */
  datatype NodeError =
    | FolderNotCreated(path: string)     // the tool's own Exception
    | FileNotCreated(path: string)       // the failing log call raises AttributeError
    | ConnectionTimedOut(hostname: string)
    | ExpectFailed(pattern: string)      // pexpect TIMEOUT or EOF
    | DelayInvalid(error: ParseError)    // from `to_seconds`
    | WriteFailed(path: string)          // IOError from `open`
  {
    /** The text of the exception, for the exceptions the tool raises
        itself; the others carry a library's text. */
    function Message(): (r: Option<string>)
      ensures r.Some? <==> FolderNotCreated? || ConnectionTimedOut?
    {
      match this
      case FolderNotCreated(p) => Some("Failed to create backup folder " + p + " onsite.")
      case ConnectionTimedOut(h) => Some("Connection timed out. Cannot connect to node: " + h + "!")
      case _ => None
    }
  }

  /** How `create_node_backup` ends: it returns after saving the captured
      configuration, returns after noting an unsupported type, or raises. */
  datatype NodeOutcome = Saved | NotSupported | Failed(error: NodeError)

  // ---------------------------------------------------------------------
  // create_backup_folder_onsite

  /** The folder of the day: `join(path, template + YYYYMMDD)`. */
  function BackupFolderPath(template: string, path: string, d: Date): string
    requires ValidDate(d)
  {
    PathJoin(path, template + Stamp(d))
  }

  /** `create_backup_folder_onsite(template, path)` as a step of the world. */
  function BackupFolderCreated(w: World, template: string, path: string, d: Date): (r: (World, Result<string, NodeError>))
    requires ValidDate(d)
  {
    var p := BackupFolderPath(template, path, d);
    if w.Exists(p) then (w, Success(p))
    else
      var created := w.CreatePath(p);
      if created.1 then (created.0, Success(p)) else (created.0, Failure(FolderNotCreated(p)))
  }

  /** The folder is returned whenever it exists afterwards; `create_path` is
      only asked for when it did not exist before, and only its refusal
      raises, naming the folder. */
  lemma BackupFolderCreatedMeaning(w: World, template: string, path: string, d: Date)
    requires ValidDate(d)
    ensures var p := BackupFolderPath(template, path, d);
      var r := BackupFolderCreated(w, template, path, d);
      (r.1.Success? <==> w.Exists(p) || p !in w.blocked) &&
      (r.1.Success? ==> r.1.value == p && r.0.Exists(p)) &&
      (r.1.Failure? ==> r.1.error == FolderNotCreated(p) && r.0 == w) &&
      (w.Exists(p) ==> r.0 == w)
  {
  }

  /** `create_backup_folder_onsite(template, path, logger)`. */
  method CreateBackupFolderOnsite(server: OnsiteServer, template: string, path: string, d: Date)
    returns (r: Result<string, NodeError>)
    requires ValidDate(d)
    modifies server
    ensures (server.State(), r) == BackupFolderCreated(old(server.State()), template, path, d)
  {
    var p := PathJoin(path, template + Stamp(d));
    if !server.State().Exists(p) {
      var ok := server.CreatePath(p);
      if !ok {
        return Failure(FolderNotCreated(p));
      }
    }
    return Success(p);
  }

  // ---------------------------------------------------------------------
  // write_to_file

  /** All the messages, one after the other. */
  function Concat(messages: seq<string>): string {
    if messages == [] then "" else Concat(messages[..|messages| - 1]) + messages[|messages| - 1]
  }

  /** The events of writing the messages to `path`, in order. */
  function AppendEvents(path: string, messages: seq<string>): (r: seq<Event>)
    ensures |r| == |messages|
    ensures forall i :: 0 <= i < |messages| ==> r[i] == Appended(path, messages[i])
  {
    if messages == [] then []
    else AppendEvents(path, messages[..|messages| - 1]) + [Appended(path, messages[|messages| - 1])]
  }

  /** Appending to a file in a writable folder records the write and
      leaves the folders and the queued replies as they were. */
  lemma AppendFrame(w: World, folder: string, name: string, text: string)
    requires w.Writable(folder)
    ensures var v := w.Append(folder, name, text).0;
      v.trace == w.trace + [Appended(PathJoin(folder, name), text)] && v.dirs == w.dirs &&
      v.spawnReplies == w.spawnReplies && v.expectReplies == w.expectReplies && v.launchReplies == w.launchReplies &&
      v.blocked == w.blocked && v.readOnly == w.readOnly
  {
  }

  /** The world after writing the messages one by one. */
  function AppendAll(w: World, folder: string, name: string, messages: seq<string>): (r: World)
    requires w.Writable(folder)
    ensures r.Writable(folder)
    ensures r.Contents(folder, name) == w.Contents(folder, name) + Concat(messages)
    ensures r.trace == w.trace + AppendEvents(PathJoin(folder, name), messages)
    ensures r.spawnReplies == w.spawnReplies && r.expectReplies == w.expectReplies
    ensures r.launchReplies == w.launchReplies && r.blocked == w.blocked && r.readOnly == w.readOnly
    ensures r.dirs == w.dirs
  {
    if messages == [] then w
    else
      var init, last := messages[..|messages| - 1], messages[|messages| - 1];
      var before := AppendAll(w, folder, name, init);
      var after := before.Append(folder, name, last).0;
      AppendFrame(before, folder, name, last);
      SeqAssoc(w.Contents(folder, name), Concat(init), last);
      SeqAssoc(w.trace, AppendEvents(PathJoin(folder, name), init), [Appended(PathJoin(folder, name), last)]);
      after
  }

  /** `write_to_file(folder/name, messages)`: opening the file for appending
      fails when the folder is not writable; otherwise each message goes at
      the end of the file and nothing already there is lost. */
  function WrittenToFile(w: World, folder: string, name: string, messages: seq<string>): (r: (World, bool))
    ensures r.1 <==> w.Writable(folder)
    ensures r.1 ==> r.0.Contents(folder, name) == w.Contents(folder, name) + Concat(messages)
    ensures !r.1 ==> r.0 == w
  {
    if !w.Writable(folder) then (w, false) else (AppendAll(w, folder, name, messages), true)
  }

  /** `write_to_file(file_name, messages)`. */
  method WriteToFile(server: OnsiteServer, folder: string, name: string, messages: seq<string>) returns (ok: bool)
    modifies server
    ensures (server.State(), ok) == WrittenToFile(old(server.State()), folder, name, messages)
  {
    if !server.State().Writable(folder) {
      return false;
    }
    ghost var w := server.State();
    var i := 0;
    while i < |messages|
      invariant 0 <= i <= |messages|
      invariant server.State() == AppendAll(w, folder, name, messages[..i])
    {
      assert messages[..i + 1][..i] == messages[..i];
      var _ := server.Append(folder, name, messages[i]);
      i := i + 1;
    }
    assert messages[..i] == messages;
    return true;
  }

  // ---------------------------------------------------------------------
  // create_node_backup

  /** The file the node's configuration goes to: the host name in lower
      case, "-backup-" and the date stamp. */
  function BackupFileName(node: NodeConfig, d: Date): string
    requires ValidDate(d)
  {
    Lower(node.hostname) + "-backup-" + Stamp(d)
  }

  /** The three lines every backup file starts with. */
  function Banner(node: NodeConfig): seq<string> {
    [Separator, "Equipment type: " + node.nodeType + " -> " + node.hostname + " with IP: " + node.ip + "\n", Separator]
  }

  /** The last steps of a supported session: wait for `pattern`, write the
      banner and what followed the match, and send "exit". */
  function Capture(w: World, folder: string, name: string, banner: seq<string>, pattern: string): (World, NodeOutcome)
  {
    var (w1, reply) := w.Expect(pattern, TimeOut1);
    if reply.Timeout? then (w1, Failed(ExpectFailed(pattern)))
    else
      var (w2, written) := WrittenToFile(w1, folder, name, banner + [reply.buffer]);
      if !written then (w2, Failed(WriteFailed(PathJoin(folder, name))))
      else (w2.Record(Sent("exit")), Saved)
  }

  /** The "srx" dialect: wait for the prompt, ask for the configuration as
      "set" commands, sleep the configured delay, then capture up to "set". */
  function SrxDialogue(w: World, node: NodeConfig, delay: DelayConfig, folder: string, name: string): (World, NodeOutcome)
  {
    var (w1, prompt) := w.Expect(node.eqPrompt, TimeOut2);
    if prompt.Timeout? then (w1, Failed(ExpectFailed(node.eqPrompt)))
    else
      var w2 := w1.Record(SentLine(SrxCommand));
      match ToSeconds(delay.maxDelay)
      case Failure(e) => (w2, Failed(DelayInvalid(e)))
      case Success(t) => Capture(w2.Record(Slept(t)), folder, name, Banner(node), "set")
  }

  /** The "connectivitySwitch" dialect: wait for the prompt, turn paging
      off, then ask for the listing. */
  function SwitchDialogue(w: World, node: NodeConfig, delay: DelayConfig, folder: string, name: string): (World, NodeOutcome)
  {
    var (w1, prompt) := w.Expect(node.eqPrompt, TimeOut2);
    if prompt.Timeout? then (w1, Failed(ExpectFailed(node.eqPrompt)))
    else SwitchListing(w1.Record(SentLine(DisablePaging)), node, delay, folder, name)
  }

  /** The rest of the "connectivitySwitch" dialect: wait for "#", ask for
      the configuration, sleep the configured delay, then capture up to "#". */
  function SwitchListing(w: World, node: NodeConfig, delay: DelayConfig, folder: string, name: string): (World, NodeOutcome)
  {
    var (w1, hash) := w.Expect("#", TimeOut1);
    if hash.Timeout? then (w1, Failed(ExpectFailed("#")))
    else
      var w2 := w1.Record(SentLine(SwitchCommand));
      match ToSeconds(delay.maxDelay)
      case Failure(e) => (w2, Failed(DelayInvalid(e)))
      case Success(t) => Capture(w2.Record(Slept(t)), folder, name, Banner(node), "#")
  }

  /** Any other type: write the banner and the note, and return. */
  function UnsupportedNote(w: World, node: NodeConfig, folder: string, name: string): (World, NodeOutcome)
  {
    var (w1, written) := WrittenToFile(w, folder, name, Banner(node) + [Unsupported]);
    if !written then (w1, Failed(WriteFailed(PathJoin(folder, name)))) else (w1, NotSupported)
  }

  /** What the session does once logged in, by device type. */
  function Dialogue(w: World, node: NodeConfig, delay: DelayConfig, folder: string, name: string): (World, NodeOutcome)
  {
    if node.nodeType == "srx" then SrxDialogue(w, node, delay, folder, name)
    else if node.nodeType == "connectivitySwitch" then SwitchDialogue(w, node, delay, folder, name)
    else UnsupportedNote(w, node, folder, name)
  }

  /** `create_node_backup(bkp_folder_path)` as a step of the world: create
      the empty file, open the session, log in, then hold the dialogue. */
  function NodeRun(w: World, node: NodeConfig, backup: BackupConfig, delay: DelayConfig, folder: string, d: Date)
    : (World, NodeOutcome)
    requires ValidDate(d)
  {
    var name := BackupFileName(node, d);
    var (w1, created) := w.Truncate(folder, name);
    if !created then (w1, Failed(FileNotCreated(PathJoin(folder, name))))
    else
      var (w2, spawned) := w1.Spawn("ssh " + node.Host(), TimeOut1, backup.bufferSize);
      if !spawned then (w2, Failed(ConnectionTimedOut(node.hostname)))
      else
        var (w3, auth) := w2.Expect(PasswordPrompt, TimeOut1);
        if auth.Timeout? then (w3, Failed(ExpectFailed(PasswordPrompt)))
        else Dialogue(w3.Record(SentLine(node.password)), node, delay, folder, name)
  }

  // ---------------------------------------------------------------------
  // What a session does

  /** The path of the node's backup file in `folder`. */
  function BackupFilePath(node: NodeConfig, folder: string, d: Date): string
    requires ValidDate(d)
  {
    PathJoin(folder, BackupFileName(node, d))
  }

  /** `pexpect.spawn` comes up. */
  predicate SpawnAccepted(w: World) {
    w.spawnReplies == [] || w.spawnReplies[0]
  }

  /** The opening of every session: the file is created empty, the session
      is spawned for `username@ip` and the password is sent at the prompt. */
  function Login(node: NodeConfig, backup: BackupConfig, path: string): seq<Event> {
    [Truncated(path), Spawned("ssh " + node.Host(), TimeOut1, backup.bufferSize),
     Expected(PasswordPrompt, TimeOut1), SentLine(node.password)]
  }

  /** The world once the password has been sent. */
  function LoggedInWorld(w: World, node: NodeConfig, backup: BackupConfig, folder: string, d: Date): World
    requires ValidDate(d)
  {
    var w1 := w.Truncate(folder, BackupFileName(node, d)).0;
    var w2 := w1.Spawn("ssh " + node.Host(), TimeOut1, backup.bufferSize).0;
    w2.Expect(PasswordPrompt, TimeOut1).0.Record(SentLine(node.password))
  }

  /** A run that gets through the login holds the dialogue on an empty
      file, after exactly the four login steps. */
  lemma LoggedIn(w: World, node: NodeConfig, backup: BackupConfig, delay: DelayConfig, folder: string, d: Date)
    requires ValidDate(d) && w.Writable(folder) && SpawnAccepted(w)
    requires w.expectReplies != [] && w.expectReplies[0].Match?
    ensures var v := LoggedInWorld(w, node, backup, folder, d);
      NodeRun(w, node, backup, delay, folder, d) == Dialogue(v, node, delay, folder, BackupFileName(node, d)) &&
      v.trace == w.trace + Login(node, backup, BackupFilePath(node, folder, d)) &&
      v.Writable(folder) && v.Contents(folder, BackupFileName(node, d)) == "" &&
      v.expectReplies == w.expectReplies[1..]
  {
    var name := BackupFileName(node, d);
    var w1 := w.Truncate(folder, name).0;
    assert w1.trace == w.trace + [Truncated(PathJoin(folder, name))] && w1.expectReplies == w.expectReplies;
    var w2 := w1.Spawn("ssh " + node.Host(), TimeOut1, backup.bufferSize).0;
    var w3 := w2.Expect(PasswordPrompt, TimeOut1).0;
    assert w3.expectReplies == w.expectReplies[1..];
  }

  /** A folder the file cannot be created in makes the run raise before any
      session is opened, and nothing changes. */
  lemma UnwritableFolder(w: World, node: NodeConfig, backup: BackupConfig, delay: DelayConfig, folder: string, d: Date)
    requires ValidDate(d) && !w.Writable(folder)
    ensures NodeRun(w, node, backup, delay, folder, d) == (w, Failed(FileNotCreated(BackupFilePath(node, folder, d))))
  {
  }

  /** Whatever the device type, the run logs in before it looks at the
      type: the first four steps are always the same. */
  lemma LoginComesFirst(w: World, node: NodeConfig, backup: BackupConfig, delay: DelayConfig, folder: string, d: Date)
    requires ValidDate(d) && w.Writable(folder) && SpawnAccepted(w)
    requires w.expectReplies != [] && w.expectReplies[0].Match?
    ensures var r := NodeRun(w, node, backup, delay, folder, d);
      |r.0.trace| >= |w.trace| + 4 &&
      r.0.trace[..|w.trace| + 4] == w.trace + Login(node, backup, BackupFilePath(node, folder, d))
  {
    LoggedIn(w, node, backup, delay, folder, d);
    DialogueMeaning(LoggedInWorld(w, node, backup, folder, d), node, delay, folder, BackupFileName(node, d));
  }

  /** No password prompt, no password: the run raises after spawning and
      has sent nothing to the device. */
  lemma NoPromptNoPassword(w: World, node: NodeConfig, backup: BackupConfig, delay: DelayConfig, folder: string, d: Date)
    requires ValidDate(d) && w.Writable(folder) && SpawnAccepted(w)
    requires w.expectReplies == [] || w.expectReplies[0].Timeout?
    ensures var r := NodeRun(w, node, backup, delay, folder, d);
      r.1 == Failed(ExpectFailed(PasswordPrompt)) &&
      r.0.trace == w.trace + Login(node, backup, BackupFilePath(node, folder, d))[..3]
  {
  }

  /** The end of a supported session: a timeout raises and leaves the file
      as it was; a match saves the banner and what followed the match, then
      sends "exit". */
  lemma CaptureMeaning(w: World, folder: string, name: string, banner: seq<string>, pattern: string)
    requires w.Writable(folder)
    ensures var r := Capture(w, folder, name, banner, pattern);
      (r.1 == Saved || r.1 == Failed(ExpectFailed(pattern))) &&
      (r.1 == Saved <==> w.expectReplies != [] && w.expectReplies[0].Match?) &&
      (r.1 == Saved ==>
        r.0.trace == w.trace + [Expected(pattern, TimeOut1)] +
          AppendEvents(PathJoin(folder, name), banner + [w.expectReplies[0].buffer]) + [Sent("exit")] &&
        r.0.Contents(folder, name) == w.Contents(folder, name) + Concat(banner + [w.expectReplies[0].buffer])) &&
      (r.1 != Saved ==> r.0.trace == w.trace + [Expected(pattern, TimeOut1)] && r.0.files == w.files)
  {
    var (w1, reply) := w.Expect(pattern, TimeOut1);
    if reply.Match? {
      var messages := banner + [reply.buffer];
      var w2 := AppendAll(w1, folder, name, messages);
      assert w1.Contents(folder, name) == w.Contents(folder, name);
      assert Capture(w, folder, name, banner, pattern) == (w2.Record(Sent("exit")), Saved);
    }
  }

  /** The "srx" dialect with a device that answers every prompt: the
      prompt is awaited for 240 seconds, the "display set" listing is asked
      for, the run sleeps the configured delay, waits for "set", writes the
      banner and what followed it, and sends "exit". */
  lemma SrxDialogueSaved(v: World, node: NodeConfig, delay: DelayConfig, folder: string, name: string,
                         b: string, c: string, t: nat)
    requires v.Writable(folder)
    requires |v.expectReplies| >= 2 && v.expectReplies[..2] == [Match(b), Match(c)]
    requires ToSeconds(delay.maxDelay) == Success(t)
    ensures var r := SrxDialogue(v, node, delay, folder, name);
      r.1 == Saved &&
      r.0.trace == v.trace + [Expected(node.eqPrompt, TimeOut2), SentLine(SrxCommand), Slept(t), Expected("set", TimeOut1)] +
        AppendEvents(PathJoin(folder, name), Banner(node) + [c]) + [Sent("exit")] &&
      r.0.Contents(folder, name) == v.Contents(folder, name) + Concat(Banner(node) + [c])
  {
    assert v.expectReplies[0] == Match(b);
    var w5 := v.Expect(node.eqPrompt, TimeOut2).0;
    var w7 := w5.Record(SentLine(SrxCommand)).Record(Slept(t));
    assert w7.expectReplies[0] == Match(c);
    assert w7.files == v.files;
    CaptureMeaning(w7, folder, name, Banner(node), "set");
  }

  /** A whole "srx" session with a device that answers every prompt: the
      login, then the dialogue of `SrxDialogueSaved` on the empty file. */
  lemma SrxSession(w: World, node: NodeConfig, backup: BackupConfig, delay: DelayConfig, folder: string, d: Date,
                   a: string, b: string, c: string, t: nat)
    requires ValidDate(d) && w.Writable(folder) && SpawnAccepted(w)
    requires node.nodeType == "srx"
    requires |w.expectReplies| >= 3 && w.expectReplies[..3] == [Match(a), Match(b), Match(c)]
    requires ToSeconds(delay.maxDelay) == Success(t)
    ensures var p := BackupFilePath(node, folder, d);
      var r := NodeRun(w, node, backup, delay, folder, d);
      r.1 == Saved &&
      r.0.trace == w.trace + Login(node, backup, p) +
        [Expected(node.eqPrompt, TimeOut2), SentLine(SrxCommand), Slept(t), Expected("set", TimeOut1)] +
        AppendEvents(p, Banner(node) + [c]) + [Sent("exit")] &&
      r.0.Contents(folder, BackupFileName(node, d)) == Concat(Banner(node) + [c])
  {
    assert w.expectReplies[0] == Match(a);
    LoggedIn(w, node, backup, delay, folder, d);
    var v := LoggedInWorld(w, node, backup, folder, d);
    assert v.expectReplies[..2] == [Match(b), Match(c)];
    SrxDialogueSaved(v, node, delay, folder, BackupFileName(node, d), b, c, t);
  }

  /** The "connectivitySwitch" dialect with a device that answers every
      prompt: paging is turned off at the prompt, the configuration is
      asked for at "#", the run sleeps, waits for "#", writes the banner
      and what followed it, and sends "exit". */
  lemma SwitchDialogueSaved(v: World, node: NodeConfig, delay: DelayConfig, folder: string, name: string,
                            b: string, c: string, e: string, t: nat)
    requires v.Writable(folder)
    requires |v.expectReplies| >= 3 && v.expectReplies[..3] == [Match(b), Match(c), Match(e)]
    requires ToSeconds(delay.maxDelay) == Success(t)
    ensures var r := SwitchDialogue(v, node, delay, folder, name);
      r.1 == Saved &&
      r.0.trace == v.trace +
        [Expected(node.eqPrompt, TimeOut2), SentLine(DisablePaging), Expected("#", TimeOut1), SentLine(SwitchCommand),
         Slept(t), Expected("#", TimeOut1)] +
        AppendEvents(PathJoin(folder, name), Banner(node) + [e]) + [Sent("exit")] &&
      r.0.Contents(folder, name) == v.Contents(folder, name) + Concat(Banner(node) + [e])
  {
    assert v.expectReplies[0] == Match(b);
    var w5 := v.Expect(node.eqPrompt, TimeOut2).0.Record(SentLine(DisablePaging));
    assert w5.expectReplies[0] == Match(c);
    var w8 := w5.Expect("#", TimeOut1).0.Record(SentLine(SwitchCommand)).Record(Slept(t));
    assert w8.expectReplies[0] == Match(e);
    assert w8.files == v.files;
    CaptureMeaning(w8, folder, name, Banner(node), "#");
  }

  /** A whole "connectivitySwitch" session with a device that answers every
      prompt: the login, then the dialogue of `SwitchDialogueSaved` on the
      empty file. */
  lemma SwitchSession(w: World, node: NodeConfig, backup: BackupConfig, delay: DelayConfig, folder: string, d: Date,
                      a: string, b: string, c: string, e: string, t: nat)
    requires ValidDate(d) && w.Writable(folder) && SpawnAccepted(w)
    requires node.nodeType == "connectivitySwitch"
    requires |w.expectReplies| >= 4 && w.expectReplies[..4] == [Match(a), Match(b), Match(c), Match(e)]
    requires ToSeconds(delay.maxDelay) == Success(t)
    ensures var p := BackupFilePath(node, folder, d);
      var r := NodeRun(w, node, backup, delay, folder, d);
      r.1 == Saved &&
      r.0.trace == w.trace + Login(node, backup, p) +
        [Expected(node.eqPrompt, TimeOut2), SentLine(DisablePaging), Expected("#", TimeOut1), SentLine(SwitchCommand),
         Slept(t), Expected("#", TimeOut1)] +
        AppendEvents(p, Banner(node) + [e]) + [Sent("exit")] &&
      r.0.Contents(folder, BackupFileName(node, d)) == Concat(Banner(node) + [e])
  {
    assert w.expectReplies[0] == Match(a);
    LoggedIn(w, node, backup, delay, folder, d);
    var v := LoggedInWorld(w, node, backup, folder, d);
    assert v.expectReplies[..3] == [Match(b), Match(c), Match(e)];
    SwitchDialogueSaved(v, node, delay, folder, BackupFileName(node, d), b, c, e, t);
  }

  /** Any other device type: after logging in, no command is sent, the
      file gets the banner and the note, and no "exit" follows. */
  lemma UnsupportedSession(w: World, node: NodeConfig, backup: BackupConfig, delay: DelayConfig, folder: string, d: Date)
    requires ValidDate(d) && w.Writable(folder) && SpawnAccepted(w)
    requires w.expectReplies != [] && w.expectReplies[0].Match?
    requires node.nodeType != "srx" && node.nodeType != "connectivitySwitch"
    ensures var p := BackupFilePath(node, folder, d);
      var r := NodeRun(w, node, backup, delay, folder, d);
      r.1 == NotSupported &&
      r.0.trace == w.trace + Login(node, backup, p) + AppendEvents(p, Banner(node) + [Unsupported]) &&
      r.0.Contents(folder, BackupFileName(node, d)) == Concat(Banner(node) + [Unsupported])
  {
    var name := BackupFileName(node, d);
    LoggedIn(w, node, backup, delay, folder, d);
    var v := LoggedInWorld(w, node, backup, folder, d);
    assert NodeRun(w, node, backup, delay, folder, d) == UnsupportedNote(v, node, folder, name);
    assert UnsupportedNote(v, node, folder, name) == (AppendAll(v, folder, name, Banner(node) + [Unsupported]), NotSupported);
  }

  /** What every part of a run guarantees about its steps: it only adds to
      the trace, and it sends "exit" exactly when it saves. */
  predicate TraceSound(w: World, r: (World, NodeOutcome)) {
    |r.0.trace| >= |w.trace| && r.0.trace[..|w.trace|] == w.trace &&
    (Sent("exit") in r.0.trace[|w.trace|..] <==> r.1 == Saved)
  }

  /** ... and a dialogue that raises has not touched the files. */
  predicate DialogueSound(w: World, r: (World, NodeOutcome)) {
    (r.1.Failed? ==> r.0.files == w.files) && TraceSound(w, r)
  }

  /** Steps without "exit" in front of a sound run keep it sound. */
  lemma TraceSoundAfterSteps(w: World, v: World, steps: seq<Event>, r: (World, NodeOutcome))
    requires v.trace == w.trace + steps && Sent("exit") !in steps
    requires TraceSound(v, r)
    ensures TraceSound(w, r)
  {
    assert r.0.trace[..|v.trace|] == v.trace;
    assert r.0.trace[|w.trace|..] == steps + r.0.trace[|v.trace|..];
  }

  /** The same for one step. */
  lemma TraceSoundAfterStep(w: World, v: World, e: Event, r: (World, NodeOutcome))
    requires v.trace == w.trace + [e] && e != Sent("exit")
    requires TraceSound(v, r)
    ensures TraceSound(w, r)
  {
    TraceSoundAfterSteps(w, v, [e], r);
  }

  lemma CaptureSound(w: World, folder: string, name: string, banner: seq<string>, pattern: string)
    requires w.Writable(folder)
    ensures DialogueSound(w, Capture(w, folder, name, banner, pattern))
  {
    var r := Capture(w, folder, name, banner, pattern);
    var (w1, reply) := w.Expect(pattern, TimeOut1);
    if reply.Timeout? {
      AppendSlices(w.trace, [Expected(pattern, TimeOut1)]);
    } else {
      var w2 := AppendAll(w1, folder, name, banner + [reply.buffer]);
      assert r == (w2.Record(Sent("exit")), Saved);
      var events := AppendEvents(PathJoin(folder, name), banner + [reply.buffer]);
      var added := [Expected(pattern, TimeOut1)] + events + [Sent("exit")];
      assert r.0.trace == w.trace + added by {
        SeqAssoc(w.trace, [Expected(pattern, TimeOut1)], events);
        SeqAssoc(w.trace, [Expected(pattern, TimeOut1)] + events, [Sent("exit")]);
      }
      AppendSlices(w.trace, added);
      assert added[|added| - 1] == Sent("exit");
    }
  }

  lemma SrxDialogueSound(w: World, node: NodeConfig, delay: DelayConfig, folder: string, name: string)
    requires w.Writable(folder)
    ensures DialogueSound(w, SrxDialogue(w, node, delay, folder, name))
  {
    var r := SrxDialogue(w, node, delay, folder, name);
    var (w1, prompt) := w.Expect(node.eqPrompt, TimeOut2);
    if prompt.Match? && ToSeconds(delay.maxDelay).Success? {
      var t := ToSeconds(delay.maxDelay).value;
      var w2 := w1.Record(SentLine(SrxCommand));
      var w3 := w2.Record(Slept(t));
      assert r == Capture(w3, folder, name, Banner(node), "set");
      CaptureSound(w3, folder, name, Banner(node), "set");
      TraceSoundAfterStep(w2, w3, Slept(t), r);
      TraceSoundAfterStep(w1, w2, SentLine(SrxCommand), r);
      TraceSoundAfterStep(w, w1, Expected(node.eqPrompt, TimeOut2), r);
    } else if prompt.Match? {
      assert r.0.trace == w.trace + [Expected(node.eqPrompt, TimeOut2), SentLine(SrxCommand)];
      AppendSlices(w.trace, [Expected(node.eqPrompt, TimeOut2), SentLine(SrxCommand)]);
    } else {
      AppendSlices(w.trace, [Expected(node.eqPrompt, TimeOut2)]);
    }
  }

  lemma SwitchListingSound(w: World, node: NodeConfig, delay: DelayConfig, folder: string, name: string)
    requires w.Writable(folder)
    ensures DialogueSound(w, SwitchListing(w, node, delay, folder, name))
  {
    var r := SwitchListing(w, node, delay, folder, name);
    var (w1, hash) := w.Expect("#", TimeOut1);
    if hash.Match? && ToSeconds(delay.maxDelay).Success? {
      var t := ToSeconds(delay.maxDelay).value;
      var w2 := w1.Record(SentLine(SwitchCommand));
      var w3 := w2.Record(Slept(t));
      assert r == Capture(w3, folder, name, Banner(node), "#");
      CaptureSound(w3, folder, name, Banner(node), "#");
      TraceSoundAfterStep(w2, w3, Slept(t), r);
      TraceSoundAfterStep(w1, w2, SentLine(SwitchCommand), r);
      TraceSoundAfterStep(w, w1, Expected("#", TimeOut1), r);
    } else if hash.Match? {
      assert r.0.trace == w.trace + [Expected("#", TimeOut1), SentLine(SwitchCommand)];
      AppendSlices(w.trace, [Expected("#", TimeOut1), SentLine(SwitchCommand)]);
    } else {
      AppendSlices(w.trace, [Expected("#", TimeOut1)]);
    }
  }

  lemma SwitchDialogueSound(w: World, node: NodeConfig, delay: DelayConfig, folder: string, name: string)
    requires w.Writable(folder)
    ensures DialogueSound(w, SwitchDialogue(w, node, delay, folder, name))
  {
    var r := SwitchDialogue(w, node, delay, folder, name);
    var (w1, prompt) := w.Expect(node.eqPrompt, TimeOut2);
    if prompt.Match? {
      var w2 := w1.Record(SentLine(DisablePaging));
      SwitchListingSound(w2, node, delay, folder, name);
      TraceSoundAfterStep(w1, w2, SentLine(DisablePaging), r);
      TraceSoundAfterStep(w, w1, Expected(node.eqPrompt, TimeOut2), r);
    } else {
      AppendSlices(w.trace, [Expected(node.eqPrompt, TimeOut2)]);
    }
  }

  lemma UnsupportedNoteSound(w: World, node: NodeConfig, folder: string, name: string)
    requires w.Writable(folder)
    ensures DialogueSound(w, UnsupportedNote(w, node, folder, name))
  {
    var r := UnsupportedNote(w, node, folder, name);
    var events := AppendEvents(PathJoin(folder, name), Banner(node) + [Unsupported]);
    assert r.0.trace[|w.trace|..] == events;
    assert Sent("exit") !in events;
  }

  lemma DialogueMeaning(w: World, node: NodeConfig, delay: DelayConfig, folder: string, name: string)
    requires w.Writable(folder)
    ensures DialogueSound(w, Dialogue(w, node, delay, folder, name))
  {
    if node.nodeType == "srx" {
      SrxDialogueSound(w, node, delay, folder, name);
    } else if node.nodeType == "connectivitySwitch" {
      SwitchDialogueSound(w, node, delay, folder, name);
    } else {
      UnsupportedNoteSound(w, node, folder, name);
    }
  }

  /** A run that raises leaves the file it created empty: everything is
      written at the end, in one go. */
  lemma FailureLeavesFileEmpty(w: World, node: NodeConfig, backup: BackupConfig, delay: DelayConfig, folder: string, d: Date)
    requires ValidDate(d) && w.Writable(folder)
    requires NodeRun(w, node, backup, delay, folder, d).1.Failed?
    ensures NodeRun(w, node, backup, delay, folder, d).0.Contents(folder, BackupFileName(node, d)) == ""
  {
    if SpawnAccepted(w) && w.expectReplies != [] && w.expectReplies[0].Match? {
      LoggedIn(w, node, backup, delay, folder, d);
      DialogueMeaning(LoggedInWorld(w, node, backup, folder, d), node, delay, folder, BackupFileName(node, d));
    }
  }

  /** "exit" is sent exactly when the configuration was saved. */
  lemma ExitOnlyWhenSaved(w: World, node: NodeConfig, backup: BackupConfig, delay: DelayConfig, folder: string, d: Date)
    requires ValidDate(d)
    ensures TraceSound(w, NodeRun(w, node, backup, delay, folder, d))
  {
    var r := NodeRun(w, node, backup, delay, folder, d);
    var login := Login(node, backup, BackupFilePath(node, folder, d));
    var name := BackupFileName(node, d);
    if !w.Writable(folder) {
    } else if !SpawnAccepted(w) || w.expectReplies == [] || w.expectReplies[0].Timeout? {
      var w1 := w.Truncate(folder, name).0;
      assert w1.trace == w.trace + [Truncated(PathJoin(folder, name))];
      var w2 := w1.Spawn("ssh " + node.Host(), TimeOut1, backup.bufferSize).0;
      if !SpawnAccepted(w) {
        assert r.0 == w2;
        AppendSlices(w2.trace, []);
      } else {
        var w3 := w2.Expect(PasswordPrompt, TimeOut1).0;
        assert r.0 == w3;
        AppendSlices(w3.trace, []);
        TraceSoundAfterStep(w2, w3, Expected(PasswordPrompt, TimeOut1), r);
      }
      TraceSoundAfterStep(w1, w2, Spawned("ssh " + node.Host(), TimeOut1, backup.bufferSize), r);
      TraceSoundAfterStep(w, w1, Truncated(PathJoin(folder, name)), r);
    } else {
      var v := LoggedInWorld(w, node, backup, folder, d);
      LoggedIn(w, node, backup, delay, folder, d);
      DialogueMeaning(v, node, delay, folder, BackupFileName(node, d));
      TraceSoundAfterSteps(w, v, login, r);
    }
  }

  /** `NodeBackupHandler`: the device to back up and the settings the
      session uses. */
  class NodeBackupHandler {
    const node: NodeConfig
    const backup: BackupConfig
    const delay: DelayConfig

    constructor (node: NodeConfig, backup: BackupConfig, delay: DelayConfig)
      ensures this.node == node && this.backup == backup && this.delay == delay
    {
      this.node := node;
      this.backup := backup;
      this.delay := delay;
    }

    /** `create_node_backup(bkp_folder_path)`. */
    method CreateNodeBackup(server: OnsiteServer, folder: string, d: Date) returns (outcome: NodeOutcome)
      requires ValidDate(d)
      modifies server
      ensures (server.State(), outcome) == NodeRun(old(server.State()), node, backup, delay, folder, d)
    {
      var name := Lower(node.hostname) + "-backup-" + Stamp(d);
      var created := server.Truncate(folder, name);
      if !created {
        return Failed(FileNotCreated(PathJoin(folder, name)));
      }
      var messages := [Separator];
      messages := messages + ["Equipment type: " + node.nodeType + " -> " + node.hostname + " with IP: " + node.ip + "\n"];
      messages := messages + [Separator];

      var spawned := server.Spawn("ssh " + node.Host(), TimeOut1, backup.bufferSize);
      if !spawned {
        return Failed(ConnectionTimedOut(node.hostname));
      }
      var reply := server.Expect(PasswordPrompt, TimeOut1);
      if reply.Timeout? {
        return Failed(ExpectFailed(PasswordPrompt));
      }
      server.SendLine(node.password);
      outcome := HoldDialogue(server, folder, name, messages);
    }

    /** The part of `create_node_backup` that follows the login. */
    method HoldDialogue(server: OnsiteServer, folder: string, name: string, messages: seq<string>) returns (outcome: NodeOutcome)
      requires messages == Banner(node)
      modifies server
      ensures (server.State(), outcome) == Dialogue(old(server.State()), node, delay, folder, name)
    {
      var pattern;
      if node.nodeType == "srx" {
        var reply := server.Expect(node.eqPrompt, TimeOut2);
        if reply.Timeout? {
          return Failed(ExpectFailed(node.eqPrompt));
        }
        server.SendLine(SrxCommand);
        var seconds := ToSeconds(delay.maxDelay);
        if seconds.Failure? {
          return Failed(DelayInvalid(seconds.error));
        }
        server.Sleep(seconds.value);
        pattern := "set";
      } else if node.nodeType == "connectivitySwitch" {
        var reply := server.Expect(node.eqPrompt, TimeOut2);
        if reply.Timeout? {
          return Failed(ExpectFailed(node.eqPrompt));
        }
        server.SendLine(DisablePaging);
        reply := server.Expect("#", TimeOut1);
        if reply.Timeout? {
          return Failed(ExpectFailed("#"));
        }
        server.SendLine(SwitchCommand);
        var seconds := ToSeconds(delay.maxDelay);
        if seconds.Failure? {
          return Failed(DelayInvalid(seconds.error));
        }
        server.Sleep(seconds.value);
        pattern := "#";
      } else {
        var written := WriteToFile(server, folder, name, messages + [Unsupported]);
        if !written {
          return Failed(WriteFailed(PathJoin(folder, name)));
        }
        return NotSupported;
      }
      outcome := CaptureOutput(server, folder, name, messages, pattern);
    }
  }

  /** The end of a supported session: wait for `pattern`, keep what
      followed it, write the file and leave the device. */
  method CaptureOutput(server: OnsiteServer, folder: string, name: string, messages: seq<string>, pattern: string)
    returns (outcome: NodeOutcome)
    modifies server
    ensures (server.State(), outcome) == Capture(old(server.State()), folder, name, messages, pattern)
  {
    var reply := server.Expect(pattern, TimeOut1);
    if reply.Timeout? {
      return Failed(ExpectFailed(pattern));
    }
    var written := WriteToFile(server, folder, name, messages + [reply.buffer]);
    if !written {
      return Failed(WriteFailed(PathJoin(folder, name)));
    }
    server.Send("exit");
    return Saved;
  }
}
