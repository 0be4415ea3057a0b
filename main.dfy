/** main.py: the exit codes, the check of the backup folder of the day, and
    the run that backs up every node, checks the folder, sends it to the
    OMBS server and reports by e-mail. The run works on an `OnsiteServer`;
    the pure function `BackupRun` says what it does, and the lemmas below
    say what each way it can end implies. */
module OnsiteMain {
  import opened Strs
  import opened Wrappers
  import opened Exceptions
  import opened Notification
  import opened BackupSettings
  import opened Onsite
  import opened NodeBackup
  import opened InputValidators

  // ---------------------------------------------------------------------
  // EXIT_CODES

  /** The members of the `ExitCodes` enum, which the functional Enum API
      numbers from 1. */
  datatype ExitCode = SUCCESS | INVALID_INPUT | FAILED_BKP_CREATION | FAILED_BKP_VALIDATION | FAILED_BKP_SEND
  {
    function Value(): (v: nat)
      ensures 1 <= v <= 5
    {
      match this
      case SUCCESS => 1
      case INVALID_INPUT => 2
      case FAILED_BKP_CREATION => 3
      case FAILED_BKP_VALIDATION => 4
      case FAILED_BKP_SEND => 5
    }
  }

  /** The member with a given value, as `ExitCodes(v)` finds it. */
  function ExitCodeOf(v: int): (r: Option<ExitCode>)
    ensures r.Some? <==> 1 <= v <= 5
  {
    if v == 1 then Some(SUCCESS)
    else if v == 2 then Some(INVALID_INPUT)
    else if v == 3 then Some(FAILED_BKP_CREATION)
    else if v == 4 then Some(FAILED_BKP_VALIDATION)
    else if v == 5 then Some(FAILED_BKP_SEND)
    else None
  }

  /** Each value names one member and each member has its own value. */
  lemma ExitCodeRoundTrip(c: ExitCode, v: int)
    ensures ExitCodeOf(c.Value()) == Some(c)
    ensures ExitCodeOf(v).Some? ==> ExitCodeOf(v).value.Value() == v
  {
  }

  // ---------------------------------------------------------------------
  // validate_backup_file_onsite and validate_backup_folder_and_files_onsite

  /** The regular files `os.listdir` shows in `folder`. */
  function FileNames(w: World, folder: string): seq<string> {
    if folder in w.listing then w.listing[folder] else []
  }

  /** `validate_backup_file_onsite`: the file is larger than the smallest
      acceptable backup. */
  predicate FileValid(w: World, folder: string, name: string, minSize: nat) {
    |w.Contents(folder, name)| > minSize
  }

  /** What can make the run raise. */
  datatype RunError =
    | NodeFailed(error: NodeError)      // the folder or a node backup raised
    | ListingFailed(folder: string)     // `os.listdir` raised OSError
    | SendFailed(command: string)       // `Popen` could not start scp

  /** `validate_backup_folder_and_files_onsite(number_nodes, backup_config,
      folder_path)`: there is one regular file per node and every one of
      them is larger than the smallest acceptable backup. */
  function FolderValidated(w: World, numberNodes: nat, minSize: nat, folder: string): Result<bool, RunError> {
    if folder !in w.dirs then Failure(ListingFailed(folder))
    else
      var names := FileNames(w, folder);
      Success(|names| == numberNodes && forall i :: 0 <= i < |names| ==> FileValid(w, folder, names[i], minSize))
  }

  /** `validate_backup_folder_and_files_onsite`: counts the files, then
      looks at their sizes one by one and stops at the first one that is
      too small. `checked` is the number of sizes looked at. */
  method ValidateBackupFolderAndFilesOnsite(w: World, numberNodes: nat, backup: BackupConfig, folder: string)
    returns (r: Result<bool, RunError>, checked: nat)
    ensures r == FolderValidated(w, numberNodes, backup.minBackupSize, folder)
    ensures checked <= |FileNames(w, folder)|
    ensures r.Success? && |FileNames(w, folder)| != numberNodes ==> checked == 0
    ensures r == Success(true) ==> checked == |FileNames(w, folder)|
    ensures r == Success(false) && checked > 0 ==>
      !FileValid(w, folder, FileNames(w, folder)[checked - 1], backup.minBackupSize) &&
      forall j :: 0 <= j < checked - 1 ==> FileValid(w, folder, FileNames(w, folder)[j], backup.minBackupSize)
  {
    checked := 0;
    if folder !in w.dirs {
      return Failure(ListingFailed(folder)), 0;
    }
    var files := FileNames(w, folder);
    if |files| != numberNodes {
      return Success(false), 0;
    }
    while checked < |files|
      invariant checked <= |files|
      invariant forall j :: 0 <= j < checked ==> FileValid(w, folder, files[j], backup.minBackupSize)
    {
      var size := |w.Contents(folder, files[checked])|;
      checked := checked + 1;
      if !(size > backup.minBackupSize) {
        return Success(false), checked;
      }
    }
    return Success(true), checked;
  }

  /** With the right number of files, the folder is valid exactly when no
      file is at most the smallest acceptable size; with any other number
      it is invalid whatever the sizes. */
  lemma FolderValidatedMeaning(w: World, numberNodes: nat, minSize: nat, folder: string)
    requires folder in w.dirs
    ensures |FileNames(w, folder)| != numberNodes ==> FolderValidated(w, numberNodes, minSize, folder) == Success(false)
    ensures |FileNames(w, folder)| == numberNodes ==>
      (FolderValidated(w, numberNodes, minSize, folder) == Success(false) <==>
       exists i :: 0 <= i < |FileNames(w, folder)| && |w.Contents(folder, FileNames(w, folder)[i])| <= minSize)
  {
  }

  // ---------------------------------------------------------------------
  // The loop over the nodes

  /** The nodes backed up one after the other in the folder of the day;
      the first node that raises ends the loop and its error is the one
      raised. */
  function RunNodes(w: World, entries: seq<(string, NodeConfig)>, backup: BackupConfig, delay: DelayConfig,
                    folder: string, d: Date): (World, Option<NodeError>)
    requires ValidDate(d)
  {
    if entries == [] then (w, None)
    else
      var (w1, failure) := RunNodes(w, entries[..|entries| - 1], backup, delay, folder, d);
      if failure.Some? then (w1, failure)
      else
        var (w2, outcome) := NodeRun(w1, entries[|entries| - 1].1, backup, delay, folder, d);
        (w2, if outcome.Failed? then Some(outcome.error) else None)
  }

  /** Once a node has raised, the nodes after it are never contacted: the
      run over the whole dictionary ends where the run over its first
      `k` entries ended. */
  lemma {:induction false} FailureStopsTheLoop(w: World, entries: seq<(string, NodeConfig)>, k: nat,
                                               backup: BackupConfig, delay: DelayConfig, folder: string, d: Date)
    requires ValidDate(d) && k <= |entries|
    requires RunNodes(w, entries[..k], backup, delay, folder, d).1.Some?
    ensures RunNodes(w, entries, backup, delay, folder, d) == RunNodes(w, entries[..k], backup, delay, folder, d)
    decreases |entries| - k
  {
    if k == |entries| {
      assert entries[..k] == entries;
    } else {
      var init := entries[..|entries| - 1];
      assert init[..k] == entries[..k];
      FailureStopsTheLoop(w, init, k, backup, delay, folder, d);
    }
  }

  /** A loop that passed ran its last node without a raise, after a run of
      the nodes before it that passed too. */
  lemma LastNodeReturned(w: World, entries: seq<(string, NodeConfig)>, backup: BackupConfig, delay: DelayConfig,
                         folder: string, d: Date)
    requires ValidDate(d) && entries != []
    requires RunNodes(w, entries, backup, delay, folder, d).1.None?
    ensures var before := RunNodes(w, entries[..|entries| - 1], backup, delay, folder, d);
      before.1.None? && !NodeRun(before.0, entries[|entries| - 1].1, backup, delay, folder, d).1.Failed?
  {
  }

  /** The run gets through the loop only if no node raised: each node in
      turn saves its configuration or notes an unsupported type. */
  lemma {:induction false} LoopPassedMeansEveryNodeReturned(w: World, entries: seq<(string, NodeConfig)>,
                                                            backup: BackupConfig, delay: DelayConfig, folder: string, d: Date)
    requires ValidDate(d)
    requires RunNodes(w, entries, backup, delay, folder, d).1.None?
    ensures forall k :: 0 <= k < |entries| ==>
      !NodeRun(RunNodes(w, entries[..k], backup, delay, folder, d).0, entries[k].1, backup, delay, folder, d).1.Failed?
  {
    if entries != [] {
      var init := entries[..|entries| - 1];
      LastNodeReturned(w, entries, backup, delay, folder, d);
      LoopPassedMeansEveryNodeReturned(w, init, backup, delay, folder, d);
      forall k | 0 <= k < |entries|
        ensures !NodeRun(RunNodes(w, entries[..k], backup, delay, folder, d).0, entries[k].1, backup, delay, folder, d).1.Failed?
      {
        if k < |init| {
          assert entries[..k] == init[..k];
          assert entries[k] == init[k];
        } else {
          assert entries[..k] == init;
        }
      }
    }
  }

  // ---------------------------------------------------------------------
  // send_backup_to_ombs

  /** The scp command line that copies the folder to the OMBS server. */
  function SendCommand(folder: string, ombs: OMBSConfig): string {
    "scp -r -i " + ombs.keyPath + " " + folder + " " + ombs.Host() + ":" + ombs.dir
  }

  // ---------------------------------------------------------------------
  // execute_backup_creation_and_sending, without the reports

  const BackupFolderTemplate: string := "network_device_backup_"

  /** How the run ends before it reports. */
  datatype Outcome =
    | Succeeded(folder: string)          // the folder was sent
    | CreationFailed(error: RunError)    // the `except` clause
    | ValidationFailed(folder: string)   // the folder check said no

  /** The world once the folder of the day exists and every node has been
      backed up, or the error that stopped it. */
  function NodesDone(w: World, entries: seq<(string, NodeConfig)>, backup: BackupConfig, delay: DelayConfig, d: Date)
    : (r: (World, Result<string, NodeError>))
    requires ValidDate(d)
  {
    var (w1, created) := BackupFolderCreated(w, BackupFolderTemplate, backup.path, d);
    if created.Failure? then (w1, created)
    else
      var (w2, failure) := RunNodes(w1, entries, backup, delay, created.value, d);
      if failure.Some? then (w2, Failure(failure.value)) else (w2, created)
  }

  /** The body of the `try`: the folder, the nodes, the folder check, the
      scp command. Sending counts as done once scp has started, since its
      error stream is not piped and so never read. */
  function BackupRun(w: World, entries: seq<(string, NodeConfig)>, backup: BackupConfig, delay: DelayConfig,
                     ombs: OMBSConfig, d: Date): (World, Outcome)
    requires ValidDate(d)
  {
    var (w1, done) := NodesDone(w, entries, backup, delay, d);
    if done.Failure? then (w1, CreationFailed(NodeFailed(done.error)))
    else
      var folder := done.value;
      match FolderValidated(w1, |entries|, backup.minBackupSize, folder)
      case Failure(e) => (w1, CreationFailed(e))
      case Success(valid) =>
        if !valid then (w1, ValidationFailed(folder))
        else
          var command := SendCommand(folder, ombs);
          var (w2, started) := w1.Run(command);
          if !started then (w2, CreationFailed(SendFailed(command))) else (w2, Succeeded(folder))
  }

  /** A folder that fails its check is not sent: the run stops in the
      world the nodes left, without starting any command. */
  lemma ValidationFailureSendsNothing(w: World, entries: seq<(string, NodeConfig)>, backup: BackupConfig,
                                      delay: DelayConfig, ombs: OMBSConfig, d: Date)
    requires ValidDate(d)
    requires BackupRun(w, entries, backup, delay, ombs, d).1.ValidationFailed?
    ensures var done := NodesDone(w, entries, backup, delay, d);
      var r := BackupRun(w, entries, backup, delay, ombs, d);
      r.1.folder == BackupFolderPath(BackupFolderTemplate, backup.path, d) &&
      done.1 == Success(r.1.folder) && r.0 == done.0 &&
      FolderValidated(done.0, |entries|, backup.minBackupSize, r.1.folder) == Success(false)
  {
    BackupFolderCreatedMeaning(w, BackupFolderTemplate, backup.path, d);
  }

  /** Only a folder that passed its check is sent, it is the folder of the
      day, and the scp command is the last step of the run. */
  lemma SuccessSendsTheCheckedFolder(w: World, entries: seq<(string, NodeConfig)>, backup: BackupConfig,
                                     delay: DelayConfig, ombs: OMBSConfig, d: Date)
    requires ValidDate(d)
    requires BackupRun(w, entries, backup, delay, ombs, d).1.Succeeded?
    ensures var done := NodesDone(w, entries, backup, delay, d);
      var r := BackupRun(w, entries, backup, delay, ombs, d);
      r.1.folder == BackupFolderPath(BackupFolderTemplate, backup.path, d) &&
      done.1 == Success(r.1.folder) &&
      FolderValidated(done.0, |entries|, backup.minBackupSize, r.1.folder) == Success(true) &&
      r.0.trace == done.0.trace + [Ran(SendCommand(r.1.folder, ombs))]
  {
    BackupFolderCreatedMeaning(w, BackupFolderTemplate, backup.path, d);
  }

  /** A node that raises ends the run as a creation failure with that
      node's error, in the world that node left: the folder is not checked
      and nothing is sent. */
  lemma NodeFailureIsCreationFailure(w: World, entries: seq<(string, NodeConfig)>, backup: BackupConfig,
                                     delay: DelayConfig, ombs: OMBSConfig, d: Date)
    requires ValidDate(d)
    requires NodesDone(w, entries, backup, delay, d).1.Failure?
    ensures var done := NodesDone(w, entries, backup, delay, d);
      BackupRun(w, entries, backup, delay, ombs, d) == (done.0, CreationFailed(NodeFailed(done.1.error)))
  {
  }

  // ---------------------------------------------------------------------
  // report_success and report_error

  const SuccessSubject: string := "Network devices backup creation is finished"
  const ErrorSubject: string := "Error executing onsite backup creation"
  const SuccessSender: string := "network_bkp_onsite"
  const ErrorSender: string := "ntwk_bkp_onsite"

  /** What the e-mail service gets from outside the model: the command
      line, the installed version, and what the HTTP POST raises, if
      anything. */
  datatype MailContext = MailContext(argv: seq<string>, version: string, postError: Option<string>)

  /** How a report ends: the e-mail went out, the NotificationHandlerException
      was caught and its message logged, or another exception escaped. */
  datatype Report = Mailed(mail: Mail) | Logged(message: string) | Thrown

  /** The sender the reports use: the given one, or `fallback` when none or
      a blank one is given. */
  function SenderOrDefault(sender: Option<string>, fallback: string): string {
    if sender.None? || IsBlank(sender.value) then fallback else sender.value
  }

  /** The list of strings the reports pass on, as e-mail items. */
  function TextItems(lines: seq<string>): (r: seq<Item>)
    ensures |r| == |lines|
    ensures forall i :: 0 <= i < |lines| ==> r[i] == Text(lines[i])
  {
    seq(|lines|, i requires 0 <= i < |lines| => Text(lines[i]))
  }

  /** The `except NotificationHandlerException` clause around a send. */
  function Caught(r: Result<Mail, MailError>): Report {
    match r
    case Success(m) => Mailed(m)
    case Failure(NotSent(e)) => Logged(e.message)
    case Failure(EmptySender) => Thrown
  }

  /** `report_success(notification_handler, logger, success_list, sender)`. */
  function ReportSuccess(h: NotificationHandler, lines: seq<string>, sender: Option<string>, ctx: MailContext): Report {
    Caught(SendSuccessEmail(h, SenderOrDefault(sender, SuccessSender), SuccessSubject, Items(TextItems(lines)),
                            ctx.argv, ctx.version, ctx.postError))
  }

  /** `report_error(notification_handler, logger, error_list, error_code,
      sender)`, with `exit_script` left False as every caller does. */
  function ReportError(h: NotificationHandler, lines: seq<string>, code: ExitCode, sender: Option<string>,
                       ctx: MailContext): Report {
    Caught(SendErrorEmail(h, SenderOrDefault(sender, ErrorSender), ErrorSubject, Items(TextItems(lines)),
                          Some(code.Value()), ctx.argv, ctx.version, ctx.postError))
  }

  /** The defaulted sender is never blank: it is a given non-blank sender or
      a fallback that starts with a letter. */
  lemma SenderOrDefaultNotBlank(sender: Option<string>, fallback: string)
    requires fallback != [] && !IsSpace(fallback[0])
    ensures !IsBlank(SenderOrDefault(sender, fallback))
    ensures sender.Some? && !IsBlank(sender.value) ==> SenderOrDefault(sender, fallback) == sender.value
  {
  }

  /** An e-mail sent from a non-blank sender is either delivered or its
      failure is caught and logged; nothing escapes. */
  lemma SuccessMailCaught(h: NotificationHandler, from: string, subject: string, items: seq<Item>, ctx: MailContext)
    requires !IsBlank(from)
    ensures var r := Caught(SendSuccessEmail(h, from, subject, Items(items), ctx.argv, ctx.version, ctx.postError));
      !r.Thrown? && (r.Mailed? <==> ctx.postError.None?) &&
      (r.Mailed? ==> r.mail.subject == subject && r.mail.to == h.emailTo &&
                     r.mail.body == PrepareEmailBody(SuccessMail, items, None, ctx.argv, ctx.version)) &&
      (r.Logged? ==> r.message == SendFailure(h, ctx.postError.value).message)
  {
    var m := SendSuccessEmail(h, from, subject, Items(items), ctx.argv, ctx.version, ctx.postError);
    CaughtSend(m, h, subject, PrepareEmailBody(SuccessMail, items, None, ctx.argv, ctx.version), ctx.postError);
  }

  /** The same for an error e-mail, which carries the exit code. */
  lemma ErrorMailCaught(h: NotificationHandler, from: string, subject: string, items: seq<Item>, code: int,
                        ctx: MailContext)
    requires !IsBlank(from)
    ensures var r := Caught(SendErrorEmail(h, from, subject, Items(items), Some(code), ctx.argv, ctx.version, ctx.postError));
      !r.Thrown? && (r.Mailed? <==> ctx.postError.None?) &&
      (r.Mailed? ==> r.mail.subject == subject && r.mail.to == h.emailTo &&
                     r.mail.body == PrepareEmailBody(ErrorMail, items, Some(code), ctx.argv, ctx.version)) &&
      (r.Logged? ==> r.message == SendFailure(h, ctx.postError.value).message)
  {
    var m := SendErrorEmail(h, from, subject, Items(items), Some(code), ctx.argv, ctx.version, ctx.postError);
    CaughtSend(m, h, subject, PrepareEmailBody(ErrorMail, items, Some(code), ctx.argv, ctx.version), ctx.postError);
  }

  /** A send with a non-blank sender is caught either as the mail or as the
      logged message of the failed POST. */
  lemma CaughtSend(m: Result<Mail, MailError>, h: NotificationHandler, subject: string, body: string,
                   postError: Option<string>)
    requires m != Failure(EmptySender)
    requires m.Success? <==> postError.None?
    requires m.Failure? ==> m.error == NotSent(SendFailure(h, postError.value))
    requires m.Success? ==> m.value.subject == subject && m.value.to == h.emailTo && m.value.body == body
    ensures var r := Caught(m);
      !r.Thrown? && (r.Mailed? <==> postError.None?) &&
      (r.Mailed? ==> r.mail.subject == subject && r.mail.to == h.emailTo && r.mail.body == body) &&
      (r.Logged? ==> r.message == SendFailure(h, postError.value).message)
  {
    if m.Failure? {
      assert m.error.NotSent?;
    }
  }

  /** A success report never raises: the e-mail goes out with the report's
      subject and lines, or the failure to send it is logged. */
  lemma ReportSuccessNeverRaises(h: NotificationHandler, lines: seq<string>, sender: Option<string>, ctx: MailContext)
    ensures var r := ReportSuccess(h, lines, sender, ctx);
      !r.Thrown? && (r.Mailed? <==> ctx.postError.None?) &&
      (r.Mailed? ==> r.mail.subject == SuccessSubject && r.mail.to == h.emailTo &&
                     r.mail.body == PrepareEmailBody(SuccessMail, TextItems(lines), None, ctx.argv, ctx.version)) &&
      (r.Logged? ==> r.message == SendFailure(h, ctx.postError.value).message)
  {
    assert SuccessSender[0] == 'n';
    SenderOrDefaultNotBlank(sender, SuccessSender);
    SuccessMailCaught(h, SenderOrDefault(sender, SuccessSender), SuccessSubject, TextItems(lines), ctx);
  }

  /** The same for an error report, whose e-mail carries the exit code. */
  lemma ReportErrorNeverRaises(h: NotificationHandler, lines: seq<string>, code: ExitCode, sender: Option<string>,
                               ctx: MailContext)
    ensures var r := ReportError(h, lines, code, sender, ctx);
      !r.Thrown? && (r.Mailed? <==> ctx.postError.None?) &&
      (r.Mailed? ==> r.mail.subject == ErrorSubject && r.mail.to == h.emailTo &&
                     r.mail.body == PrepareEmailBody(ErrorMail, TextItems(lines), Some(code.Value()), ctx.argv, ctx.version)) &&
      (r.Logged? ==> r.message == SendFailure(h, ctx.postError.value).message)
  {
    assert ErrorSender[0] == 'n';
    SenderOrDefaultNotBlank(sender, ErrorSender);
    ErrorMailCaught(h, SenderOrDefault(sender, ErrorSender), ErrorSubject, TextItems(lines), code.Value(), ctx);
  }

  // ---------------------------------------------------------------------
  // execute_backup_creation_and_sending

  const SuccessLine: string := "Onsite was successfully created and sent to OMBS"

  /** The line of the error report for an exception caught by the run.
      The tool's own exceptions carry a known text; for one raised by a
      library (OSError, pexpect, IOError) `libraryText` stands for what
      `str()` gives. */
  function CreationLine(e: RunError, libraryText: string): string {
    var cause :=
      match e
      case NodeFailed(n) => if n.Message().Some? then n.Message().value else libraryText
      case _ => libraryText;
    "Backup could not be created. Cause: " + cause
  }

  /** The line of the error report for a folder that failed its check. */
  function NotSentLine(folder: string): string {
    "Backup " + folder + " will not be sent to OMBS"
  }

  /** The lines of the report on how the run ended. */
  function ReportLines(outcome: Outcome, libraryText: string): (lines: seq<string>)
    ensures |lines| == 1
  {
    match outcome
    case Succeeded(_) => [SuccessLine]
    case ValidationFailed(folder) => [NotSentLine(folder)]
    case CreationFailed(e) => [CreationLine(e, libraryText)]
  }

  /** The exit code an error report carries: 4 for a folder that failed its
      check, 3 for everything else. */
  function ReportCode(outcome: Outcome): ExitCode {
    if outcome.ValidationFailed? then FAILED_BKP_VALIDATION else FAILED_BKP_CREATION
  }

  /** Both reports are called with `sender=""`, so the default sender is used. */
  const CallerSender: Option<string> := Some("")

  /** How the run reports the way it ended, and the truth value it then
      returns. The success report sits inside the `try`, but it cannot
      raise (`ReportSuccessNeverRaises`), so the `except` clause is only
      reached from the run itself. */
  function Reporting(h: NotificationHandler, outcome: Outcome, ctx: MailContext, libraryText: string): (bool, Report) {
    if outcome.Succeeded? then (true, ReportSuccess(h, ReportLines(outcome, libraryText), CallerSender, ctx))
    else (false, ReportError(h, ReportLines(outcome, libraryText), ReportCode(outcome), CallerSender, ctx))
  }

  /** The whole of `execute_backup_creation_and_sending`: the run, then its
      report. */
  function Executed(w: World, entries: seq<(string, NodeConfig)>, backup: BackupConfig, delay: DelayConfig,
                    ombs: OMBSConfig, h: NotificationHandler, d: Date, ctx: MailContext, libraryText: string)
    : (World, bool, Report)
    requires ValidDate(d)
  {
    var (w1, outcome) := BackupRun(w, entries, backup, delay, ombs, d);
    var (ok, report) := Reporting(h, outcome, ctx, libraryText);
    (w1, ok, report)
  }

  /** The run returns True exactly when the folder was sent. No report
      raises: its e-mail goes out, or the failure to send it is logged.
      The e-mail of a sent folder is the success mail with the success
      line; any other ending is an error mail whose one line names the
      folder that failed its check (with code 4) or the cause (with code 3). */
  lemma ReportingMeaning(h: NotificationHandler, outcome: Outcome, ctx: MailContext, libraryText: string)
    ensures var r := Reporting(h, outcome, ctx, libraryText);
      (r.0 <==> outcome.Succeeded?) &&
      !r.1.Thrown? && (r.1.Mailed? <==> ctx.postError.None?) &&
      (r.1.Logged? ==> r.1.message == SendFailure(h, ctx.postError.value).message) &&
      (r.1.Mailed? ==>
         r.1.mail.to == h.emailTo &&
         r.1.mail.subject == (if outcome.Succeeded? then SuccessSubject else ErrorSubject) &&
         r.1.mail.body ==
          (if outcome.Succeeded? then PrepareEmailBody(SuccessMail, TextItems(ReportLines(outcome, libraryText)), None, ctx.argv, ctx.version)
           else PrepareEmailBody(ErrorMail, TextItems(ReportLines(outcome, libraryText)), Some(ReportCode(outcome).Value()), ctx.argv, ctx.version)))
  {
    var lines := ReportLines(outcome, libraryText);
    if outcome.Succeeded? {
      assert Reporting(h, outcome, ctx, libraryText) == (true, ReportSuccess(h, lines, CallerSender, ctx));
      ReportSuccessNeverRaises(h, lines, CallerSender, ctx);
    } else {
      assert Reporting(h, outcome, ctx, libraryText) == (false, ReportError(h, lines, ReportCode(outcome), CallerSender, ctx));
      ReportErrorNeverRaises(h, lines, ReportCode(outcome), CallerSender, ctx);
    }
  }

  /** The lines each ending reports. */
  lemma ReportLinesMeaning(outcome: Outcome, libraryText: string)
    ensures outcome.Succeeded? ==> ReportLines(outcome, libraryText) == [SuccessLine]
    ensures outcome.ValidationFailed? ==> ReportLines(outcome, libraryText) == ["Backup " + outcome.folder + " will not be sent to OMBS"]
    ensures outcome.CreationFailed? ==> ReportLines(outcome, libraryText) == [CreationLine(outcome.error, libraryText)]
  {
  }

  /** `execute_backup_creation_and_sending(node_config_dict, backup_config,
      delay, ombs_config, notification_handler, logger)`: one
      `NodeBackupHandler` per node, in dictionary order. */
  method ExecuteBackupCreationAndSending(server: OnsiteServer, entries: seq<(string, NodeConfig)>, backup: BackupConfig,
                                         delay: DelayConfig, ombs: OMBSConfig, h: NotificationHandler, d: Date,
                                         ctx: MailContext, libraryText: string)
    returns (ok: bool, report: Report)
    requires ValidDate(d)
    modifies server
    ensures (server.State(), ok, report) == Executed(old(server.State()), entries, backup, delay, ombs, h, d, ctx, libraryText)
  {
    var outcome := RunAndSend(server, entries, backup, delay, ombs, d);
    var reported := Reporting(h, outcome, ctx, libraryText);
    ok, report := reported.0, reported.1;
  }

  /** The body of the `try` up to the send. */
  method RunAndSend(server: OnsiteServer, entries: seq<(string, NodeConfig)>, backup: BackupConfig,
                    delay: DelayConfig, ombs: OMBSConfig, d: Date) returns (outcome: Outcome)
    requires ValidDate(d)
    modifies server
    ensures (server.State(), outcome) == BackupRun(old(server.State()), entries, backup, delay, ombs, d)
  {
    var created := CreateBackupFolderOnsite(server, BackupFolderTemplate, backup.path, d);
    if created.Failure? {
      return CreationFailed(NodeFailed(created.error));
    }
    var folder := created.value;
    var failure := BackUpNodes(server, entries, backup, delay, folder, d);
    if failure.Some? {
      return CreationFailed(NodeFailed(failure.value));
    }
    var valid, _ := ValidateBackupFolderAndFilesOnsite(server.State(), |entries|, backup, folder);
    if valid.Failure? {
      return CreationFailed(valid.error);
    }
    if !valid.value {
      return ValidationFailed(folder);
    }
    var command := SendCommand(folder, ombs);
    var started := server.Run(command);
    if !started {
      return CreationFailed(SendFailed(command));
    }
    return Succeeded(folder);
  }

  /** The `for` loop over the nodes, left by the first exception. */
  method BackUpNodes(server: OnsiteServer, entries: seq<(string, NodeConfig)>, backup: BackupConfig,
                     delay: DelayConfig, folder: string, d: Date) returns (failure: Option<NodeError>)
    requires ValidDate(d)
    modifies server
    ensures (server.State(), failure) == RunNodes(old(server.State()), entries, backup, delay, folder, d)
  {
    ghost var w := server.State();
    var i := 0;
    while i < |entries|
      invariant 0 <= i <= |entries|
      invariant RunNodes(w, entries[..i], backup, delay, folder, d) == (server.State(), None)
    {
      assert entries[..i + 1][..i] == entries[..i];
      var handler := new NodeBackupHandler(entries[i].1, backup, delay);
      var outcome := handler.CreateNodeBackup(server, folder, d);
      if outcome.Failed? {
        FailureStopsTheLoop(w, entries, i + 1, backup, delay, folder, d);
        return Some(outcome.error);
      }
      i := i + 1;
    }
    assert entries[..i] == entries;
    return None;
  }

  // ---------------------------------------------------------------------
  // execute_validation_input and main

  const ConfFileName: string := "config.cfg"

  /** What `execute_validation_input` catches. */
  datatype InputFailure =
    | SettingsRejected(error: ValidationError)
    | NodesRejected(messages: seq<Message>)
    | MissingKey    // a KeyError on the dictionary of objects

  /** What the configuration validation depends on: where the file is
      looked for, whether it parses, and the answers of `is_valid_ip` and
      `is_host_accessible`. */
  datatype ConfigSource = ConfigSource(home: string, packageDir: string, readable: set<string>,
                                       parsed: Result<ParsedConfig, ReadProblem>,
                                       validIps: set<string>, reachable: set<string>)

  /** The five objects `main` takes from the dictionary. */
  datatype Validated = Validated(handler: NotificationHandler, nodes: seq<(string, NodeConfig)>,
                                 backup: BackupConfig, delay: DelayConfig, ombs: OMBSConfig)

  /** `execute_validation_input(logger)`: the settings, then the nodes and
      the backup location; then `main` reads the five objects. */
  function ValidationInput(src: ConfigSource): Result<Validated, InputFailure> {
    InputFrom(ScriptSettingsValidated(ConfFileName, src.home, src.packageDir, src.readable, src.parsed),
              src.validIps, src.reachable)
  }

  /** The part of `execute_validation_input` after `validate_script_settings`
      has answered `settings`. */
  function InputFrom(settings: Result<ScriptObjects, ValidationError>, validIps: set<string>, reachable: set<string>)
    : Result<Validated, InputFailure>
  {
    match settings
    case Failure(e) => Failure(SettingsRejected(e))
    case Success(o) =>
      if o.nodeConfigDict.None? || o.backupConfig.None? then Failure(MissingKey)
      else
        match NodesBackupLocationOutcome(ConfFileName, o.nodeConfigDict.value, validIps, reachable)
        case Failure(messages) => Failure(NodesRejected(messages))
        case Success(_) =>
          if o.notificationHandler.None? || o.delay.None? || o.ombsConfig.None? then Failure(MissingKey)
          else Success(Validated(o.notificationHandler.value, o.nodeConfigDict.value, o.backupConfig.value,
                                 o.delay.value, o.ombsConfig.value))
  }

  /** No key is ever missing, and input that passes validation has at least
      one node, each of them valid. */
  lemma ValidationInputMeaning(src: ConfigSource)
    ensures ValidationInput(src) != Failure(MissingKey)
    ensures ValidationInput(src).Success? ==>
      var v := ValidationInput(src).value;
      v.nodes != [] && forall i :: 0 <= i < |v.nodes| ==> NodeValid(v.nodes[i].1, src.validIps, src.reachable)
  {
    ValidatedObjectsPresent(src);
    InputFromMeaning(ScriptSettingsValidated(ConfFileName, src.home, src.packageDir, src.readable, src.parsed),
                     src.validIps, src.reachable);
  }

  /** Once the settings hold all five objects, no key is missing, and the
      nodes that pass are there and valid. */
  lemma InputFromMeaning(settings: Result<ScriptObjects, ValidationError>, validIps: set<string>, reachable: set<string>)
    requires settings.Success? ==>
      settings.value.notificationHandler.Some? && settings.value.nodeConfigDict.Some? && settings.value.backupConfig.Some? &&
      settings.value.delay.Some? && settings.value.ombsConfig.Some?
    ensures InputFrom(settings, validIps, reachable) != Failure(MissingKey)
    ensures InputFrom(settings, validIps, reachable).Success? ==>
      var v := InputFrom(settings, validIps, reachable).value;
      v.nodes != [] && forall i :: 0 <= i < |v.nodes| ==> NodeValid(v.nodes[i].1, validIps, reachable)
  {
    if settings.Success? {
      NodesBackupLocationMeaning(ConfFileName, settings.value.nodeConfigDict.value, validIps, reachable);
    }
  }

  /** Settings that pass validation hold all five objects. */
  lemma ValidatedObjectsPresent(src: ConfigSource)
    ensures var v := ScriptSettingsValidated(ConfFileName, src.home, src.packageDir, src.readable, src.parsed);
      v.Success? ==> v.value.notificationHandler.Some? && v.value.nodeConfigDict.Some? && v.value.backupConfig.Some? &&
                     v.value.delay.Some? && v.value.ombsConfig.Some?
  {
  }

  /** Every failure of the input validation ends the script through
      `log_error_exit` with this code. */
  const ValidationExitCode: ExitCode := FAILED_BKP_VALIDATION

  /** What `main` returns once the run is over. */
  function MainExitCode(ok: bool): ExitCode {
    if ok then SUCCESS else FAILED_BKP_CREATION
  }

  /** `main()` once the input has been validated: the exit status, the
      world the run leaves, and the report it sends. */
  function MainAfterValidation(w: World, input: Result<Validated, InputFailure>, d: Date, ctx: MailContext,
                               libraryText: string): (World, ExitCode, Option<Report>)
    requires ValidDate(d)
  {
    match input
    case Failure(_) => (w, ValidationExitCode, None)
    case Success(v) =>
      var (w1, ok, report) := Executed(w, v.nodes, v.backup, v.delay, v.ombs, v.handler, d, ctx, libraryText);
      (w1, MainExitCode(ok), Some(report))
  }

  /** `main()`; the logger and the command-line arguments are left out. */
  function MainRun(w: World, src: ConfigSource, d: Date, ctx: MailContext, libraryText: string)
    : (World, ExitCode, Option<Report>)
    requires ValidDate(d)
  {
    MainAfterValidation(w, ValidationInput(src), d, ctx, libraryText)
  }

  /** The exit status is 4 when the input is rejected, 1 after a run that
      sent the folder, and 3 after any other run, including one whose
      folder failed its check and whose e-mail says 4; once the arguments are
      parsed, codes 2 and 5 are never used on this path (a failing
      `parse_arguments` exits with 2, which is not modelled here). */
  lemma MainExitCodes(w: World, input: Result<Validated, InputFailure>, d: Date, ctx: MailContext, libraryText: string)
    requires ValidDate(d)
    ensures var r := MainAfterValidation(w, input, d, ctx, libraryText);
      (input.Failure? ==> r.1 == FAILED_BKP_VALIDATION && r.0 == w && r.2.None?) &&
      (input.Success? ==>
        var run := BackupRun(w, input.value.nodes, input.value.backup, input.value.delay, input.value.ombs, d);
        r.0 == run.0 && r.2 == Some(Reporting(input.value.handler, run.1, ctx, libraryText).1) &&
        (r.1 == SUCCESS <==> run.1.Succeeded?) &&
        (r.1 == FAILED_BKP_CREATION <==> !run.1.Succeeded?)) &&
      r.1 != INVALID_INPUT && r.1 != FAILED_BKP_SEND
  {
    if input.Success? {
      var v := input.value;
      ReportingMeaning(v.handler, BackupRun(w, v.nodes, v.backup, v.delay, v.ombs, d).1, ctx, libraryText);
    }
  }
}
