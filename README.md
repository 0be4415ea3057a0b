# ntwk-bkp-onsite, modelled in Dafny

`ntwk_bkp_onsite` is a command-line tool. It runs on an onsite host and backs up the configuration of network devices. It does this in four steps:

1. It reads `config.cfg`. The file holds the support contact, the backup location, the settle delay, the OMBS server and one section per device.
2. It validates the configuration: every device needs its fields, a valid IPv4 address and a host that answers ping.
3. It creates the backup folder of the day (`network_device_backup_YYYYMMDD`). It then opens an SSH session with each device through pexpect and saves the device's configuration listing in one file per device. Juniper "srx" devices and "connectivitySwitch" devices get their own dialogue. Any other type gets a note.
4. It checks that the folder holds one large-enough file per device, copies the folder to the OMBS server with `scp`, and reports the outcome by e-mail through an HTTP mail service.

The model has one Dafny module per core source file:

- `Exceptions` models exceptions.py.
- `Utils` models utils.py.
- `BackupSettings` models backup_settings.py.
- `Notification` models notification_handler.py.
- `InputValidators` models input_validators.py.
- `NodeBackup` models node_backup_handler.py.
- `OnsiteMain` models main.py.

Two support modules sit beside them:

- `Strs` holds Python's string helpers: `strip`, `lower`, `str(int)`, `str(list)` and digit parsing.
- `Wrappers` holds `Option` and `Result`.

The `Onsite` module makes the outside world explicit. It is a `World` value with two parts:

- **The onsite file system.** It records directories, the files `os.listdir` shows in each directory, file contents, paths `os.makedirs` refuses, and read-only folders.
- **The answers the tool will get.** These are queues of replies for `pexpect.spawn`, `child.expect` and `Popen`. They are fixed in advance.

Every step the tool takes is appended to a trace of events. The `OnsiteServer` class holds that state as mutable fields. Each method updates the fields exactly as the matching `World` function does.

The source's imperative parts become methods on an `OnsiteServer` or on an `ErrorList`. Each such method is proved equal to a pure function:

- `create_node_backup` and `write_to_file`;
- the loop over the nodes;
- the folder check;
- `validate_nodes`, which appends to the caller's list in place;
- the section loop of `get_node_config_dict`;
- `_get_lines_from_list`.

The lemmas then state what those functions promise. For example:

- a session sends `exit` exactly when it saved the configuration;
- a failed session leaves its file empty;
- a node that raises stops the loop;
- only a folder that passed its check is sent;
- no report ever raises;
- the exit status of every ending.

Three points of the code that the model keeps exactly:

- **Exit codes.** `EXIT_CODES` uses the functional `Enum` API (main.py:53-54), so SUCCESS is 1 and FAILED_BKP_SEND is 5.
- **Expect calls.** Each `expect` waits for a single pattern. The session is never closed.
- **Validation failures.** A folder that fails its check makes `main` return 3 (FAILED_BKP_CREATION), while its e-mail reports 4. A rejected configuration exits through `log_error_exit` with 4.

## Model

| member | source | states |
|---|---|---|
| Exceptions.CodeOf | src/network_backup_onsite/exceptions.py:16-33 | looking a value up in the enumeration yields only a member that carries that value |
| Exceptions.CodeValuesRoundTrip | src/network_backup_onsite/exceptions.py:16-33 | every code is found again from its value, and the values are exactly 30 to 38, 40 and 51 to 53 |
| Exceptions.CodeValuesDistinct | src/network_backup_onsite/exceptions.py:16-33 | two different codes never share a value |
| Exceptions.Str | src/network_backup_onsite/exceptions.py:50-52 | the text is "Error: ", the two-digit code value, ". ", then the message, and nothing else |
| Exceptions.Repr | src/network_backup_onsite/exceptions.py:54-56 | `repr` gives the same text as `str` |
| Exceptions.StrInjective | src/network_backup_onsite/exceptions.py:50-52 | an exception's text determines both its code and its message |
| Exceptions.NotificationHandlerException | src/network_backup_onsite/exceptions.py:59-71 | the message is kept; a missing code becomes DefaultExceptionCode, and a given code is kept |
| Exceptions.BackupSettingsException | src/network_backup_onsite/exceptions.py:74-86 | the same defaulting of the code |
| Exceptions.DefaultCodeText | src/network_backup_onsite/exceptions.py:74-86 | an exception built from a bare message prints as "Error: 30. " followed by the message |
| Strs.ListText | src/network_backup_onsite/utils.py:187 | `str()` of a list always starts with '[' and ends with ']', so it is at least two characters long |
| Onsite.World.CreatePath | src/network_backup_onsite/utils.py:45-60 | `create_path` answers true exactly when the path existed or `makedirs` accepts it; the path then exists, and on false nothing changed |
| Utils.ToSeconds | src/network_backup_onsite/utils.py:91-107 | succeeds exactly when all but the last character is a number and the last is s, m or h, with the number times 1, 60 or 3600; a bad number gives ValueError whatever the unit |
| Utils.ToSecondsOfRendered | src/network_backup_onsite/utils.py:91-107 | a number written in decimal followed by a unit converts back to that number times the unit's seconds; any other unit gives KeyError |
| Utils.ToSecondsExamples | src/network_backup_onsite/utils.py:91-107 | "2s" is 2, "5m" is 300 and "3h" is 10800; "5x" gives KeyError; "xs", "ax" and "" give ValueError |
| Utils.ToBytes | src/network_backup_onsite/utils.py:191-210 | when "GB" or "MB" occurs, the last two characters are the unit and the result is the number PLUS the unit's value; otherwise only a final 'B' is accepted, adding 1; a bad number gives ValueError before a bad unit is looked at |
| Utils.ToBytesTwoLetterRendered | src/network_backup_onsite/utils.py:202-203 | "<n>MB" and "<n>GB" give n plus 10^6 and n plus 10^9 |
| Utils.ToBytesOneLetterRendered | src/network_backup_onsite/utils.py:202-205 | "<n>B" gives n + 1, and "<n>KB" always gives ValueError, since the identity test on "KB" never holds |
| Utils.ToBytesConfigExample | src/network_backup_onsite/utils.py:202-203 | "100MB" is 1000100 bytes |
| Utils.ToBytesShortUnitExamples | src/network_backup_onsite/utils.py:199-205 | "5B" is 6 bytes and "2KB" is refused with ValueError |
| Utils.SplitHead | src/network_backup_onsite/utils.py:168 | the head of `os.path.split` is a prefix of the path, strictly shorter unless the path is empty or all slashes |
| Utils.ShrinkIsPrefix | src/network_backup_onsite/utils.py:165-177 | shrinking only drops a suffix; it reports found exactly when the result exists, and gives up only on a blank path |
| Utils.ShrinkStopsAtFirst | src/network_backup_onsite/utils.py:166-168 | an existing path is returned as it is; otherwise the search goes on from its head |
| Utils.GetExistingRootPath | src/network_backup_onsite/utils.py:148-177 | an empty path raises IndexError; a path starting with neither '.' nor '/' is refused with its message; any other path gives the first existing ancestor the splits reach, with the matching message |
| Utils.PopenCommunicate | src/network_backup_onsite/utils.py:63-88 | with an empty host or command nothing is run and ("", "") is returned; otherwise the remote output is returned |
| BackupSettings.HostSplits | src/network_backup_onsite/backup_settings.py:75 | a `user@ip` host splits back into the user name and the address at its first '@' when the user name holds none; the OMBS host (line 125) is built the same way |
| BackupSettings.NodeHostSplits | src/network_backup_onsite/backup_settings.py:58-75 | a node's SSH host gives back its user name and IP |
| BackupSettings.ConfigFile.Get | src/network_backup_onsite/backup_settings.py:301-305 | `config.get` fails with NoSectionError exactly for an unknown section other than DEFAULT; a missing option is reported under its lower-case name |
| BackupSettings.GetMeaning | src/network_backup_onsite/backup_settings.py:301-305 | the section's own value wins; [DEFAULT] fills in only what the section lacks; an option found in neither is missing |
| BackupSettings.GetIgnoresCase | src/network_backup_onsite/backup_settings.py:301-305 | option names that differ only in case name the same option |
| BackupSettings.OptionError | src/network_backup_onsite/backup_settings.py:236-239 | a lookup error is re-raised with code ConfigurationFileOptionError |
| BackupSettings.Lookup | src/network_backup_onsite/backup_settings.py:233-239 | a lookup succeeds with the option's value, or raises the option error built from the lookup's own error |
| BackupSettings.GetNotificationHandler | src/network_backup_onsite/backup_settings.py:223-243 | succeeds exactly when EMAIL_TO and EMAIL_URL are found; the handler holds them with the default domain; otherwise the error is the code-53 error of the first missing option, EMAIL_TO before EMAIL_URL |
| BackupSettings.GetOmbsConfig | src/network_backup_onsite/backup_settings.py:245-270 | succeeds exactly when all four options are found; the folder, host and key come from them; otherwise the error is the code-53 error of the first missing option, in the order IP, USERNAME, BKP_DIR, KEY_PATH |
| BackupSettings.Bytes | src/network_backup_onsite/backup_settings.py:342-345 | a size converts exactly as `to_bytes` does, and its error escapes unwrapped |
| BackupSettings.GetBackupConfig | src/network_backup_onsite/backup_settings.py:329-353 | succeeds exactly when PATH, BUFFER_SIZE and MIN_BACKUP_SIZE are found and both sizes parse, and then holds the path and both sizes through `to_bytes`; otherwise the first failing step decides: a missing option raises code 53 naming it, and a bad size escapes as the parser's own error |
| BackupSettings.GetDelayConfig | src/network_backup_onsite/backup_settings.py:355-370 | succeeds exactly when BKP_MAX_DELAY is found, and keeps it as text; otherwise the error is the code-53 error naming that option |
| BackupSettings.BackupConfigOfRenderedSizes | src/network_backup_onsite/backup_settings.py:340-345 | a BUFFER_SIZE of "<n>MB" and a MIN_BACKUP_SIZE of "<m>B" give n + 1000000 and m + 1 bytes |
| BackupSettings.RemoveFirst | src/network_backup_onsite/backup_settings.py:290 | `list.remove` succeeds exactly when the name is in the list, and removes one occurrence |
| BackupSettings.RemoveFirstKeepsOrder | src/network_backup_onsite/backup_settings.py:290 | it removes the first occurrence and keeps the other sections in their order |
| BackupSettings.RemoveAllMeaning | src/network_backup_onsite/backup_settings.py:289-293 | successive removals succeed exactly when the list holds every name as often as it is named; what is left is the list minus those names; a failure names a missing one |
| BackupSettings.RemoveAllFailureSticks | src/network_backup_onsite/backup_settings.py:289-293 | once a removal has raised, later removals do not run |
| BackupSettings.NodeSectionsMeaning | src/network_backup_onsite/backup_settings.py:289-293 | the node sections exist exactly when all four reserved sections are present; they are the sections minus the reserved ones; otherwise the error names a missing reserved section |
| BackupSettings.RemoveAllKeepsOrder | src/network_backup_onsite/backup_settings.py:289-293 | for distinct sections holding every name, the successive removals leave exactly the other sections, in their order |
| BackupSettings.NodeSectionsInOrder | src/network_backup_onsite/backup_settings.py:289-293 | for the distinct sections of a parsed file holding all four reserved ones, the node sections are the others, in file order |
| BackupSettings.ParsedNodeSectionsInOrder | src/network_backup_onsite/backup_settings.py:289-293 | for any parsed file holding the four reserved sections, the node sections are the others, in file order |
| BackupSettings.RemoveEach | src/network_backup_onsite/backup_settings.py:289-293 | the loop of removals gives the same result as the successive removals |
| BackupSettings.RemoveReserved | src/network_backup_onsite/backup_settings.py:289-293 | removing the four reserved sections gives the node sections |
| BackupSettings.ReadNodeFields | src/network_backup_onsite/backup_settings.py:299-308 | a node read under a host name carries that host name |
| BackupSettings.ReadNodeFieldsMeaning | src/network_backup_onsite/backup_settings.py:301-308 | the read succeeds exactly when IP, TYPE, EQ_PROMPT, USERNAME and PASSWORD are all found, and each field is that option's value |
| BackupSettings.ReadNodeSection | src/network_backup_onsite/backup_settings.py:310-319 | a node read from a section carries that section's HOSTNAME |
| BackupSettings.ReadEachFailMeaning | src/network_backup_onsite/backup_settings.py:310-325 | the loop succeeds exactly when every section can be read, and otherwise fails with a lookup error |
| BackupSettings.ReadEachMeaning | src/network_backup_onsite/backup_settings.py:310-319 | on success there is one entry per section, in order, keyed by the section and holding what was read from it |
| BackupSettings.ReadEachFailureSticks | src/network_backup_onsite/backup_settings.py:310-325 | a failed read ends the loop whatever sections follow |
| BackupSettings.ReadSections | src/network_backup_onsite/backup_settings.py:310-325 | the loop over sections gives the entries of the sections, or the first lookup that failed |
| BackupSettings.ReadNodes | src/network_backup_onsite/backup_settings.py:310-319 | the loop reads every section, HOSTNAME first, and gives the same entries as the per-section reads |
| BackupSettings.GetNodeConfigDict | src/network_backup_onsite/backup_settings.py:272-327 | removes the reserved sections, then reads the single named node or every node section |
| BackupSettings.AllNodesRead | src/network_backup_onsite/backup_settings.py:310-327 | without a host name, the dictionary has one entry per node section, in order, each read from its section |
| BackupSettings.OneNodeRead | src/network_backup_onsite/backup_settings.py:299-308 | with a non-blank host name, the dictionary is that single node, keyed and named by the argument |
| BackupSettings.MissingReservedSection | src/network_backup_onsite/backup_settings.py:289-293 | a missing reserved section raises before any node is read |
| BackupSettings.GetConfigFilePath | src/network_backup_onsite/backup_settings.py:181-191 | `~/network_backup_offsite/config` is used when readable, else the package's `config` directory |
| BackupSettings.ConfigFilePathEndsWithName | src/network_backup_onsite/backup_settings.py:181-191 | whichever directory is chosen, the path ends with the file name |
| BackupSettings.GetConfigDetails | src/network_backup_onsite/backup_settings.py:193-221 | an inaccessible file raises code 51 naming the path; a parse error raises 52 and a read error 51; otherwise the parsed file is returned, well-formed as `ConfigParser` leaves it (sections distinct and in file order, [DEFAULT] apart, option names in lower case) |
| BackupSettings.MakeScriptSettings | src/network_backup_onsite/backup_settings.py:165-179 | construction succeeds exactly when the chosen file is readable and parses; otherwise it raises code 51 or 52 |
| Notification.MakeNotificationHandler | src/network_backup_onsite/notification_handler.py:44-57 | recipient and URL are kept; a missing or empty domain becomes "ericsson.com" |
| Notification.LinesAreFlattenedStrings | src/network_backup_onsite/notification_handler.py:189-205 | the text is the non-empty strings of the nested list, depth first, each followed by "<br>" |
| Notification.GetLinesFromList | src/network_backup_onsite/notification_handler.py:189-205 | the loop, recursing into nested lists, produces exactly those lines |
| Notification.CliArgumentsLineAsWrittenNeverEmpty | src/network_backup_onsite/notification_handler.py:207-222 | as written, the "no arguments" line never appears; with no arguments the body lists "[]" |
| Notification.CliArgumentsLine | src/network_backup_onsite/notification_handler.py:207-222 | the intended line: "no arguments" exactly when none was given, otherwise the list of arguments |
| Notification.Header | src/network_backup_onsite/notification_handler.py:173-177 | there is a header exactly for a non-empty list in an error or success mail, and it is the one for that kind |
| Notification.StopLine | src/network_backup_onsite/notification_handler.py:181-182 | the exit-code line appears exactly in an error mail with a non-zero code, and names that code |
| Notification.PrepareEmailBody | src/network_backup_onsite/notification_handler.py:162-187 | the body is the CLI line as the program writes it, the header, the flattened lines, the exit-code line and the version footer, in this order |
| Notification.IntendedBodyDiffersOnlyWithoutArguments | src/network_backup_onsite/notification_handler.py:171 | the body as written and the body with the intended CLI line agree whenever an argument was given, and differ for a run without arguments |
| Notification.EmailBodyFrame | src/network_backup_onsite/notification_handler.py:171-187 | every body starts with the CLI line as written and ends with the version line |
| Notification.EmptyErrorEmail | src/network_backup_onsite/notification_handler.py:162-187 | an error mail with an empty list and no or zero code has nothing between those two lines |
| Notification.ErrorEmailExample | src/network_backup_onsite/notification_handler.py:162-187 | a one-line error mail with code 3 from a run without arguments reads "...the following arguments:<br>[]<br><br>", header, line, "System stopped with error code: 3.", version |
| Notification.AsList | src/network_backup_onsite/notification_handler.py:118-119 | a list argument is kept, anything else becomes a one-entry list |
| Notification.SendFailure | src/network_backup_onsite/notification_handler.py:97-100 | a failed POST raises with code ErrorSendingEmail |
| Notification.SendMail | src/network_backup_onsite/notification_handler.py:59-104 | a blank sender is refused before posting; otherwise the mail is sent exactly when the POST succeeds, from the stripped, lower-cased sender at the domain, to the recipient, with the given subject and body |
| Notification.SenderAddressShape | src/network_backup_onsite/notification_handler.py:71-74 | the sender address is the stripped, lower-case label at the default domain |
| Notification.LocalPartShape | src/network_backup_onsite/notification_handler.py:74 | the address's local part is non-empty, has no blank at either end and no capital |
| Notification.SendErrorEmail | src/network_backup_onsite/notification_handler.py:106-128 | an error mail with the error list and the code, with the delivery conditions of `send_mail` |
| Notification.SendSuccessEmail | src/network_backup_onsite/notification_handler.py:130-144 | a success mail with no code, with the same delivery conditions |
| Notification.SendWarningEmail | src/network_backup_onsite/notification_handler.py:146-160 | a mail with neither header nor code |
| Notification.WrappedArgumentSameMail | src/network_backup_onsite/notification_handler.py:106-160 | a bare string and the one-entry list holding it give the same mail |
| InputValidators.ValidateLogLevel | src/network_backup_onsite/input_validators.py:74-99 | the result is always one of the five levels, and a numeric level is kept |
| InputValidators.NoLetterNoLevel | src/network_backup_onsite/input_validators.py:84-97 | a text not starting with a letter becomes INFO |
| InputValidators.UnknownNumberIsInfo | src/network_backup_onsite/input_validators.py:81-97 | a number that is not a level becomes INFO |
| InputValidators.NumeralIsInfo | src/network_backup_onsite/input_validators.py:81-97 | a level typed as digits arrives as text and becomes INFO |
| InputValidators.CapitalNameRecognised | src/network_backup_onsite/input_validators.py:86-95 | "DEBUG" is recognised as DEBUG |
| InputValidators.LevelOfLowered | src/network_backup_onsite/input_validators.py:84-97 | lower-casing the name first changes nothing |
| InputValidators.NameLevels | src/network_backup_onsite/input_validators.py:84-97 | each of the five level names, spelled in any mix of cases, gives its level, and every other text gives INFO |
| InputValidators.ValidateLogLevelIdempotent | src/network_backup_onsite/input_validators.py:74-99 | validating a validated level gives it back |
| InputValidators.ValidateLogRootPath | src/network_backup_onsite/input_validators.py:52-71 | the default replaces a missing or blank path; the chosen path is returned exactly when it exists or can be created; otherwise the error names it and nothing changes |
| InputValidators.BlankLogRootUsesDefault | src/network_backup_onsite/input_validators.py:65-66 | a blank path behaves as no path |
| InputValidators.NodeErrorsMeaning | src/network_backup_onsite/input_validators.py:144-178 | a node adds no message exactly when it passes every check; it adds at most eight messages, and a missing host name comes first |
| InputValidators.AllErrorsAppend | src/network_backup_onsite/input_validators.py:144-178 | the messages of two runs of entries are those of the first run followed by those of the second |
| InputValidators.AllErrorsEmpty | src/network_backup_onsite/input_validators.py:144-178 | the entries add no message exactly when each entry adds none |
| InputValidators.NodesErrorsMeaning | src/network_backup_onsite/input_validators.py:128-183 | there are no messages exactly when there is a node and every node is valid; an empty dictionary gives only the "no nodes" message |
| InputValidators.ValidateNodes | src/network_backup_onsite/input_validators.py:128-183 | appends the messages, in check order, to the caller's list; answers whether the list is empty afterwards, earlier messages included |
| InputValidators.ValidateBackupLocation | src/network_backup_onsite/input_validators.py:186-200 | with a caller's list it returns True and leaves the list alone; only without one is the path checked |
| InputValidators.ValidateNodesBackupLocation | src/network_backup_onsite/input_validators.py:102-125 | the outcome depends only on the nodes, since the backup path is never looked at |
| InputValidators.NodesBackupLocationMeaning | src/network_backup_onsite/input_validators.py:102-125 | it raises exactly when a node is missing or invalid, with the collected messages |
| InputValidators.ValidateScriptSettings | src/network_backup_onsite/input_validators.py:203-235 | fills the five keys in order and stops at the first getter that raises |
| InputValidators.ScriptSettingsValidatedMeaning | src/network_backup_onsite/input_validators.py:213-235 | succeeds exactly when all five getters do, and each key holds its getter's result |
| InputValidators.NodeConfigDictNeverRaised | src/network_backup_onsite/backup_settings.py:321-325 | the node dictionary never raises a BackupSettingsException that can be printed |
| InputValidators.RaisedOnlyForMissingOptions | src/network_backup_onsite/input_validators.py:215-233 | the only printable BackupSettingsException the getters raise has code 53 |
| InputValidators.RewrappedOnlyMissingOptions | src/network_backup_onsite/input_validators.py:231-233 | so every rewrapped exception is one for a missing option |
| InputValidators.RewrappedMessageShape | src/network_backup_onsite/input_validators.py:231-233 | its message is the prefix, then "Error: 53. ", and it ends with a full stop |
| InputValidators.RewrapDefaultCode | src/network_backup_onsite/input_validators.py:231-233 | an exception built from a bare message is rewrapped with "Error: 30. " |
| InputValidators.MissingSectionEscapes | src/network_backup_onsite/input_validators.py:215-233 | when the e-mail options are present, a missing reserved section makes validation fail without the rewrapping |
| InputValidators.ConstructorErrorsNotRewrapped | src/network_backup_onsite/input_validators.py:213 | a file that cannot be found or parsed raises from the constructor with code 51 or 52, not rewrapped |
| NodeBackup.Stamp | src/network_backup_onsite/node_backup_handler.py:46-47 | the date stamp is eight digits |
| NodeBackup.StampRoundTrip | src/network_backup_onsite/node_backup_handler.py:46-47 | the stamp reads back as the same date |
| NodeBackup.StampInjective | src/network_backup_onsite/node_backup_handler.py:46-48 | different days get different folder names |
| NodeBackup.NodeError.Message | src/network_backup_onsite/node_backup_handler.py:126-129 | the tool gives its own text exactly to the folder and connection errors |
| NodeBackup.BackupFolderCreatedMeaning | src/network_backup_onsite/node_backup_handler.py:37-55 | the folder path is returned exactly when it exists or can be created; an existing folder changes nothing; a refusal raises naming the folder |
| NodeBackup.CreateBackupFolderOnsite | src/network_backup_onsite/node_backup_handler.py:37-55 | the method takes exactly that step |
| NodeBackup.AppendAll | src/network_backup_onsite/node_backup_handler.py:65-68 | writing the messages one by one appends their concatenation and one event per message, and leaves the folders and reply queues alone |
| NodeBackup.WrittenToFile | src/network_backup_onsite/node_backup_handler.py:58-68 | the write fails exactly in a folder that is not writable, and then nothing changes; otherwise the messages follow what the file held |
| NodeBackup.WriteToFile | src/network_backup_onsite/node_backup_handler.py:58-68 | the loop writes exactly that |
| NodeBackup.LoggedIn | src/network_backup_onsite/node_backup_handler.py:98-139 | a run that gets past the password prompt holds the dialogue on an empty file, after exactly truncate, spawn, expect and password |
| NodeBackup.UnwritableFolder | src/network_backup_onsite/node_backup_handler.py:107-112 | a folder the file cannot be created in makes the run raise at once, changing nothing |
| NodeBackup.LoginComesFirst | src/network_backup_onsite/node_backup_handler.py:120-142 | whatever the device type, the first four steps are the login |
| NodeBackup.NoPromptNoPassword | src/network_backup_onsite/node_backup_handler.py:131 | without a password prompt the run raises after spawning, without sending the password |
| NodeBackup.CaptureMeaning | src/network_backup_onsite/node_backup_handler.py:163-171 | a timeout raises and leaves the files alone; a match writes the banner and what followed the match, then sends "exit" |
| NodeBackup.SrxDialogueSaved | src/network_backup_onsite/node_backup_handler.py:142-171 | the srx dialogue: prompt within 240 s, the "display set" command, the configured sleep, wait for "set", write, "exit" |
| NodeBackup.SrxSession | src/network_backup_onsite/node_backup_handler.py:92-172 | a whole srx session with an answering device leaves exactly the banner and the listing in the file, with that trace |
| NodeBackup.SwitchDialogueSaved | src/network_backup_onsite/node_backup_handler.py:149-171 | the switch dialogue: prompt, "disable clipaging", "#", "show configuration", sleep, "#", write, "exit" |
| NodeBackup.SwitchSession | src/network_backup_onsite/node_backup_handler.py:92-172 | a whole switch session with an answering device leaves exactly the banner and the listing in the file |
| NodeBackup.UnsupportedSession | src/network_backup_onsite/node_backup_handler.py:158-161 | any other type gets the banner and "Equipment not supported!" after the login, with no command and no "exit" |
| NodeBackup.CaptureSound | src/network_backup_onsite/node_backup_handler.py:163-171 | the capture only adds to the trace, sends "exit" exactly when it saves, and leaves the files alone when it raises |
| NodeBackup.SrxDialogueSound | src/network_backup_onsite/node_backup_handler.py:142-171 | the same for the srx dialogue |
| NodeBackup.SwitchListingSound | src/network_backup_onsite/node_backup_handler.py:153-171 | the same for the switch listing |
| NodeBackup.SwitchDialogueSound | src/network_backup_onsite/node_backup_handler.py:149-171 | the same for the switch dialogue |
| NodeBackup.UnsupportedNoteSound | src/network_backup_onsite/node_backup_handler.py:158-161 | the same for the unsupported note |
| NodeBackup.DialogueMeaning | src/network_backup_onsite/node_backup_handler.py:141-171 | the same for whichever dialogue the type selects |
| NodeBackup.FailureLeavesFileEmpty | src/network_backup_onsite/node_backup_handler.py:92-172 | a run that raises leaves its backup file empty |
| NodeBackup.ExitOnlyWhenSaved | src/network_backup_onsite/node_backup_handler.py:92-172 | a run only adds to the trace, and sends "exit" exactly when it saved the configuration |
| NodeBackup.NodeBackupHandler.constructor | src/network_backup_onsite/node_backup_handler.py:74-90 | the handler keeps the node, backup and delay settings |
| NodeBackup.NodeBackupHandler.CreateNodeBackup | src/network_backup_onsite/node_backup_handler.py:92-172 | the session run against the server takes exactly the steps of `NodeRun` |
| NodeBackup.NodeBackupHandler.HoldDialogue | src/network_backup_onsite/node_backup_handler.py:141-172 | the part after the login takes exactly the steps of `Dialogue` |
| NodeBackup.CaptureOutput | src/network_backup_onsite/node_backup_handler.py:163-171 | the end of a session takes exactly the steps of `Capture` |
| OnsiteMain.ExitCode.Value | src/network_backup_onsite/main.py:53-54 | the exit codes are numbered 1 to 5 |
| OnsiteMain.ExitCodeOf | src/network_backup_onsite/main.py:53-54 | exactly the values 1 to 5 name an exit code |
| OnsiteMain.ExitCodeRoundTrip | src/network_backup_onsite/main.py:53-54 | each value names one member, and each member has its own value |
| OnsiteMain.ValidateBackupFolderAndFilesOnsite | src/network_backup_onsite/main.py:278-307 | the folder is valid exactly when it holds one regular file per node, each larger than the minimum; with the wrong count no size is looked at; when the answer is false after k sizes, the k-th file is too small and the files before it are not |
| OnsiteMain.FolderValidatedMeaning | src/network_backup_onsite/main.py:260-307 | with the wrong count the folder is invalid; with the right count it is invalid exactly when some file is at most the minimum |
| OnsiteMain.FailureStopsTheLoop | src/network_backup_onsite/main.py:350-352 | once a node raises, no later node is contacted |
| OnsiteMain.LoopPassedMeansEveryNodeReturned | src/network_backup_onsite/main.py:350-352 | a loop that ends normally had every node save or note an unsupported type |
| OnsiteMain.BackUpNodes | src/network_backup_onsite/main.py:350-352 | the loop runs one handler per node, in dictionary order, and stops at the first that raises |
| OnsiteMain.ValidationFailureSendsNothing | src/network_backup_onsite/main.py:354-363 | a folder that fails its check is the folder of the day, and nothing is started after the nodes |
| OnsiteMain.SuccessSendsTheCheckedFolder | src/network_backup_onsite/main.py:354-371 | only the folder of the day that passed its check is sent, and the scp command is the last step |
| OnsiteMain.NodeFailureIsCreationFailure | src/network_backup_onsite/main.py:346-377 | a node that raises ends the run as a creation failure with its error; the folder is neither checked nor sent |
| OnsiteMain.SenderOrDefaultNotBlank | src/network_backup_onsite/main.py:394-395 | the defaulted sender is never blank, and a non-blank given sender is kept |
| OnsiteMain.SuccessMailCaught | src/network_backup_onsite/main.py:397-400 | from a non-blank sender, a success mail is delivered exactly when the POST works; otherwise its failure is caught and logged |
| OnsiteMain.ErrorMailCaught | src/network_backup_onsite/main.py:422-425 | the same for an error mail with its exit code |
| OnsiteMain.ReportSuccessNeverRaises | src/network_backup_onsite/main.py:382-402 | `report_success` never raises: the mail goes out with the success subject and lines, or the failure is logged |
| OnsiteMain.ReportErrorNeverRaises | src/network_backup_onsite/main.py:405-430 | `report_error` never raises: the mail goes out with the error subject, lines and code, or the failure is logged |
| OnsiteMain.ReportLines | src/network_backup_onsite/main.py:359-374 | every report carries exactly one line |
| OnsiteMain.ReportLinesMeaning | src/network_backup_onsite/main.py:359-374 | the line is the success line, "Backup <folder> will not be sent to OMBS", or "Backup could not be created. Cause: ..." |
| OnsiteMain.ReportingMeaning | src/network_backup_onsite/main.py:333-379 | the run returns True exactly when the folder was sent; no report raises; the mail is the success mail, or the error mail with the outcome's own exit code |
| OnsiteMain.ExecuteBackupCreationAndSending | src/network_backup_onsite/main.py:333-379 | the method runs the backup and then reports, exactly as `Executed` says |
| OnsiteMain.RunAndSend | src/network_backup_onsite/main.py:346-369 | folder, nodes, check and scp, exactly as `BackupRun` says |
| OnsiteMain.ValidationInputMeaning | src/network_backup_onsite/main.py:124-140 | no key is ever missing from the objects, and input that passes validation has at least one node, each of them valid |
| OnsiteMain.MainExitCodes | src/network_backup_onsite/main.py:57-99 | `main` exits with 4 on rejected input, 1 after a sent folder and 3 after any other run; 2 and 5 never come from this path |

## Left out

- The logger (`CustomLogger`, `log_info`, `log_error_exit`). `log_error_exit` is modelled only as the exit code it ends the script with.
- Argument parsing (`argparse`, `parse_arguments`), `--usage`, `--version` and `show_ntwk_arg_error`. These are console I/O. The validated log options are modelled through `ValidateLogLevel` and `ValidateLogRootPath`.
- `validate_get_main_logger`. It builds a logger and nothing else.
- `get_cli_arguments` pops `sys.argv[0]` on every call, so each later e-mail in one run lists one argument fewer. The model passes the argument list in unchanged.
- The HTTP POST of `send_mail`, `ping` (`is_host_accessible`) and `socket.inet_aton` (`is_valid_ip`). Their answers are parameters: the POST's error, the set of reachable hosts and the set of valid addresses.
- pexpect, `open`, `os.makedirs`, `os.listdir` and `Popen`. Each is a queue of replies or a field of the `World` value. `expect` replies do not depend on the pattern.
- `time.sleep` and `datetime.now()`. Sleeping is a trace event. The date is one reading shared by the folder and file names.
- OnsiteMain.RunAndSend: scp's error output is never read, because `Popen` pipes only stdout, so `communicate()` always returns `None` as the error. Sending therefore succeeds once scp starts. A failed copy is not modelled.
- `report_error`'s `exit_script=True` path. No caller uses it.
- Utils.ToSeconds: the numeric prefix is a string of digits. Python's `float()` also accepts signs, decimals and exponents, and the fractional results are not modelled.
- Utils.ToBytes: the same restriction to digit prefixes.
- Utils.ToSecondsOfRendered: `to_seconds` computes in floating point, so the exact result it states holds only for values up to 2^53. Larger numbers are rounded, and a prefix of about 400 digits becomes `inf` and raises OverflowError in `int()`. The model uses exact integers.
- Utils.ToBytesTwoLetterRendered: the same floating-point limit applies to `to_bytes`.
- Utils.ToBytesOneLetterRendered: the same floating-point limit applies.
- Utils.ToSeconds: `float()` also ignores blanks around the number, so `"2 s"` is 2 seconds in the program, while the model raises ValueError for it.
- Reading and parsing the file (`ConfigParser.read`) are not modelled. Their outcome is an input, and a parsed file is taken to satisfy `ConfigFile.Valid`, the shape `ConfigParser` gives it.
- BackupSettings.ConfigFile.Get: `ConfigParser` (not `RawConfigParser`) interpolates `%(name)s` references in a value, or raises on a bad one. The model returns the value as stored.
- Strs.ListText: `repr` escapes quotes and backslashes inside an argument, and the model quotes each argument as it stands.
- Utils.ToBytes: `"KB" is file_size` is taken to be false. It compares object identity, and a string read from the configuration file is not the interned literal.
- Python 2 dictionaries iterate in hash order. The model fixes one possible order, the order of the sections in the file, and validates and backs up the nodes in that order.
- The four `sections.remove` calls are the loop `RemoveEach` over the four names.
- `str()` of an exception raised by a library (OSError, pexpect, IOError) is the parameter `libraryText`.
- `get_node_config_dict` builds its BackupSettingsException with the code and message swapped, so printing it raises AttributeError inside the `except` of `validate_script_settings`. The model keeps only the fact that it fails: `NodeLookupFailed`, which is not rewrapped.
- `SupportInfo` and the `__str__` and `__repr__` of the configuration records. They only feed the logger.
- `format_time` and `get_home_dir`. Neither is used by the modelled code paths; the home directory is a parameter.

## Findings

| source | as written | input that shows it | evidently intended | confidence | as-written member | corrected member |
|---|---|---|---|---|---|---|
| src/network_backup_onsite/notification_handler.py:214-220 | `provided_args` is `str(sys.argv)`, a list display that is never empty, so the "ran with no arguments" line is never used | running with no arguments: the e-mail says "ran with the following arguments:<br>[]" | the "no arguments" line exactly when no argument was given | not executed | Notification.CliArgumentsLineAsWrittenNeverEmpty | Notification.CliArgumentsLine |
