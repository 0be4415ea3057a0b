/** notification_handler.py: the notification e-mails of a run, their sender
    address and the HTML body built from nested message lists. */
module Notification {
  import opened Strs
  import opened Wrappers
  import opened Exceptions

  const DefaultDomain: string := "ericsson.com"

  /** The kind of an e-mail, with the class constants OTHER, SUCCESS and
      ERROR. */
  datatype EmailKind = Other | SuccessMail | ErrorMail {
    function Value(): nat {
      match this
      case Other => 0
      case SuccessMail => 1
      case ErrorMail => 2
    }
  }

  /** An entry of a message list: a string, a nested list, or `None`. */
  datatype Item = Text(text: string) | Items(items: seq<Item>) | NoneItem {
    /** Python truthiness of the entry. */
    predicate Truthy() {
      (Text? && text != "") || (Items? && items != [])
    }
  }

  /** A `NotificationHandler` once built; its fields are never reassigned. */
  datatype NotificationHandler = NotificationHandler(emailTo: string, emailUrl: string, emailDomain: string)

  /** `NotificationHandler(email_to, email_url, logger, email_domain)`: a
      missing or empty domain becomes "ericsson.com". */
  function MakeNotificationHandler(emailTo: string, emailUrl: string, emailDomain: Option<string>): (h: NotificationHandler)
    ensures h.emailTo == emailTo && h.emailUrl == emailUrl
    ensures emailDomain.Some? && emailDomain.value != "" ==> h.emailDomain == emailDomain.value
    ensures emailDomain.None? || emailDomain.value == "" ==> h.emailDomain == DefaultDomain
  {
    NotificationHandler(emailTo, emailUrl,
      if emailDomain.Some? && emailDomain.value != "" then emailDomain.value else DefaultDomain)
  }

  // ---------------------------------------------------------------------
  // _get_lines_from_list

  /** The text `_get_lines_from_list` produces for one entry. */
  function ItemLines(item: Item): string
    decreases item
  {
    match item
    case Text(t) => if t == "" then "" else t + "<br>"
    case Items(l) => Lines(l)
    case NoneItem => ""
  }

  /** The text `_get_lines_from_list` produces for a list, entry by entry. */
  function Lines(items: seq<Item>): string
    decreases items
  {
    if items == [] then "" else Lines(items[..|items| - 1]) + ItemLines(items[|items| - 1])
  }

  /** The reference meaning of the text: the non-empty strings of the nested
      list, depth first and in order. */
  function Flatten(items: seq<Item>): (r: seq<string>)
    ensures forall i :: 0 <= i < |r| ==> r[i] != ""
    decreases items
  {
    if items == [] then []
    else
      var last := items[|items| - 1];
      Flatten(items[..|items| - 1]) +
        (match last
         case Text(t) => if t == "" then [] else [t]
         case Items(l) => Flatten(l)
         case NoneItem => [])
  }

  /** Each line followed by "<br>". */
  function JoinBr(lines: seq<string>): (r: string)
    ensures lines == [] ==> r == ""
  {
    if lines == [] then "" else JoinBr(lines[..|lines| - 1]) + lines[|lines| - 1] + "<br>"
  }

  lemma {:induction false} JoinBrAppend(a: seq<string>, b: seq<string>)
    ensures JoinBr(a + b) == JoinBr(a) + JoinBr(b)
    decreases |b|
  {
    if b != [] {
      var b' := b[..|b| - 1];
      assert (a + b)[..|a + b| - 1] == a + b';
      JoinBrAppend(a, b');
    } else {
      assert a + b == a;
    }
  }

  /** The text is exactly the flattened strings, each ended by "<br>":
      nested lists are spliced in place and falsy entries leave no trace. */
  lemma {:induction false} LinesAreFlattenedStrings(items: seq<Item>)
    ensures Lines(items) == JoinBr(Flatten(items))
    decreases items
  {
    if items != [] {
      var init, last := items[..|items| - 1], items[|items| - 1];
      LinesAreFlattenedStrings(init);
      var tail := match last
        case Text(t) => if t == "" then [] else [t]
        case Items(l) => Flatten(l)
        case NoneItem => [];
      JoinBrAppend(Flatten(init), tail);
      match last
      case Text(t) =>
        if t != "" { assert JoinBr([t]) == t + "<br>"; }
      case Items(l) =>
        LinesAreFlattenedStrings(l);
      case NoneItem =>
    }
  }

  /** `_get_lines_from_list(email_text_list)`: a loop over the entries that
      recurses into nested lists. */
  method GetLinesFromList(items: seq<Item>) returns (fullText: string)
    ensures fullText == JoinBr(Flatten(items))
    decreases Items(items)
  {
    fullText := "";
    var i := 0;
    while i < |items|
      invariant 0 <= i <= |items|
      invariant fullText == Lines(items[..i])
    {
      var line := items[i];
      assert items[..i + 1][..i] == items[..i];
      if line.Truthy() && line.Items? {
        var nested := GetLinesFromList(line.items);
        LinesAreFlattenedStrings(line.items);
        fullText := fullText + nested;
      } else if line.Truthy() {
        fullText := fullText + line.text + "<br>";
      }
      i := i + 1;
    }
    assert items[..i] == items;
    LinesAreFlattenedStrings(items);
  }

  // ---------------------------------------------------------------------
  // _get_cli_arguments_into_email_body

  /** `str(sys.argv)` once the script name is popped: a list display such as
      `['--usage']`. */
  function ProvidedArguments(argv: seq<string>): string {
    ListText(argv)
  }

  /** The CLI line as written: `provided_args` is the text of a list, which
      is never empty, so the "no arguments" text never survives. */
  function CliArgumentsLineAsWritten(argv: seq<string>): string {
    var provided := ProvidedArguments(argv);
    if provided != "" then "ntwk_bkp ran with the following arguments:<br>" + provided + "<br><br>"
    else "ntwk_bkp ran with no arguments.<br>"
  }

  /** With no arguments at all, the line as written still claims arguments
      and lists the empty display `[]`. */
  lemma CliArgumentsLineAsWrittenNeverEmpty(argv: seq<string>)
    ensures CliArgumentsLineAsWritten(argv) != "ntwk_bkp ran with no arguments.<br>"
    ensures CliArgumentsLineAsWritten([]) == "ntwk_bkp ran with the following arguments:<br>[]<br><br>"
  {
    // the line names at least the two brackets of the list, so it is longer
    assert |ProvidedArguments(argv)| >= 2;
    assert ListText([]) == "[]";
  }

  /** The intended CLI line: the "no arguments" text exactly when no
      argument was given, otherwise the list of arguments. */
  function CliArgumentsLine(argv: seq<string>): (r: string)
    ensures argv == [] <==> r == "ntwk_bkp ran with no arguments.<br>"
    ensures argv != [] ==> r == "ntwk_bkp ran with the following arguments:<br>" + ProvidedArguments(argv) + "<br><br>"
  {
    if argv == [] then "ntwk_bkp ran with no arguments.<br>"
    else
      var r := "ntwk_bkp ran with the following arguments:<br>" + ProvidedArguments(argv) + "<br><br>";
      assert |r| > |"ntwk_bkp ran with no arguments.<br>"|;
      r
  }

  // ---------------------------------------------------------------------
  // _prepare_email_body

  const ErrorHeader: string := "The following errors happened during this operation:<br>"
  const SuccessHeader: string := "The following operations were successfully finished:<br>"

  /** The header line for a kind of e-mail and a message list. */
  function Header(kind: EmailKind, items: seq<Item>): (r: string)
    ensures r != "" <==> kind != Other && items != []
    ensures r != "" ==> r == (if kind == ErrorMail then ErrorHeader else SuccessHeader)
  {
    if items == [] then ""
    else match kind
      case ErrorMail => ErrorHeader
      case SuccessMail => SuccessHeader
      case Other => ""
  }

  /** The closing line about the exit code; `error_code` is truthy when it
      is present and not zero. */
  function StopLine(kind: EmailKind, errorCode: Option<int>): (r: string)
    ensures r != "" <==> kind == ErrorMail && errorCode.Some? && errorCode.value != 0
    ensures r != "" ==> r == "System stopped with error code: " + IntToString(errorCode.value) + "."
  {
    if kind == ErrorMail && errorCode.Some? && errorCode.value != 0 then
      "System stopped with error code: " + IntToString(errorCode.value) + "."
    else ""
  }

  function Footer(version: string): string {
    "<br><br>ntwk_bkp Version: " + version
  }

  /** `_prepare_email_body(type_email, message_list, error_code)`, with the
      command line and the package version passed in. The CLI line is the
      one the program writes, which lists `[]` when no argument was given. */
  function PrepareEmailBody(kind: EmailKind, items: seq<Item>, errorCode: Option<int>, argv: seq<string>, version: string): (body: string)
    ensures body == CliArgumentsLineAsWritten(argv) + Header(kind, items) + JoinBr(Flatten(items)) + StopLine(kind, errorCode) + Footer(version)
  {
    LinesAreFlattenedStrings(items);
    CliArgumentsLineAsWritten(argv) + Header(kind, items) + Lines(items) + StopLine(kind, errorCode) + Footer(version)
  }

  /** The body the method evidently means to write: the same parts, opened
      by the intended CLI line. */
  function PrepareEmailBodyIntended(kind: EmailKind, items: seq<Item>, errorCode: Option<int>, argv: seq<string>, version: string): (body: string)
    ensures body == CliArgumentsLine(argv) + Header(kind, items) + JoinBr(Flatten(items)) + StopLine(kind, errorCode) + Footer(version)
  {
    LinesAreFlattenedStrings(items);
    CliArgumentsLine(argv) + Header(kind, items) + Lines(items) + StopLine(kind, errorCode) + Footer(version)
  }

  /** The two bodies agree whenever an argument was given, and differ for a
      run without arguments, where only the intended one says so. */
  lemma IntendedBodyDiffersOnlyWithoutArguments(kind: EmailKind, items: seq<Item>, errorCode: Option<int>,
                                                argv: seq<string>, version: string)
    ensures argv != [] ==>
      PrepareEmailBody(kind, items, errorCode, argv, version) == PrepareEmailBodyIntended(kind, items, errorCode, argv, version)
    ensures argv == [] ==>
      PrepareEmailBody(kind, items, errorCode, argv, version) != PrepareEmailBodyIntended(kind, items, errorCode, argv, version)
  {
    var rest := Header(kind, items) + JoinBr(Flatten(items)) + StopLine(kind, errorCode) + Footer(version);
    if argv == [] {
      CliArgumentsLineAsWrittenNeverEmpty(argv);
      AppendCancel(CliArgumentsLineAsWritten(argv), CliArgumentsLine(argv), rest);
    }
  }

  /** Two texts followed by the same rest are equal only if they are. */
  lemma AppendCancel(a: string, b: string, rest: string)
    ensures a + rest == b + rest ==> a == b
  {
    if a + rest == b + rest {
      assert |a| == |b|;
      assert a == (a + rest)[..|a|];
      assert b == (b + rest)[..|b|];
    }
  }

  lemma FrameOf(a: string, b: string, c: string, d: string, z: string)
    ensures |a| + |z| <= |a + b + c + d + z|
    ensures (a + b + c + d + z)[..|a|] == a
    ensures (a + b + c + d + z)[|a + b + c + d + z| - |z|..] == z
  {
  }

  /** The body always opens with the CLI line as written and always closes
      with the version line. */
  lemma EmailBodyFrame(kind: EmailKind, items: seq<Item>, errorCode: Option<int>, argv: seq<string>, version: string)
    ensures var body := PrepareEmailBody(kind, items, errorCode, argv, version);
      |CliArgumentsLineAsWritten(argv)| + |Footer(version)| <= |body| &&
      body[..|CliArgumentsLineAsWritten(argv)|] == CliArgumentsLineAsWritten(argv) &&
      body[|body| - |Footer(version)|..] == Footer(version)
  {
    FrameOf(CliArgumentsLineAsWritten(argv), Header(kind, items), JoinBr(Flatten(items)), StopLine(kind, errorCode), Footer(version));
  }

  /** An error e-mail with an empty list and no exit code (or code 0) has
      nothing between the CLI line and the version line. */
  lemma EmptyErrorEmail(argv: seq<string>, version: string)
    ensures PrepareEmailBody(ErrorMail, [], None, argv, version) == CliArgumentsLineAsWritten(argv) + Footer(version)
    ensures PrepareEmailBody(ErrorMail, [], Some(0), argv, version) == CliArgumentsLineAsWritten(argv) + Footer(version)
  {
    assert Flatten([]) == [];
    assert Header(ErrorMail, []) == "" && StopLine(ErrorMail, None) == "" && StopLine(ErrorMail, Some(0)) == "";
    var cli, foot := CliArgumentsLineAsWritten(argv), Footer(version);
    assert cli + "" + "" + "" + foot == cli + foot;
  }

  /** A one-line error report with an exit code, sent by a run without
      arguments: the CLI line still lists the empty `[]`. */
  lemma ErrorEmailExample(version: string)
    ensures PrepareEmailBody(ErrorMail, [Text("disk full")], Some(3), [], version) ==
      "ntwk_bkp ran with the following arguments:<br>[]<br><br>" + ErrorHeader + "disk full<br>" +
      "System stopped with error code: 3." + Footer(version)
  {
    var items := [Text("disk full")];
    assert items[..0] == [];
    assert Flatten(items) == ["disk full"];
    var lines := JoinBr(["disk full"]);
    assert lines == "disk full<br>";
    var code := IntToString(3);
    assert code == "3";
    var stop := StopLine(ErrorMail, Some(3));
    assert stop == "System stopped with error code: " + code + ".";
    assert stop == "System stopped with error code: 3.";
    CliArgumentsLineAsWrittenNeverEmpty([]);
  }

  // ---------------------------------------------------------------------
  // send_*_email and send_mail

  /** The argument of `send_error_email` and its siblings: a list is kept,
      anything else becomes a one-entry list. */
  function AsList(arg: Item): (r: seq<Item>)
    ensures arg.Items? ==> r == arg.items
    ensures !arg.Items? ==> r == [arg]
  {
    if arg.Items? then arg.items else [arg]
  }

  /** What reaches the e-mail service: sender, recipient, subject and body. */
  datatype Mail = Mail(from: string, to: string, subject: string, body: string)

  datatype MailError =
    | EmptySender
    | NotSent(e: BasicException)

  /** The message of the exception raised when the POST fails. */
  function SendFailure(h: NotificationHandler, cause: string): (e: BasicException)
    ensures e.code == ErrorSendingEmail
  {
    NotificationHandlerException("Failed to send e-mail to " + h.emailTo + ". Cause: " + cause, Some(ErrorSendingEmail))
  }

  /** `send_mail(sender, subject, message)`; `postError` is what the HTTP
      POST raises, if anything. A blank sender is refused before anything is
      posted. */
  function SendMail(h: NotificationHandler, sender: string, subject: string, message: string, postError: Option<string>): (r: Result<Mail, MailError>)
    ensures r == Failure(EmptySender) <==> IsBlank(sender)
    ensures r.Success? <==> !IsBlank(sender) && postError.None?
    ensures r.Failure? && !IsBlank(sender) ==> r.error == NotSent(SendFailure(h, postError.value))
    ensures r.Success? ==> r.value.to == h.emailTo && r.value.subject == subject && r.value.body == message
    ensures r.Success? ==> r.value.from == Lower(Strip(sender)) + "@" + h.emailDomain
  {
    StripEmptyIffBlank(sender);
    if Strip(sender) == "" then Failure(EmptySender)
    else
      var from := Lower(Strip(sender)) + "@" + h.emailDomain;
      if postError.Some? then Failure(NotSent(SendFailure(h, postError.value)))
      else Success(Mail(from, h.emailTo, subject, message))
  }

  /** The local part of the sender address is the label without its
      surrounding blanks and without capitals, and the default domain is
      used when none was configured. */
  lemma SenderAddressShape(to: string, url: string, sender: string, subject: string, message: string)
    requires !IsBlank(sender)
    ensures var r := SendMail(MakeNotificationHandler(to, url, None), sender, subject, message, None);
      var local := Lower(Strip(sender));
      r.Success? && r.value.from == local + "@" + DefaultDomain &&
      local != "" && !IsSpace(local[0]) && !IsSpace(local[|local| - 1]) &&
      forall i :: 0 <= i < |local| ==> !('A' <= local[i] <= 'Z')
  {
    LocalPartShape(sender);
  }

  /** The local part made from a non-blank label is not empty, has no blank
      at either end and no capital. */
  lemma LocalPartShape(sender: string)
    requires !IsBlank(sender)
    ensures var local := Lower(Strip(sender));
      local != "" && !IsSpace(local[0]) && !IsSpace(local[|local| - 1]) &&
      forall i :: 0 <= i < |local| ==> !('A' <= local[i] <= 'Z')
  {
    StripEmptyIffBlank(sender);
    var l := StripLeft(sender);
    var stripped := Strip(sender);
    assert !IsSpace(stripped[0]) by { assert stripped[0] == l[0]; }
    LowerPointwise(stripped);
    var local := Lower(stripped);
    LowerCharShape(stripped[0]);
    LowerCharShape(stripped[|stripped| - 1]);
    forall i | 0 <= i < |local|
      ensures !('A' <= local[i] <= 'Z')
    {
      LowerCharShape(stripped[i]);
    }
  }

  /** Lower-casing leaves no capital and neither makes nor removes a blank. */
  lemma LowerCharShape(c: char)
    ensures !('A' <= LowerChar(c) <= 'Z')
    ensures IsSpace(LowerChar(c)) <==> IsSpace(c)
  {
  }

  /** `send_error_email(node_name, subject, error_list, error_code)`. */
  function SendErrorEmail(h: NotificationHandler, nodeName: string, subject: string, errors: Item, errorCode: Option<int>,
                          argv: seq<string>, version: string, postError: Option<string>): (r: Result<Mail, MailError>)
    ensures r.Success? ==> r.value.body == PrepareEmailBody(ErrorMail, AsList(errors), errorCode, argv, version)
    ensures r.Success? <==> !IsBlank(nodeName) && postError.None?
    ensures r == Failure(EmptySender) <==> IsBlank(nodeName)
    ensures r.Failure? && !IsBlank(nodeName) ==> r.error == NotSent(SendFailure(h, postError.value))
    ensures r.Success? ==> r.value.to == h.emailTo && r.value.subject == subject
  {
    SendMail(h, nodeName, subject, PrepareEmailBody(ErrorMail, AsList(errors), errorCode, argv, version), postError)
  }

  /** `send_success_email(node_name, subject, success_list)`. */
  function SendSuccessEmail(h: NotificationHandler, nodeName: string, subject: string, successes: Item,
                            argv: seq<string>, version: string, postError: Option<string>): (r: Result<Mail, MailError>)
    ensures r.Success? ==> r.value.body == PrepareEmailBody(SuccessMail, AsList(successes), None, argv, version)
    ensures r.Success? <==> !IsBlank(nodeName) && postError.None?
    ensures r == Failure(EmptySender) <==> IsBlank(nodeName)
    ensures r.Failure? && !IsBlank(nodeName) ==> r.error == NotSent(SendFailure(h, postError.value))
    ensures r.Success? ==> r.value.to == h.emailTo && r.value.subject == subject
  {
    SendMail(h, nodeName, subject, PrepareEmailBody(SuccessMail, AsList(successes), None, argv, version), postError)
  }

  /** `send_warning_email(node_name, subject, warning_list)`. */
  function SendWarningEmail(h: NotificationHandler, nodeName: string, subject: string, warnings: Item,
                            argv: seq<string>, version: string, postError: Option<string>): (r: Result<Mail, MailError>)
    ensures r.Success? ==> r.value.body == PrepareEmailBody(Other, AsList(warnings), None, argv, version)
    ensures r.Success? <==> !IsBlank(nodeName) && postError.None?
  {
    SendMail(h, nodeName, subject, PrepareEmailBody(Other, AsList(warnings), None, argv, version), postError)
  }

  /** A bare string and the one-entry list holding it give the same e-mail. */
  lemma WrappedArgumentSameMail(h: NotificationHandler, nodeName: string, subject: string, s: string,
                                argv: seq<string>, version: string, postError: Option<string>)
    ensures SendErrorEmail(h, nodeName, subject, Text(s), None, argv, version, postError) ==
            SendErrorEmail(h, nodeName, subject, Items([Text(s)]), None, argv, version, postError)
    ensures SendSuccessEmail(h, nodeName, subject, Text(s), argv, version, postError) ==
            SendSuccessEmail(h, nodeName, subject, Items([Text(s)]), argv, version, postError)
    ensures SendWarningEmail(h, nodeName, subject, Text(s), argv, version, postError) ==
            SendWarningEmail(h, nodeName, subject, Items([Text(s)]), argv, version, postError)
  {
  }
}
