/** The custom exceptions of the tool: the fixed table of error codes and the
    way an exception renders itself as text (exceptions.py). */
module Exceptions {
  import opened Strs
  import opened Wrappers

  /** The members of the `ExceptionCodes` enumeration. */
  datatype ExceptionCode =
    | DefaultExceptionCode
    | InvalidPath
    | EmptyValue
    | InvalidValue
    | CannotCreatePath
    | InvalidIPAddress
    | CannotAccessHost
    | MissingSupportContactSection
    | MissingNodeSection
    | ErrorSendingEmail
    | ConfigurationFileReadError
    | ConfigurationFileParsingError
    | ConfigurationFileOptionError
  {
    /** `code.value`. */
    function Value(): nat {
      match this
      case DefaultExceptionCode => 30
      case InvalidPath => 31
      case EmptyValue => 32
      case InvalidValue => 33
      case CannotCreatePath => 34
      case InvalidIPAddress => 35
      case CannotAccessHost => 36
      case MissingSupportContactSection => 37
      case MissingNodeSection => 38
      case ErrorSendingEmail => 40
      case ConfigurationFileReadError => 51
      case ConfigurationFileParsingError => 52
      case ConfigurationFileOptionError => 53
    }
  }

  /** `ExceptionCodes(value)`: the member that carries a value, if any. */
  function CodeOf(value: nat): (r: Option<ExceptionCode>)
    ensures r.Some? ==> r.value.Value() == value
  {
    if value == 30 then Some(DefaultExceptionCode)
    else if value == 31 then Some(InvalidPath)
    else if value == 32 then Some(EmptyValue)
    else if value == 33 then Some(InvalidValue)
    else if value == 34 then Some(CannotCreatePath)
    else if value == 35 then Some(InvalidIPAddress)
    else if value == 36 then Some(CannotAccessHost)
    else if value == 37 then Some(MissingSupportContactSection)
    else if value == 38 then Some(MissingNodeSection)
    else if value == 40 then Some(ErrorSendingEmail)
    else if value == 51 then Some(ConfigurationFileReadError)
    else if value == 52 then Some(ConfigurationFileParsingError)
    else if value == 53 then Some(ConfigurationFileOptionError)
    else None
  }

  /** Every code is found again from its value, so no two codes share a value
      and the values are exactly 30 to 38, 40 and 51 to 53. */
  lemma CodeValuesRoundTrip(c: ExceptionCode)
    ensures CodeOf(c.Value()) == Some(c)
    ensures 30 <= c.Value() <= 38 || c.Value() == 40 || 51 <= c.Value() <= 53
  {
  }

  lemma CodeValuesDistinct(c: ExceptionCode, d: ExceptionCode)
    requires c != d
    ensures c.Value() != d.Value()
  {
    CodeValuesRoundTrip(c);
    CodeValuesRoundTrip(d);
  }

  /** A `BasicException` once its code is set: its message and its code. */
  datatype BasicException = BasicException(message: string, code: ExceptionCode)

  /** `str(e)`: "Error: <code value>. <message>". */
  function Str(e: BasicException): (r: string)
    ensures |r| == 11 + |e.message|
    ensures r[..7] == "Error: " && r[9..11] == ". " && r[11..] == e.message
    ensures r[7..9] == NatToDecimal(e.code.Value())
  {
    CodeValuesRoundTrip(e.code);
    "Error: " + NatToDecimal(e.code.Value()) + ". " + e.message
  }

  /** `repr(e)`, which delegates to `str(e)`. */
  function Repr(e: BasicException): (r: string)
    ensures r == Str(e)
  {
    Str(e)
  }

  /** The text of an exception determines both its code and its message. */
  lemma StrInjective(e: BasicException, f: BasicException)
    requires Str(e) == Str(f)
    ensures e == f
  {
    NatToDecimalInjective(e.code.Value(), f.code.Value());
    CodeValuesDistinctOrEqual(e.code, f.code);
  }

  lemma CodeValuesDistinctOrEqual(c: ExceptionCode, d: ExceptionCode)
    requires c.Value() == d.Value()
    ensures c == d
  {
    CodeValuesRoundTrip(c);
    CodeValuesRoundTrip(d);
  }

  /** `NotificationHandlerException(message, code)`: a missing code becomes
      `DefaultExceptionCode`. (Enum members are always truthy, so only a
      missing code is replaced.) */
  function NotificationHandlerException(message: string, code: Option<ExceptionCode>): (e: BasicException)
    ensures e.message == message
    ensures e.code == (if code.Some? then code.value else DefaultExceptionCode)
  {
    BasicException(message, if code.Some? then code.value else DefaultExceptionCode)
  }

  /** `BackupSettingsException(message, code)`, with the same default. */
  function BackupSettingsException(message: string, code: Option<ExceptionCode>): (e: BasicException)
    ensures e.message == message
    ensures e.code == (if code.Some? then code.value else DefaultExceptionCode)
  {
    BasicException(message, if code.Some? then code.value else DefaultExceptionCode)
  }

  /** An exception built from a bare message prints with code 30. */
  lemma DefaultCodeText(message: string)
    ensures Str(BackupSettingsException(message, None)) == "Error: 30. " + message
    ensures Str(NotificationHandlerException(message, None)) == "Error: 30. " + message
  {
    assert NatToDecimal(30) == "30";
  }
}
