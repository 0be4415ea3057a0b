/** Helper functions of utils.py: the duration and size parsers, path
    joining and splitting as posixpath does it, the search for the deepest
    existing ancestor of a path, and the guard of `popen_communicate`. */
module Utils {
  import opened Strs
  import opened Wrappers

  /** The two exceptions the parsers raise. */
  datatype ParseError = ValueError | KeyError

  /** The message each parser attaches to what it raises. */
  function DurationErrorText(e: ParseError): string {
    match e
    case KeyError => "Invalid time unit (must be 's', 'h' or 'm')"
    case ValueError => "Wrong format. It must be number + time unit (3s or 4m or 5h)"
  }

  function SizeErrorText(e: ParseError): string {
    match e
    case KeyError => "Size Unit invalid (must be 'B', 'KB', 'MB' or 'GB')"
    case ValueError => "Wrong format. It must be number + szie unit (1B or 2KB or 3MB or 4GB)"
  }

  // ---------------------------------------------------------------------
  // to_seconds

  /** The `units` table of `to_seconds`. */
  function TimeUnit(c: char): Option<nat> {
    if c == 's' then Some(1)
    else if c == 'm' then Some(60)
    else if c == 'h' then Some(3600)
    else None
  }

  /** Python's `s[:-1]`: everything but the last character ("" for ""). */
  function DropLast(s: string): (r: string)
    ensures |r| == if s == [] then 0 else |s| - 1
  {
    if s == [] then "" else s[..|s| - 1]
  }

  /** `to_seconds(duration)`: the numeric prefix times the seconds of the
      unit in the last character. The prefix is converted first, so a bad
      prefix raises ValueError whatever the unit is. */
  function ToSeconds(duration: string): (r: Result<nat, ParseError>)
    ensures r.Success? <==> IsNumeral(DropLast(duration)) && TimeUnit(duration[|duration| - 1]).Some?
    ensures r == Failure(ValueError) <==> !IsNumeral(DropLast(duration))
    ensures r.Success? ==> r.value == ParseNat(DropLast(duration)) * TimeUnit(duration[|duration| - 1]).value
  {
    var prefix := DropLast(duration);
    if !IsNumeral(prefix) then Failure(ValueError)
    else
      var unit := TimeUnit(duration[|duration| - 1]);
      if unit.None? then Failure(KeyError) else Success(ParseNat(prefix) * unit.value)
  }

  /** A number written in decimal and followed by a unit converts back to the
      number times that unit; any other unit character raises KeyError. */
  lemma ToSecondsOfRendered(n: nat, unit: char)
    ensures TimeUnit(unit).Some? ==> ToSeconds(NatToDecimal(n) + [unit]) == Success(n * TimeUnit(unit).value)
    ensures TimeUnit(unit).None? ==> ToSeconds(NatToDecimal(n) + [unit]) == Failure(KeyError)
  {
    var d := NatToDecimal(n) + [unit];
    assert DropLast(d) == NatToDecimal(n);
    ParseNatToDecimal(n);
  }

  /** The worked examples of the docstring, and the precedence of ValueError. */
  lemma ToSecondsExamples()
    ensures ToSeconds("2s") == Success(2)
    ensures ToSeconds("5m") == Success(300)
    ensures ToSeconds("3h") == Success(10800)
    ensures ToSeconds("5x") == Failure(KeyError)
    ensures ToSeconds("xs") == Failure(ValueError)
    ensures ToSeconds("ax") == Failure(ValueError)
    ensures ToSeconds("") == Failure(ValueError)
  {
    ToSecondsOfRendered(2, 's');
    ToSecondsOfRendered(5, 'm');
    ToSecondsOfRendered(3, 'h');
    ToSecondsOfRendered(5, 'x');
    assert NatToDecimal(2) == "2" && NatToDecimal(5) == "5" && NatToDecimal(3) == "3";
    assert DropLast("xs") == "x";
    assert DropLast("ax") == "a" && !IsNumeral("a") by { assert !IsDigit('a'); }
  }

  // ---------------------------------------------------------------------
  // to_bytes

  /** The `units` table of `to_bytes`. */
  function SizeUnit(u: string): Option<nat> {
    if u == "B" then Some(1)
    else if u == "KB" then Some(1000)
    else if u == "MB" then Some(1000000)
    else if u == "GB" then Some(1000000000)
    else None
  }

  /** The guard of the two-letter branch. Its third disjunct, `"KB" is
      file_size`, compares object identity, and a size read from the
      configuration file is never the interned literal, so it is false. */
  predicate TwoLetterUnit(fileSize: string) {
    Contains(fileSize, "GB") || Contains(fileSize, "MB")
  }

  /** `to_bytes(file_size)`. The unit's value is ADDED to the number, and a
      one-letter unit is looked up by its last character alone. */
  function ToBytes(fileSize: string): (r: Result<nat, ParseError>)
    ensures TwoLetterUnit(fileSize) ==> |fileSize| >= 2
    ensures TwoLetterUnit(fileSize) ==>
      (r.Success? <==> IsNumeral(fileSize[..|fileSize| - 2]) && SizeUnit(fileSize[|fileSize| - 2..]).Some?)
    ensures TwoLetterUnit(fileSize) && r.Success? ==>
      r.value == ParseNat(fileSize[..|fileSize| - 2]) + SizeUnit(fileSize[|fileSize| - 2..]).value
    ensures !TwoLetterUnit(fileSize) ==>
      (r.Success? <==> IsNumeral(DropLast(fileSize)) && fileSize[|fileSize| - 1] == 'B')
    ensures !TwoLetterUnit(fileSize) && r.Success? ==> r.value == ParseNat(DropLast(fileSize)) + 1
  {
    if TwoLetterUnit(fileSize) then
      var prefix := fileSize[..|fileSize| - 2];
      if !IsNumeral(prefix) then Failure(ValueError)
      else
        var unit := SizeUnit(fileSize[|fileSize| - 2..]);
        if unit.None? then Failure(KeyError) else Success(ParseNat(prefix) + unit.value)
    else
      var prefix := DropLast(fileSize);
      if !IsNumeral(prefix) then Failure(ValueError)
      else
        var unit := SizeUnit([fileSize[|fileSize| - 1]]);
        if unit.None? then Failure(KeyError) else Success(ParseNat(prefix) + unit.value)
  }

  /** A string in which the first character of `sub` never occurs does not
      contain `sub`. */
  lemma {:induction false} NotContainsWithoutHead(s: string, sub: string)
    requires sub != []
    requires forall i :: 0 <= i < |s| ==> s[i] != sub[0]
    ensures !Contains(s, sub)
    decreases |s|
  {
    if |sub| <= |s| {
      assert s[..|sub|][0] == s[0];
      NotContainsWithoutHead(s[1..], sub);
    }
  }

  /** Digits followed by a two-letter unit MB or GB: the unit's value is
      added to the number. */
  lemma ToBytesTwoLetterRendered(n: nat, unit: string)
    requires unit == "MB" || unit == "GB"
    ensures ToBytes(NatToDecimal(n) + unit) == Success(n + SizeUnit(unit).value)
  {
    var d := NatToDecimal(n);
    ParseNatToDecimal(n);
    ContainsSuffix(d, unit);
    assert (d + unit)[..|d + unit| - 2] == d && (d + unit)[|d + unit| - 2..] == unit;
  }

  /** A number followed by B adds one byte; followed by KB it is refused,
      since neither MB nor GB occurs and "<n>K" is not a number. */
  lemma ToBytesOneLetterRendered(n: nat)
    ensures ToBytes(NatToDecimal(n) + "B") == Success(n + 1)
    ensures ToBytes(NatToDecimal(n) + "KB") == Failure(ValueError)
  {
    var d := NatToDecimal(n);
    ParseNatToDecimal(n);
    var b := d + "B";
    NotContainsWithoutHead(b, "MB");
    NotContainsWithoutHead(b, "GB");
    assert DropLast(b) == d;
    var k := d + "KB";
    NotContainsWithoutHead(k, "MB");
    NotContainsWithoutHead(k, "GB");
    assert DropLast(k)[|DropLast(k)| - 1] == 'K';
  }

  /** The configuration example: "100MB" is 1000100 bytes, not 10^8. */
  lemma ToBytesConfigExample()
    ensures ToBytes("100MB") == Success(1000100)
  {
    ToBytesTwoLetterRendered(100, "MB");
    assert NatToDecimal(10) == "10";
    assert NatToDecimal(100) + "MB" == "100MB";
  }

  /** A one-letter size adds one byte, and a kilobyte size is refused. */
  lemma ToBytesShortUnitExamples()
    ensures ToBytes("5B") == Success(6)
    ensures ToBytes("2KB") == Failure(ValueError)
  {
    ToBytesOneLetterRendered(5);
    ToBytesOneLetterRendered(2);
    assert NatToDecimal(5) + "B" == "5B";
    assert NatToDecimal(2) + "KB" == "2KB";
  }

  // ---------------------------------------------------------------------
  // posixpath.join and posixpath.split

  /** `os.path.join(a, b)`. */
  function PathJoin(a: string, b: string): (r: string)
    ensures |b| > 0 && b[0] == '/' ==> r == b
    ensures !(|b| > 0 && b[0] == '/') ==>
      |a| + |b| <= |r| <= |a| + 1 + |b| && r[..|a|] == a && r[|r| - |b|..] == b
  {
    if |b| > 0 && b[0] == '/' then b
    else if a == "" || a[|a| - 1] == '/' then a + b
    else a + "/" + b
  }

  /** The index just after the last '/' of `p`, 0 when there is none. */
  function LastSlashEnd(p: string): (i: nat)
    ensures i <= |p|
    ensures i > 0 ==> p[i - 1] == '/'
    ensures forall j :: i <= j < |p| ==> p[j] != '/'
  {
    if p == [] then 0
    else if p[|p| - 1] == '/' then |p|
    else LastSlashEnd(p[..|p| - 1])
  }

  /** `s.rstrip('/')`. */
  function RStripSlashes(s: string): (r: string)
    ensures |r| <= |s| && r == s[..|r|]
    ensures forall j :: |r| <= j < |s| ==> s[j] == '/'
  {
    if s != [] && s[|s| - 1] == '/' then RStripSlashes(s[..|s| - 1]) else s
  }

  /** The head that `os.path.split(p)` returns: everything up to the last
      slash, with trailing slashes removed unless the head is all slashes. */
  function SplitHead(p: string): (h: string)
    ensures |h| <= |p| && h == p[..|h|]
    ensures p != [] && !AllSlashes(p) ==> |h| < |p|
  {
    var head := p[..LastSlashEnd(p)];
    assert head != [] ==> head[|head| - 1] == '/';
    if head != [] && !AllSlashes(head) then RStripSlashes(head) else head
  }

  // ---------------------------------------------------------------------
  // get_existing_root_path

  /** `os.path.exists` over an abstract file system: the paths listed as
      existing, plus the root directory, which every all-slash path names. */
  predicate PathExists(existing: set<string>, p: string) {
    p in existing || AllSlashes(p)
  }

  /** What `get_existing_root_path` returns, or the IndexError it raises on
      an empty path when it reads the first character. */
  datatype RootPath =
    | RootPath(found: bool, path: string, message: string)
    | EmptyPathIndexError

  /** The loop of `get_existing_root_path` as a recursive definition: keep
      splitting off the last component until the path exists, and give up
      when it has become blank. */
  function Shrink(existing: set<string>, p: string): (string, bool)
    decreases |p|
  {
    if PathExists(existing, p) then (p, true)
    else if IsBlank(p) then (p, false)
    else Shrink(existing, SplitHead(p))
  }

  /** Shrinking only ever drops a suffix, and stops exactly at an existing
      path or at a blank one. */
  lemma {:induction false} ShrinkIsPrefix(existing: set<string>, p: string)
    ensures var (q, found) := Shrink(existing, p);
      |q| <= |p| && q == p[..|q|] &&
      (found <==> PathExists(existing, q)) &&
      (!found ==> IsBlank(q))
    decreases |p|
  {
    if !PathExists(existing, p) && !IsBlank(p) {
      var h := SplitHead(p);
      ShrinkIsPrefix(existing, h);
      var q := Shrink(existing, h).0;
      assert q == h[..|q|];
      assert h == p[..|h|];
      assert q == p[..|q|];
    }
  }

  /** One step of the search: an existing path is the result, and a path
      that neither exists nor is blank gives the result of its head. */
  lemma {:induction false} ShrinkStopsAtFirst(existing: set<string>, p: string)
    ensures PathExists(existing, p) ==> Shrink(existing, p) == (p, true)
    ensures !PathExists(existing, p) && !IsBlank(p) ==>
      Shrink(existing, p) == Shrink(existing, SplitHead(p))
  {
  }

  function InvalidRootMessage(p: string): string {
    "The destination path '" + p + "' is invalid. It should start with '.' or '/'.."
  }

  function NothingExistsMessage(original: string): string {
    "No part of the destination path: " + original + " exists."
  }

  function ShrunkMessage(p: string): string {
    "The destination path to check after shrinking: " + p + "."
  }

  /** `get_existing_root_path(destination_path)` with `os.path.exists`
      answered from `existing`. */
  method GetExistingRootPath(destination: string, existing: set<string>) returns (r: RootPath)
    ensures destination == [] <==> r == EmptyPathIndexError
    ensures destination != [] && destination[0] != '.' && destination[0] != '/' ==>
      r == RootPath(false, destination, InvalidRootMessage(destination))
    ensures destination != [] && (destination[0] == '.' || destination[0] == '/') ==>
      r.RootPath? && (r.path, r.found) == Shrink(existing, destination) &&
      r.message == (if r.found then ShrunkMessage(r.path) else NothingExistsMessage(destination))
  {
    if destination == [] {
      return EmptyPathIndexError;
    }
    var startsWithDot := destination[0] == '.';
    var absolutePath := destination[0] == '/';
    if !startsWithDot && !absolutePath {
      return RootPath(false, destination, InvalidRootMessage(destination));
    }
    var p := destination;
    while !PathExists(existing, p)
      invariant Shrink(existing, p) == Shrink(existing, destination)
      decreases |p|
    {
      StripEmptyIffBlank(p);
      if Strip(p) != "" {
        p := SplitHead(p);
      } else {
        return RootPath(false, p, NothingExistsMessage(destination));
      }
    }
    return RootPath(true, p, ShrunkMessage(p));
  }

  // ---------------------------------------------------------------------
  // popen_communicate

  datatype CommandOutput = CommandOutput(stdout: string, stderr: string)

  /** The empty-argument guard of `popen_communicate`: with an empty host or
      command nothing is spawned and the pair of empty strings is returned;
      otherwise the remote process runs and its output is `remote`. */
  function PopenCommunicate(host: string, command: string, remote: CommandOutput): (r: (CommandOutput, bool))
    ensures r.1 <==> host != "" && command != ""
    ensures !r.1 ==> r.0 == CommandOutput("", "")
    ensures r.1 ==> r.0 == remote
  {
    if host == "" || command == "" then (CommandOutput("", ""), false)
    else (remote, true)
  }
}
