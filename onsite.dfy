/** The surroundings the backup driver talks to, made explicit: the onsite
    file system (directories, the regular files listed in each, and their
    contents), the interactive SSH session that pexpect drives, and the
    external commands started with Popen. Every answer the outside world
    gives (whether a directory can be created, whether the session comes
    up, what an `expect` matches) is read from a queue fixed in advance, and
    every step taken is appended to a trace of events. */
module Onsite {
  import opened Strs
  import opened Utils

  /** What one `child.expect(pattern)` call yields: a match, after which the
      session's `buffer` holds the text that followed it, or the TIMEOUT or
      EOF exception. */
  datatype ExpectReply = Match(buffer: string) | Timeout

  /** One step taken against the outside world. */
  datatype Event =
    | Truncated(path: string)
    | Appended(path: string, text: string)
    | MadeDirs(path: string)
    | Spawned(command: string, timeout: nat, maxRead: nat)
    | Expected(pattern: string, timeout: nat)
    | SentLine(text: string)
    | Sent(text: string)
    | Slept(seconds: nat)
    | Ran(command: string)

  /** The state of the onsite host as seen by the tool.
      `listing[d]` names the regular files of directory `d` in the order
      `os.listdir` gives them; `blocked` holds the paths `os.makedirs` fails
      on and `readOnly` the directories no file can be opened in for
      writing. */
  datatype World = World(
    dirs: set<string>,
    listing: map<string, seq<string>>,
    files: map<string, string>,
    blocked: set<string>,
    readOnly: set<string>,
    spawnReplies: seq<bool>,
    expectReplies: seq<ExpectReply>,
    launchReplies: seq<bool>,
    trace: seq<Event>)
  {
    /** `os.path.exists(p)`. */
    predicate Exists(p: string) {
      p in dirs || p in files || AllSlashes(p)
    }

    /** The file system of the two worlds is the same. */
    predicate SameFiles(other: World) {
      dirs == other.dirs && listing == other.listing && files == other.files &&
      blocked == other.blocked && readOnly == other.readOnly
    }

    /** Whether a file can be opened for writing in directory `folder`. */
    predicate Writable(folder: string) {
      folder in dirs && folder !in readOnly
    }

    /** `create_path(p)`: true when the path already exists, otherwise the
        outcome of `os.makedirs`, which fails exactly on the blocked paths. */
    function CreatePath(p: string): (r: (World, bool))
      ensures r.1 <==> Exists(p) || p !in blocked
      ensures r.1 ==> r.0.Exists(p)
      ensures !r.1 ==> r.0 == this
    {
      if Exists(p) then (this, true)
      else if p in blocked then (this, false)
      else
        (this.(dirs := dirs + {p}, listing := listing[p := []], trace := trace + [MadeDirs(p)]), true)
    }

    /** Record `name` as a regular file of `folder` with contents `text`. */
    function Put(folder: string, name: string, text: string): (w: World)
      requires folder in dirs
    {
      var names := if folder in listing then listing[folder] else [];
      var names' := if name in names then names else names + [name];
      this.(listing := listing[folder := names'], files := files[PathJoin(folder, name) := text])
    }

    /** The contents of `folder/name`, empty when there is no such file. */
    function Contents(folder: string, name: string): string {
      var p := PathJoin(folder, name);
      if p in files then files[p] else ""
    }

    /** `open(folder/name, "w+")` followed by `close()`: the file exists and
        is empty afterwards. */
    function Truncate(folder: string, name: string): (r: (World, bool))
      ensures r.1 <==> Writable(folder)
      ensures r.1 ==> r.0.Contents(folder, name) == "" && r.0.Writable(folder)
      ensures !r.1 ==> r.0 == this
    {
      if !Writable(folder) then (this, false)
      else
        var w := Put(folder, name, "");
        (w.(trace := trace + [Truncated(PathJoin(folder, name))]), true)
    }

    /** `f.write(text)` on `folder/name` opened with mode "a+": the text goes
        after what the file already holds. */
    function Append(folder: string, name: string, text: string): (r: (World, bool))
      ensures r.1 <==> Writable(folder)
      ensures r.1 ==> r.0.Contents(folder, name) == Contents(folder, name) + text && r.0.Writable(folder)
      ensures !r.1 ==> r.0 == this
    {
      if !Writable(folder) then (this, false)
      else
        var w := Put(folder, name, Contents(folder, name) + text);
        (w.(trace := trace + [Appended(PathJoin(folder, name), text)]), true)
    }

    /** `pexpect.spawn(command, timeout, maxread)`: false when it raises
        TIMEOUT. */
    function Spawn(command: string, timeout: nat, maxRead: nat): (r: (World, bool))
      ensures r.0.trace == trace + [Spawned(command, timeout, maxRead)]
      ensures r.0.SameFiles(this) && r.0.expectReplies == expectReplies
      ensures r.1 <==> spawnReplies == [] || spawnReplies[0]
    {
      var ok := spawnReplies == [] || spawnReplies[0];
      var rest := if spawnReplies == [] then [] else spawnReplies[1..];
      (this.(spawnReplies := rest, trace := trace + [Spawned(command, timeout, maxRead)]), ok)
    }

    /** `child.expect(pattern, timeout)`: the next queued reply, and a
        timeout once the queue is used up. */
    function Expect(pattern: string, timeout: nat): (r: (World, ExpectReply))
      ensures r.0.trace == trace + [Expected(pattern, timeout)]
      ensures r.0.SameFiles(this) && r.0.spawnReplies == spawnReplies
      ensures r.1 == (if expectReplies == [] then Timeout else expectReplies[0])
    {
      if expectReplies == [] then (this.(trace := trace + [Expected(pattern, timeout)]), Timeout)
      else (this.(expectReplies := expectReplies[1..], trace := trace + [Expected(pattern, timeout)]), expectReplies[0])
    }

    function Record(e: Event): (w: World)
      ensures w.trace == trace + [e]
      ensures w.SameFiles(this) && w.spawnReplies == spawnReplies && w.expectReplies == expectReplies
    {
      this.(trace := trace + [e])
    }

    /** `Popen(command)`: false when the process cannot be started (OSError). */
    function Run(command: string): (r: (World, bool))
      ensures r.0.trace == trace + [Ran(command)]
      ensures r.0.SameFiles(this)
      ensures r.1 <==> launchReplies == [] || launchReplies[0]
    {
      var ok := launchReplies == [] || launchReplies[0];
      var rest := if launchReplies == [] then [] else launchReplies[1..];
      (this.(launchReplies := rest, trace := trace + [Ran(command)]), ok)
    }
  }

  /** The onsite host as one mutable object: each method takes the step
      named by the matching `World` function and nothing else. */
  class OnsiteServer {
    var dirs: set<string>
    var listing: map<string, seq<string>>
    var files: map<string, string>
    const blocked: set<string>
    const readOnly: set<string>
    var spawnReplies: seq<bool>
    var expectReplies: seq<ExpectReply>
    var launchReplies: seq<bool>
    var trace: seq<Event>

    function State(): World
      reads this
    {
      World(dirs, listing, files, blocked, readOnly, spawnReplies, expectReplies, launchReplies, trace)
    }

    constructor (w: World)
      ensures State() == w
    {
      dirs, listing, files := w.dirs, w.listing, w.files;
      blocked, readOnly := w.blocked, w.readOnly;
      spawnReplies, expectReplies, launchReplies := w.spawnReplies, w.expectReplies, w.launchReplies;
      trace := w.trace;
    }

    method SetState(w: World)
      requires w.blocked == blocked && w.readOnly == readOnly
      modifies this
      ensures State() == w
    {
      dirs, listing, files := w.dirs, w.listing, w.files;
      spawnReplies, expectReplies, launchReplies := w.spawnReplies, w.expectReplies, w.launchReplies;
      trace := w.trace;
    }

    method CreatePath(p: string) returns (ok: bool)
      modifies this
      ensures (State(), ok) == old(State()).CreatePath(p)
    {
      var r := State().CreatePath(p);
      SetState(r.0);
      ok := r.1;
    }

    method Truncate(folder: string, name: string) returns (ok: bool)
      modifies this
      ensures (State(), ok) == old(State()).Truncate(folder, name)
    {
      var r := State().Truncate(folder, name);
      SetState(r.0);
      ok := r.1;
    }

    method Append(folder: string, name: string, text: string) returns (ok: bool)
      modifies this
      ensures (State(), ok) == old(State()).Append(folder, name, text)
    {
      var r := State().Append(folder, name, text);
      SetState(r.0);
      ok := r.1;
    }

    method Spawn(command: string, timeout: nat, maxRead: nat) returns (ok: bool)
      modifies this
      ensures (State(), ok) == old(State()).Spawn(command, timeout, maxRead)
    {
      var r := State().Spawn(command, timeout, maxRead);
      SetState(r.0);
      ok := r.1;
    }

    method Expect(pattern: string, timeout: nat) returns (reply: ExpectReply)
      modifies this
      ensures (State(), reply) == old(State()).Expect(pattern, timeout)
    {
      var r := State().Expect(pattern, timeout);
      SetState(r.0);
      reply := r.1;
    }

    method SendLine(text: string)
      modifies this
      ensures State() == old(State()).Record(SentLine(text))
    {
      trace := trace + [SentLine(text)];
    }

    method Send(text: string)
      modifies this
      ensures State() == old(State()).Record(Sent(text))
    {
      trace := trace + [Sent(text)];
    }

    method Sleep(seconds: nat)
      modifies this
      ensures State() == old(State()).Record(Slept(seconds))
    {
      trace := trace + [Slept(seconds)];
    }

    method Run(command: string) returns (ok: bool)
      modifies this
      ensures (State(), ok) == old(State()).Run(command)
    {
      var r := State().Run(command);
      SetState(r.0);
      ok := r.1;
    }
  }
}
