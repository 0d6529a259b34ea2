/** The observable side effects of the orchestrator.
    Every process the orchestrator starts (an `ssh` probe or command, an `scp`
    transfer, a local `os.system` call) and every `time.sleep` becomes one event
    of a single trace.  The exit status of a started process is not computed
    here: it is read from an oracle, indexed by the length of the trace at the
    moment the process is started, so that any sequence of remote behaviours
    can be expressed.  The process-wide working directory is a ghost field. */
module Effects {

  datatype Event =
    | Probe(command: string, shown: bool)   // connectivity probe; output discarded unless shown
    | Remote(command: string)               // `ssh ... '<command>'`
    | Transfer(command: string)             // `scp ...`
    | Sleep(seconds: nat)
    | Local(command: string)                // `os.system(<command>)` on the local machine

  /** The exceptions the modelled code raises. */
  datatype Failure =
    | ConnectTimeout(ip: string, exitCode: int)       // "Failed to connect to ..."
    | CommandFailed(command: string, exitCode: int)   // "Failed to execute ..."
    | NameError(name: string)                         // an unbound global name
    | EmptyRow(file: string, row: nat)                // `row[0]` on an empty CSV row
    | MissingKey(key: string)                         // a property the dictionary lacks

  datatype Status = Ok | Fail(failure: Failure)

  /** The remote commands and transfers of a trace, in order: what the remote
      hosts are asked to do, without the probes, the sleeps and the local work. */
  function Commands(events: seq<Event>): (r: seq<string>)
    ensures |r| <= |events|
  {
    if events == [] then []
    else
      var init := Commands(events[..|events| - 1]);
      match events[|events| - 1]
      case Remote(c) => init + [c]
      case Transfer(c) => init + [c]
      case _ => init
  }

  /** Whether an event is a local command (the aggregation phase). */
  predicate IsLocal(e: Event) { e.Local? }

  /** The events of running `commands` locally, one `os.system` call each. */
  function LocalEvents(commands: seq<string>): (r: seq<Event>)
    ensures |r| == |commands|
    ensures forall k :: 0 <= k < |r| ==> r[k] == Local(commands[k])
  {
    if commands == [] then [] else [Local(commands[0])] + LocalEvents(commands[1..])
  }

  lemma {:induction false} LocalEventsAppend(a: seq<string>, b: seq<string>)
    ensures LocalEvents(a + b) == LocalEvents(a) + LocalEvents(b)
  {
    var joined, parts := LocalEvents(a + b), LocalEvents(a) + LocalEvents(b);
    assert |joined| == |parts|;
    forall k | 0 <= k < |joined|
      ensures joined[k] == parts[k]
    {
      if k < |a| {
        assert (a + b)[k] == a[k];
      } else {
        assert (a + b)[k] == b[k - |a|];
      }
    }
  }

  /** Running `a` and then `b` locally runs `a + b`. */
  lemma LocalEventsSnoc(start: seq<Event>, mid: seq<Event>, end: seq<Event>, a: seq<string>, b: seq<string>)
    requires mid == start + LocalEvents(a) && end == mid + LocalEvents(b)
    ensures end == start + LocalEvents(a + b)
  {
    LocalEventsAppend(a, b);
    AppendAssoc(start, LocalEvents(a), LocalEvents(b));
  }

  /** The same for a single local command. */
  lemma LocalEventsPush(start: seq<Event>, mid: seq<Event>, end: seq<Event>, done: seq<string>, command: string)
    requires mid == start + LocalEvents(done) && end == mid + [Local(command)]
    ensures end == start + LocalEvents(done + [command])
  {
    assert LocalEvents([command]) == [Local(command)];
    LocalEventsSnoc(start, mid, end, done, [command]);
  }

  lemma AppendAssoc<T>(x: seq<T>, y: seq<T>, z: seq<T>)
    ensures (x + y) + z == x + (y + z)
  {
  }

  /** Local work is not remote work: running commands locally asks no
      remote host to do anything. */
  lemma {:induction false} LocalIssuesNoCommand(commands: seq<string>)
    ensures Commands(LocalEvents(commands)) == []
    decreases |commands|
  {
    if commands != [] {
      var e := LocalEvents(commands);
      var init := commands[..|commands| - 1];
      LocalEventsAppend(init, [commands[|commands| - 1]]);
      assert init + [commands[|commands| - 1]] == commands;
      assert e[..|e| - 1] == LocalEvents(init);
      LocalIssuesNoCommand(init);
    }
  }

  /** `Commands` distributes over concatenation of traces. */
  lemma {:induction false} CommandsAppend(a: seq<Event>, b: seq<Event>)
    ensures Commands(a + b) == Commands(a) + Commands(b)
    decreases |b|
  {
    if b == [] {
      assert a + b == a;
    } else {
      var b' := b[..|b| - 1];
      CommandsAppend(a, b');
      assert (a + b)[..|a + b| - 1] == a + b';
      assert b[..|b| - 1] == b';
      assert (a + b)[|a + b| - 1] == b[|b| - 1];
    }
  }

  /** The local machine and the remote hosts, as one trace. */
  class Env {
    var events: seq<Event>
    /** Exit status of the process started when the trace holds that many events. */
    const exitCode: nat -> int
    ghost var cwd: string

    constructor (exitCode: nat -> int, cwd: string)
      ensures events == [] && this.exitCode == exitCode && this.cwd == cwd
    {
      events := [];
      this.exitCode := exitCode;
      this.cwd := cwd;
    }

    /** Starts a process and waits for it (`subprocess.call`, `os.system`). */
    method Spawn(e: Event) returns (exit: int)
      modifies this
      ensures events == old(events) + [e]
      ensures exit == exitCode(|old(events)|)
      ensures cwd == old(cwd)
    {
      exit := exitCode(|events|);
      events := events + [e];
    }

    /** `time.sleep(seconds)`. */
    method Pause(seconds: nat)
      modifies this
      ensures events == old(events) + [Sleep(seconds)]
      ensures cwd == old(cwd)
    {
      events := events + [Sleep(seconds)];
    }

    /** `os.chdir(dir)`: only the working directory changes. */
    ghost method ChangeDir(dir: string)
      modifies this
      ensures cwd == dir && events == old(events)
    {
      cwd := dir;
    }
  }
}
