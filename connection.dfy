/** The `Ssh` wrapper of bin/common.py: one logical connection to one host.
    Before its first command or transfer it probes the host with `ls` until a
    probe exits 0 or 1 (at most 299 attempts, a one-second sleep after each
    failed one, output hidden during the quiet window), then latches.  A
    command is accepted when it exits 0 or 1; a transfer's exit status is never
    looked at.

    The pure functions below say what one call does to the trace; the class
    methods are proved to do exactly that. */
module Connection {
  import opened Effects
  import Packages

  /** `range(1, 300)`: the number of the last probe attempt. */
  const MAX_ATTEMPT: nat := 299
  /** The default quiet window of the `Ssh` constructor, in attempts. */
  const DEFAULT_SILENT_SECONDS: int := 30

  /** What an `Ssh` object is built from. */
  datatype Conn = Conn(ip: string, user: string, options: string, silentSeconds: int)

  function Login(c: Conn): string { c.user + "@" + c.ip }

  function ProbeCommand(c: Conn): string
  {
    "ssh " + c.options + " " + Login(c) + " ls"
  }

  function RunCommand(c: Conn, command: string): string
  {
    "ssh " + c.options + " " + Login(c) + " '" + command + "'"
  }

  function FetchCommand(c: Conn, src: string, dst: string): string
  {
    "scp " + c.options + " -q " + Login(c) + ":" + src + " " + dst
  }

  function PushCommand(c: Conn, src: string, dst: string): string
  {
    "scp " + c.options + " -q " + src + " " + Login(c) + ":" + dst
  }

  /** The exit statuses the wrapper treats as success. */
  predicate Accepted(exit: int) { exit == 0 || exit == 1 }

  /** One call on an `Ssh` object: `run`, `scp_from_remote` or `scp_to_remote`. */
  datatype Op = Exec(command: string) | Fetch(src: string, dst: string) | Push(src: string, dst: string)

  /** The trace after a call, whether the object still has to probe
      (`wait_for_connect`), and whether the call returned or raised. */
  datatype After = After(events: seq<Event>, latched: bool, status: Status)

  // ----- what one call does ------------------------------------------------

  /** The probe loop of `__wait_for_connect` from attempt `attempt` on. */
  function Probing(c: Conn, code: nat -> int, events: seq<Event>, attempt: nat): (r: After)
    requires 1 <= attempt <= MAX_ATTEMPT
    ensures |events| < |r.events|
    ensures r.status.Ok? <==> !r.latched
    ensures r.status.Fail? ==> r.status.failure.ConnectTimeout? && r.status.failure.ip == c.ip
    decreases MAX_ATTEMPT - attempt
  {
    var probed := events + [Probe(ProbeCommand(c), attempt > c.silentSeconds)];
    var exit := code(|events|);
    if Accepted(exit) then After(probed, false, Ok)
    else if attempt == MAX_ATTEMPT then After(probed + [Sleep(1)], true, Fail(ConnectTimeout(c.ip, exit)))
    else Probing(c, code, probed + [Sleep(1)], attempt + 1)
  }

  /** `__wait_for_connect`: nothing once latched, the probe loop otherwise. */
  function Connect(c: Conn, code: nat -> int, events: seq<Event>, latch: bool): (r: After)
    ensures |events| <= |r.events|
    ensures r.status.Ok? <==> !r.latched
    ensures r.status.Fail? ==> latch && r.status.failure.ConnectTimeout? && r.status.failure.ip == c.ip
  {
    if latch then Probing(c, code, events, 1) else After(events, false, Ok)
  }

  /** `__scp(command)`: connect, then copy; the copy's exit status is dropped. */
  function Copy(c: Conn, code: nat -> int, events: seq<Event>, latch: bool, command: string): (r: After)
    ensures |events| < |r.events|
    ensures r.status.Fail? ==> r.status.failure.ConnectTimeout?
    ensures r.status.Ok? ==> !r.latched && r.events[|r.events| - 1] == Transfer(command)
  {
    var a := Connect(c, code, events, latch);
    if a.status.Fail? then a else After(a.events + [Transfer(command)], a.latched, Ok)
  }

  /** The string a call hands to `subprocess.call` once connected. */
  function OpCommand(c: Conn, op: Op): string
  {
    match op
    case Exec(command) => RunCommand(c, command)
    case Fetch(src, dst) => FetchCommand(c, src, dst)
    case Push(src, dst) => PushCommand(c, src, dst)
  }

  function Perform(c: Conn, code: nat -> int, events: seq<Event>, latch: bool, op: Op): (r: After)
    ensures |events| < |r.events|
    ensures r.status.Fail? ==> r.status.failure.ConnectTimeout? || (op.Exec? && r.status.failure.CommandFailed?)
  {
    match op
    case Exec(command) =>
      var a := Connect(c, code, events, latch);
      if a.status.Fail? then a
      else
        var cmd := RunCommand(c, command);
        var exit := code(|a.events|);
        After(a.events + [Remote(cmd)], a.latched, if Accepted(exit) then Ok else Fail(CommandFailed(cmd, exit)))
    case Fetch(src, dst) => Copy(c, code, events, latch, FetchCommand(c, src, dst))
    case Push(src, dst) => Copy(c, code, events, latch, PushCommand(c, src, dst))
  }

  /** Calls on one `Ssh` object, in order; the first exception ends the sequence. */
  function RunSession(c: Conn, code: nat -> int, events: seq<Event>, latch: bool, ops: seq<Op>): (r: After)
    ensures |events| + (if r.status.Ok? then |ops| else 0) <= |r.events|
    ensures r.status.Fail? ==> r.status.failure.ConnectTimeout? || r.status.failure.CommandFailed?
    decreases |ops|
  {
    if ops == [] then After(events, latch, Ok)
    else
      var a := Perform(c, code, events, latch, ops[0]);
      if a.status.Fail? then a else RunSession(c, code, a.events, a.latched, ops[1..])
  }

  /** A per-host plan: each inner sequence runs on a freshly constructed `Ssh`
      object (which probes again before its first call).  The first exception
      ends the plan. */
  function RunSessions(c: Conn, code: nat -> int, events: seq<Event>, sessions: seq<seq<Op>>): (r: After)
    ensures |events| <= |r.events|
    ensures r.status.Fail? ==> r.status.failure.ConnectTimeout? || r.status.failure.CommandFailed?
    decreases |sessions|
  {
    if sessions == [] then After(events, true, Ok)
    else
      var a := RunSession(c, code, events, true, sessions[0]);
      if a.status.Fail? then a else RunSessions(c, code, a.events, sessions[1..])
  }

  function OpCommands(c: Conn, ops: seq<Op>): (r: seq<string>)
    ensures |r| == |ops|
  {
    if ops == [] then [] else [OpCommand(c, ops[0])] + OpCommands(c, ops[1..])
  }

  function PlanCommands(c: Conn, sessions: seq<seq<Op>>): seq<string>
  {
    if sessions == [] then [] else OpCommands(c, sessions[0]) + PlanCommands(c, sessions[1..])
  }

  // ----- the object --------------------------------------------------------

  class Ssh {
    const conn: Conn
    const env: Env
    var waitForConnect: bool

    constructor (ip: string, user: string, sshOptions: string, waitForConnect: bool, silentSeconds: int, env: Env)
      ensures conn == Conn(ip, user, sshOptions, silentSeconds)
      ensures this.env == env && this.waitForConnect == waitForConnect
    {
      conn := Conn(ip, user, sshOptions, silentSeconds);
      this.env := env;
      this.waitForConnect := waitForConnect;
    }

    method WaitForConnect() returns (s: Status)
      modifies this, env
      ensures var a := Connect(conn, env.exitCode, old(env.events), old(waitForConnect));
        env.events == a.events && waitForConnect == a.latched && s == a.status
      ensures env.cwd == old(env.cwd)
    {
      if !waitForConnect {
        return Ok;
      }
      ghost var whole := Connect(conn, env.exitCode, env.events, true);
      var cmd := ProbeCommand(conn);
      var attempt := 1;
      var exit := 0;
      while attempt < MAX_ATTEMPT + 1
        invariant 1 <= attempt <= MAX_ATTEMPT + 1
        invariant waitForConnect && env.cwd == old(env.cwd)
        invariant attempt <= MAX_ATTEMPT ==> whole == Probing(conn, env.exitCode, env.events, attempt)
        invariant attempt > MAX_ATTEMPT ==> whole == After(env.events, true, Fail(ConnectTimeout(conn.ip, exit)))
      {
        if attempt > conn.silentSeconds {
          exit := env.Spawn(Probe(cmd, true));
        } else {
          exit := env.Spawn(Probe(cmd, false));
        }
        if exit == 0 || exit == 1 {
          waitForConnect := false;
          return Ok;
        }
        env.Pause(1);
        attempt := attempt + 1;
      }
      s := Fail(ConnectTimeout(conn.ip, exit));
    }

    /** `__scp`. */
    method Scp(command: string) returns (s: Status)
      modifies this, env
      ensures var a := Copy(conn, env.exitCode, old(env.events), old(waitForConnect), command);
        env.events == a.events && waitForConnect == a.latched && s == a.status
      ensures env.cwd == old(env.cwd)
    {
      s := WaitForConnect();
      if s.Fail? {
        return;
      }
      var _ := env.Spawn(Transfer(command));
    }

    method ScpFromRemote(src: string, dst: string) returns (s: Status)
      modifies this, env
      ensures Performs(conn, env.exitCode, old(env.events), old(waitForConnect), Fetch(src, dst), env.events, waitForConnect, s)
      ensures env.cwd == old(env.cwd)
    {
      s := Scp(FetchCommand(conn, src, dst));
    }

    method ScpToRemote(src: string, dst: string) returns (s: Status)
      modifies this, env
      ensures Performs(conn, env.exitCode, old(env.events), old(waitForConnect), Push(src, dst), env.events, waitForConnect, s)
      ensures env.cwd == old(env.cwd)
    {
      s := Scp(PushCommand(conn, src, dst));
    }

    method Run(command: string) returns (s: Status)
      modifies this, env
      ensures Performs(conn, env.exitCode, old(env.events), old(waitForConnect), Exec(command), env.events, waitForConnect, s)
      ensures env.cwd == old(env.cwd)
    {
      s := WaitForConnect();
      if s.Fail? {
        return;
      }
      var cmd := RunCommand(conn, command);
      var exit := env.Spawn(Remote(cmd));
      if exit == 0 || exit == 1 {
        s := Ok;
      } else {
        s := Fail(CommandFailed(cmd, exit));
      }
    }

    method Update() returns (s: Status)
      modifies this, env
      ensures Performs(conn, env.exitCode, old(env.events), old(waitForConnect), Exec(Packages.UpdateScript()), env.events, waitForConnect, s)
      ensures env.cwd == old(env.cwd)
    {
      s := Run(Packages.UpdateScript());
    }

    method InstallOne(pkgs: seq<string>) returns (s: Status)
      modifies this, env
      ensures Performs(conn, env.exitCode, old(env.events), old(waitForConnect), Exec(Packages.InstallOneScript(pkgs)), env.events, waitForConnect, s)
      ensures env.cwd == old(env.cwd)
    {
      s := Run(Packages.InstallOneScript(pkgs));
    }

    method Install(pkg: string) returns (s: Status)
      modifies this, env
      ensures Performs(conn, env.exitCode, old(env.events), old(waitForConnect), Exec(Packages.InstallScript(pkg)), env.events, waitForConnect, s)
      ensures env.cwd == old(env.cwd)
    {
      s := Run(Packages.InstallScript(pkg));
    }
  }

  // ----- following a plan call by call -----------------------------------

  /** Made with trace `events` and latch `latch`, the call for `op` left
      trace `events'` and latch `latch'` and returned `s`. */
  predicate Performs(c: Conn, code: nat -> int, events: seq<Event>, latch: bool, op: Op,
                     events': seq<Event>, latch': bool, s: Status)
  {
    After(events', latch', s) == Perform(c, code, events, latch, op)
  }

  /** A session whose calls `ops` are still to be made from trace `events`
      and latch `latch` ends in `goal`. */
  predicate Remains(goal: After, c: Conn, code: nat -> int, events: seq<Event>, latch: bool, ops: seq<Op>)
  {
    goal == RunSession(c, code, events, latch, ops)
  }

  /** Once the call for `op` has been made, a session that still had
      `[op] + tail` to do has either ended with that call's exception, or
      has `tail` left (and has ended if `tail` is empty). */
  lemma Step(c: Conn, code: nat -> int, events: seq<Event>, latch: bool, op: Op, tail: seq<Op>, goal: After,
             events': seq<Event>, latch': bool, s: Status)
    requires Remains(goal, c, code, events, latch, [op] + tail)
    requires Performs(c, code, events, latch, op, events', latch', s)
    ensures s.Fail? || tail == [] ==> goal == After(events', latch', s)
    ensures s.Ok? ==> Remains(goal, c, code, events', latch', tail)
  {
    assert ([op] + tail)[1..] == tail;
    if s.Ok? && tail == [] {
      assert RunSession(c, code, events', latch', tail) == After(events', latch', s);
    }
  }

  /** A plan whose first session is the single call `op`: it ends with that
      call's exception, or goes on with the next session. */
  lemma FirstCall(c: Conn, code: nat -> int, events: seq<Event>, op: Op, sessions: seq<seq<Op>>,
                  events': seq<Event>, latch': bool, s: Status)
    requires Performs(c, code, events, true, op, events', latch', s)
    ensures var r := RunSessions(c, code, events, [[op]] + sessions);
      (s.Fail? ==> r == After(events', latch', s))
      && (s.Ok? ==> r == RunSessions(c, code, events', sessions))
  {
    var plan := [[op]] + sessions;
    assert plan[0] == [op] && plan[1..] == sessions;
    assert RunSession(c, code, events, true, [op]) == After(events', latch', s) by {
      assert [op][1..] == [];
    }
  }

  /** A plan that is the single call `op` ends where that call ends. */
  lemma OnlyCall(c: Conn, code: nat -> int, events: seq<Event>, op: Op, events': seq<Event>, latch': bool, s: Status)
    requires Performs(c, code, events, true, op, events', latch', s)
    ensures var r := RunSessions(c, code, events, [[op]]);
      r.events == events' && r.status == s
  {
    FirstCall(c, code, events, op, [], events', latch', s);
    assert [[op]] + [] == [[op]];
  }

  /** A plan of one session ends where that session ends. */
  lemma OneSession(c: Conn, code: nat -> int, events: seq<Event>, ops: seq<Op>)
    ensures var a := RunSession(c, code, events, true, ops);
      var r := RunSessions(c, code, events, [ops]);
      r.events == a.events && r.status == a.status
  {
    assert [ops][1..] == [];
  }

  // ----- the probe loop ----------------------------------------------------

  /** The event the probe loop records `offset` events after it started at
      attempt `first`: a probe, shown only past the quiet window, then a sleep. */
  function ProbeStep(c: Conn, first: nat, offset: nat): Event
  {
    if offset % 2 == 0 then Probe(ProbeCommand(c), first + offset / 2 > c.silentSeconds) else Sleep(1)
  }

  function ProbeCount(events: seq<Event>): nat
  {
    if events == [] then 0
    else ProbeCount(events[..|events| - 1]) + (if events[|events| - 1].Probe? then 1 else 0)
  }

  /** Starting one attempt later is starting two events further on. */
  lemma ProbeStepShift(c: Conn, first: nat, offset: nat)
    ensures ProbeStep(c, first + 1, offset) == ProbeStep(c, first, offset + 2)
  {
    assert (offset + 2) % 2 == offset % 2;
    assert (offset + 2) / 2 == offset / 2 + 1;
  }

  /** The probe loop only appends; it alternates a probe and a one-second sleep,
      and a probe's output is shown exactly when its attempt number exceeds the
      quiet window. */
  lemma ProbingShape(c: Conn, code: nat -> int, events: seq<Event>, attempt: nat)
    requires 1 <= attempt <= MAX_ATTEMPT
    ensures var r := Probing(c, code, events, attempt);
      |events| < |r.events| <= |events| + 2 * (MAX_ATTEMPT - attempt + 1)
      && r.events[..|events|] == events
      && forall k :: |events| <= k < |r.events| ==> r.events[k] == ProbeStep(c, attempt, k - |events|)
  {
    ProbingGrowth(c, code, events, attempt);
    ProbingSteps(c, code, events, attempt);
  }

  /** The probe loop only appends to the trace, at most two events per attempt. */
  lemma {:induction false} ProbingGrowth(c: Conn, code: nat -> int, events: seq<Event>, attempt: nat)
    requires 1 <= attempt <= MAX_ATTEMPT
    ensures var r := Probing(c, code, events, attempt);
      |events| < |r.events| <= |events| + 2 * (MAX_ATTEMPT - attempt + 1)
      && r.events[..|events|] == events
    decreases MAX_ATTEMPT - attempt
  {
    var probed := events + [Probe(ProbeCommand(c), attempt > c.silentSeconds)];
    if !Accepted(code(|events|)) && attempt < MAX_ATTEMPT {
      var next := probed + [Sleep(1)];
      ProbingGrowth(c, code, next, attempt + 1);
      var r := Probing(c, code, next, attempt + 1);
      assert r.events[..|events|] == r.events[..|next|][..|events|];
    }
  }

  /** What the probe loop appends: probes and sleeps, alternating. */
  lemma {:induction false} ProbingSteps(c: Conn, code: nat -> int, events: seq<Event>, attempt: nat)
    requires 1 <= attempt <= MAX_ATTEMPT
    ensures var r := Probing(c, code, events, attempt);
      forall k :: |events| <= k < |r.events| ==> r.events[k] == ProbeStep(c, attempt, k - |events|)
    decreases MAX_ATTEMPT - attempt
  {
    var probed := events + [Probe(ProbeCommand(c), attempt > c.silentSeconds)];
    if !Accepted(code(|events|)) && attempt < MAX_ATTEMPT {
      var next := probed + [Sleep(1)];
      ProbingSteps(c, code, next, attempt + 1);
      ProbingGrowth(c, code, next, attempt + 1);
      ShiftedSteps(c, attempt, events, next, Probing(c, code, next, attempt + 1).events);
    }
  }

  /** One probe and one sleep, then the steps of the loop from the next
      attempt on, are the steps of the loop from this attempt on. */
  lemma ShiftedSteps(c: Conn, attempt: nat, events: seq<Event>, next: seq<Event>, trace: seq<Event>)
    requires |next| == |events| + 2
    requires next[|events|] == Probe(ProbeCommand(c), attempt > c.silentSeconds) && next[|events| + 1] == Sleep(1)
    requires |next| <= |trace| && trace[..|next|] == next
    requires forall k :: |next| <= k < |trace| ==> trace[k] == ProbeStep(c, attempt + 1, k - |next|)
    ensures forall k :: |events| <= k < |trace| ==> trace[k] == ProbeStep(c, attempt, k - |events|)
  {
    forall k | |events| <= k < |trace|
      ensures trace[k] == ProbeStep(c, attempt, k - |events|)
    {
      if k >= |next| {
        ProbeStepShift(c, attempt, k - |next|);
      } else {
        assert trace[k] == trace[..|next|][k];
      }
    }
  }

  /** The probe loop stops at the first probe that exits 0 or 1 and at no
      other; it clears the latch exactly when it succeeds; when no probe
      succeeds it raises after the last attempt and its sleep, reporting the
      last probe's exit status. */
  lemma ProbingStopsAtFirstAccepted(c: Conn, code: nat -> int, events: seq<Event>, attempt: nat)
    requires 1 <= attempt <= MAX_ATTEMPT
    ensures var r := Probing(c, code, events, attempt);
      (forall k :: |events| <= k < |r.events| && (k - |events|) % 2 == 0 ==>
        (Accepted(code(k)) <==> r.status.Ok? && k == |r.events| - 1))
      && (r.status.Ok? <==> !r.latched)
      && (r.status.Ok? ==> (|r.events| - |events|) % 2 == 1)
      && (r.status.Fail? ==>
            |r.events| == |events| + 2 * (MAX_ATTEMPT - attempt + 1)
            && r.status.failure == ConnectTimeout(c.ip, code(|r.events| - 2)))
  {
    ProbingOutcome(c, code, events, attempt);
    ProbingFirstAccepted(c, code, events, attempt);
  }

  /** How the probe loop ends: the latch, the parity of the trace it adds and
      the timeout after the last attempt. */
  lemma ProbingOutcome(c: Conn, code: nat -> int, events: seq<Event>, attempt: nat)
    requires 1 <= attempt <= MAX_ATTEMPT
    ensures var r := Probing(c, code, events, attempt);
      (r.status.Ok? <==> !r.latched)
      && (r.status.Ok? ==> (|r.events| - |events|) % 2 == 1)
      && (r.status.Fail? ==>
            |r.events| == |events| + 2 * (MAX_ATTEMPT - attempt + 1)
            && r.status.failure == ConnectTimeout(c.ip, code(|r.events| - 2)))
  {
    ProbingTimeout(c, code, events, attempt);
    ProbingParity(c, code, events, attempt);
  }

  lemma {:induction false} ProbingTimeout(c: Conn, code: nat -> int, events: seq<Event>, attempt: nat)
    requires 1 <= attempt <= MAX_ATTEMPT
    ensures var r := Probing(c, code, events, attempt);
      (r.status.Ok? <==> !r.latched)
      && (r.status.Fail? ==>
            |r.events| == |events| + 2 * (MAX_ATTEMPT - attempt + 1)
            && r.status.failure == ConnectTimeout(c.ip, code(|r.events| - 2)))
    decreases MAX_ATTEMPT - attempt
  {
    var probed := events + [Probe(ProbeCommand(c), attempt > c.silentSeconds)];
    if !Accepted(code(|events|)) && attempt < MAX_ATTEMPT {
      var next := probed + [Sleep(1)];
      ProbingTimeout(c, code, next, attempt + 1);
      assert |next| == |events| + 2;
    }
  }

  lemma {:induction false} ProbingParity(c: Conn, code: nat -> int, events: seq<Event>, attempt: nat)
    requires 1 <= attempt <= MAX_ATTEMPT
    ensures var r := Probing(c, code, events, attempt);
      r.status.Ok? ==> (|r.events| - |events|) % 2 == 1
    decreases MAX_ATTEMPT - attempt
  {
    var probed := events + [Probe(ProbeCommand(c), attempt > c.silentSeconds)];
    if !Accepted(code(|events|)) && attempt < MAX_ATTEMPT {
      var next := probed + [Sleep(1)];
      ProbingParity(c, code, next, attempt + 1);
      var r := Probing(c, code, next, attempt + 1);
      assert |r.events| - |events| == (|r.events| - |next|) + 2;
    }
  }

  /** The probe loop stops at the first accepted probe and at no other. */
  lemma {:induction false} ProbingFirstAccepted(c: Conn, code: nat -> int, events: seq<Event>, attempt: nat)
    requires 1 <= attempt <= MAX_ATTEMPT
    ensures var r := Probing(c, code, events, attempt);
      forall k :: |events| <= k < |r.events| && (k - |events|) % 2 == 0 ==>
        (Accepted(code(k)) <==> r.status.Ok? && k == |r.events| - 1)
    decreases MAX_ATTEMPT - attempt
  {
    ProbingGrowth(c, code, events, attempt);
    ProbingOutcome(c, code, events, attempt);
    var probed := events + [Probe(ProbeCommand(c), attempt > c.silentSeconds)];
    if !Accepted(code(|events|)) && attempt < MAX_ATTEMPT {
      var next := probed + [Sleep(1)];
      ProbingFirstAccepted(c, code, next, attempt + 1);
      ProbingGrowth(c, code, next, attempt + 1);
      var r := Probing(c, code, next, attempt + 1);
      forall k | |events| <= k < |r.events| && (k - |events|) % 2 == 0
        ensures Accepted(code(k)) <==> r.status.Ok? && k == |r.events| - 1
      {
        if k >= |next| {
          assert (k - |events|) % 2 == (k - |next|) % 2;
        } else {
          assert k == |events|;
        }
      }
    }
  }

  /** Every probe attempt is counted: at least one, at most 299, and exactly
      299 when the connection times out. */
  lemma {:induction false} ProbingCount(c: Conn, code: nat -> int, events: seq<Event>, attempt: nat)
    requires 1 <= attempt <= MAX_ATTEMPT
    ensures var r := Probing(c, code, events, attempt);
      ProbeCount(events) < ProbeCount(r.events) <= ProbeCount(events) + (MAX_ATTEMPT - attempt + 1)
      && (r.status.Fail? ==> ProbeCount(r.events) == ProbeCount(events) + (MAX_ATTEMPT - attempt + 1))
    decreases MAX_ATTEMPT - attempt
  {
    var probed := events + [Probe(ProbeCommand(c), attempt > c.silentSeconds)];
    assert probed[..|probed| - 1] == events;
    assert ProbeCount(probed) == ProbeCount(events) + 1;
    if !Accepted(code(|events|)) {
      var next := probed + [Sleep(1)];
      assert next[..|next| - 1] == probed;
      assert ProbeCount(next) == ProbeCount(probed);
      if attempt < MAX_ATTEMPT {
        ProbingCount(c, code, next, attempt + 1);
      }
    }
  }

  /** A latched object (`wait_for_connect` false) probes nothing; otherwise
      the probe loop runs from attempt 1, so at most 299 probes are made and a
      timeout comes after exactly 299. */
  lemma ConnectLatch(c: Conn, code: nat -> int, events: seq<Event>, latch: bool)
    ensures var r := Connect(c, code, events, latch);
      (!latch ==> r == After(events, false, Ok))
      && (latch ==>
            ProbeCount(events) < ProbeCount(r.events) <= ProbeCount(events) + MAX_ATTEMPT
            && (r.status.Ok? <==> !r.latched)
            && (r.status.Fail? ==> ProbeCount(r.events) == ProbeCount(events) + MAX_ATTEMPT))
  {
    if latch {
      ProbingCount(c, code, events, 1);
      ProbingStopsAtFirstAccepted(c, code, events, 1);
    }
  }

  // ----- classification of exit statuses ----------------------------------

  /** `run` connects first, then issues exactly its command; it returns
      normally exactly when the command exits 0 or 1. */
  lemma RunAcceptsZeroAndOne(c: Conn, code: nat -> int, events: seq<Event>, latch: bool, command: string)
    ensures var a := Connect(c, code, events, latch);
      var r := Perform(c, code, events, latch, Exec(command));
      (a.status.Fail? ==> r == a)
      && (a.status.Ok? ==>
            r.events == a.events + [Remote(RunCommand(c, command))]
            && (r.status.Ok? <==> Accepted(code(|a.events|))))
  {
  }

  /** A transfer connects first, then copies, and never raises for the copy's
      own exit status. */
  lemma TransferIgnoresExitCode(c: Conn, code: nat -> int, events: seq<Event>, latch: bool, op: Op)
    requires !op.Exec?
    ensures var a := Connect(c, code, events, latch);
      var r := Perform(c, code, events, latch, op);
      (a.status.Fail? ==> r == a)
      && (a.status.Ok? ==> r.events == a.events + [Transfer(OpCommand(c, op))] && r.status == Ok)
  {
  }

  /** On a host without apt-get, yum and dnf the install script exits 1, and
      `run` returns normally for it: a missing package manager never raises. */
  lemma InstallWithoutManagerReturns(c: Conn, code: nat -> int, events: seq<Event>, latch: bool, h: Packages.Host, pkg: string)
    requires h.present == {}
    requires Connect(c, code, events, latch).status.Ok?
    requires code(|Connect(c, code, events, latch).events|) == Packages.InstallRun(h, pkg).exit
    ensures Perform(c, code, events, latch, Exec(Packages.InstallScript(pkg))).status == Ok
  {
  }

  /** On a host without apt-get and yum the update script exits 1, and `run`
      returns normally for it. */
  lemma UpdateWithoutManagerReturns(c: Conn, code: nat -> int, events: seq<Event>, latch: bool, h: Packages.Host)
    requires Packages.AptGet !in h.present && Packages.Yum !in h.present
    requires Connect(c, code, events, latch).status.Ok?
    requires code(|Connect(c, code, events, latch).events|) == Packages.UpdateRun(h).exit
    ensures Perform(c, code, events, latch, Exec(Packages.UpdateScript())).status == Ok
  {
  }

  /** Likewise for `install_one` when the host's manager offers no candidate. */
  lemma InstallOneNotFoundReturns(c: Conn, code: nat -> int, events: seq<Event>, latch: bool, h: Packages.Host, pkgs: seq<string>)
    requires Packages.InstallOneManager(h).None? || Packages.FirstOffered(h, Packages.InstallOneManager(h).value, pkgs).None?
    requires Connect(c, code, events, latch).status.Ok?
    requires code(|Connect(c, code, events, latch).events|) == Packages.InstallOneRun(h, pkgs).exit
    ensures Perform(c, code, events, latch, Exec(Packages.InstallOneScript(pkgs))).status == Ok
  {
    Packages.InstallOnePicksFirstOffered(h, pkgs);
  }

  /** A plan made only of transfers. */
  predicate TransfersOnly(sessions: seq<seq<Op>>)
  {
    forall i, j :: 0 <= i < |sessions| && 0 <= j < |sessions[i]| ==> !sessions[i][j].Exec?
  }

  lemma {:induction false} TransferSessionOnlyTimesOut(c: Conn, code: nat -> int, events: seq<Event>, latch: bool, ops: seq<Op>)
    requires forall j :: 0 <= j < |ops| ==> !ops[j].Exec?
    ensures var r := RunSession(c, code, events, latch, ops);
      r.status.Fail? ==> r.status.failure.ConnectTimeout?
    decreases |ops|
  {
    if ops != [] {
      var a := Perform(c, code, events, latch, ops[0]);
      if a.status.Ok? {
        TransferSessionOnlyTimesOut(c, code, a.events, a.latched, ops[1..]);
      }
    }
  }

  /** Since `__scp` never looks at the copy's exit status, a plan made only of
      transfers raises nothing but a connection timeout. */
  lemma {:induction false} TransferPlanOnlyTimesOut(c: Conn, code: nat -> int, events: seq<Event>, sessions: seq<seq<Op>>)
    requires TransfersOnly(sessions)
    ensures var r := RunSessions(c, code, events, sessions);
      r.status.Fail? ==> r.status.failure.ConnectTimeout?
    decreases |sessions|
  {
    if sessions != [] {
      TransferSessionOnlyTimesOut(c, code, events, true, sessions[0]);
      var a := RunSession(c, code, events, true, sessions[0]);
      if a.status.Ok? {
        TransferPlanOnlyTimesOut(c, code, a.events, sessions[1..]);
      }
    }
  }

  // ----- what a per-host plan issues --------------------------------------

  lemma {:induction false} ProbingIssuesNoCommand(c: Conn, code: nat -> int, events: seq<Event>, attempt: nat)
    requires 1 <= attempt <= MAX_ATTEMPT
    ensures Commands(Probing(c, code, events, attempt).events) == Commands(events)
    decreases MAX_ATTEMPT - attempt
  {
    var probed := events + [Probe(ProbeCommand(c), attempt > c.silentSeconds)];
    assert probed[..|probed| - 1] == events;
    if !Accepted(code(|events|)) {
      var next := probed + [Sleep(1)];
      assert next[..|next| - 1] == probed;
      if attempt < MAX_ATTEMPT {
        ProbingIssuesNoCommand(c, code, next, attempt + 1);
      }
    }
  }

  /** One call adds its own command to the issued commands if it connected,
      and nothing else. */
  lemma PerformIssues(c: Conn, code: nat -> int, events: seq<Event>, latch: bool, op: Op)
    ensures var a := Connect(c, code, events, latch);
      Commands(Perform(c, code, events, latch, op).events)
        == Commands(events) + (if a.status.Ok? then [OpCommand(c, op)] else [])
    ensures Perform(c, code, events, latch, op).status.Ok? ==> Connect(c, code, events, latch).status.Ok?
  {
    var a := Connect(c, code, events, latch);
    if latch {
      ProbingIssuesNoCommand(c, code, events, 1);
    }
    if a.status.Ok? {
      var r := Perform(c, code, events, latch, op);
      assert r.events[..|r.events| - 1] == a.events;
    }
  }

  /** Between `before` and `after` the hosts were asked to do an initial part
      of `commands`, in that order, and all of them if `complete`. */
  predicate IssuesPrefix(before: seq<Event>, after: seq<Event>, commands: seq<string>, complete: bool)
  {
    Commands(before) <= Commands(after) <= Commands(before) + commands
    && (complete ==> Commands(after) == Commands(before) + commands)
  }

  /** Prefixes compose: when a first part did an initial part of `p` (all of
      it if `first` held) and, only if it did all of it, a second part did an
      initial part of `q` (all of it if `last` held). */
  lemma PrefixThen<T>(x: seq<T>, y: seq<T>, z: seq<T>, p: seq<T>, q: seq<T>, first: bool, last: bool)
    requires x <= y <= x + p && (first ==> y == x + p)
    requires !first ==> z == y && !last
    requires first ==> y <= z <= y + q && (last ==> z == y + q)
    ensures x <= z <= x + (p + q) && (last ==> z == x + (p + q))
  {
    assert x + (p + q) == (x + p) + q;
    assert (x + p) <= (x + p) + q;
  }

  /** The commands a sequence of calls on one object issues are an initial
      part of its plan, in plan order, and the whole plan when no call raised. */
  lemma {:induction false} SessionIssuesPlanPrefix(c: Conn, code: nat -> int, events: seq<Event>, latch: bool, ops: seq<Op>)
    ensures var r := RunSession(c, code, events, latch, ops);
      IssuesPrefix(events, r.events, OpCommands(c, ops), r.status.Ok?)
    decreases |ops|
  {
    if ops != [] {
      var a := Perform(c, code, events, latch, ops[0]);
      var r := RunSession(c, code, events, latch, ops);
      PerformIssues(c, code, events, latch, ops[0]);
      assert OpCommands(c, ops) == [OpCommand(c, ops[0])] + OpCommands(c, ops[1..]);
      if a.status.Ok? {
        SessionIssuesPlanPrefix(c, code, a.events, a.latched, ops[1..]);
      }
      PrefixThen(Commands(events), Commands(a.events), Commands(r.events),
                 [OpCommand(c, ops[0])], OpCommands(c, ops[1..]), a.status.Ok?, r.status.Ok?);
    }
  }

  /** The same for a whole per-host plan of several objects. */
  lemma {:induction false} SessionsIssuePlanPrefix(c: Conn, code: nat -> int, events: seq<Event>, sessions: seq<seq<Op>>)
    ensures var r := RunSessions(c, code, events, sessions);
      IssuesPrefix(events, r.events, PlanCommands(c, sessions), r.status.Ok?)
    decreases |sessions|
  {
    if sessions != [] {
      var a := RunSession(c, code, events, true, sessions[0]);
      var r := RunSessions(c, code, events, sessions);
      SessionIssuesPlanPrefix(c, code, events, true, sessions[0]);
      if a.status.Ok? {
        SessionsIssuePlanPrefix(c, code, a.events, sessions[1..]);
      }
      PrefixThen(Commands(events), Commands(a.events), Commands(r.events),
                 OpCommands(c, sessions[0]), PlanCommands(c, sessions[1..]), a.status.Ok?, r.status.Ok?);
    }
  }

  // ----- remote work never runs local commands ----------------------------

  /** `after` is `before` followed only by remote work: probes, sleeps,
      remote commands and transfers, but no local command. */
  predicate RemoteExtension(before: seq<Event>, after: seq<Event>)
  {
    |before| <= |after| && after[..|before|] == before
    && forall k :: |before| <= k < |after| ==> !IsLocal(after[k])
  }

  lemma RemoteExtensionTrans(a: seq<Event>, b: seq<Event>, c: seq<Event>)
    requires RemoteExtension(a, b) && RemoteExtension(b, c)
    ensures RemoteExtension(a, c)
  {
    assert c[..|a|] == c[..|b|][..|a|];
    forall k | |a| <= k < |c|
      ensures !IsLocal(c[k])
    {
      if k < |b| {
        assert c[k] == c[..|b|][k] == b[k];
      }
    }
  }

  lemma PerformExtends(c: Conn, code: nat -> int, events: seq<Event>, latch: bool, op: Op)
    ensures RemoteExtension(events, Perform(c, code, events, latch, op).events)
  {
    var a := Connect(c, code, events, latch);
    if latch {
      ProbingShape(c, code, events, 1);
    }
    assert RemoteExtension(events, a.events);
    var r := Perform(c, code, events, latch, op);
    if a.status.Ok? {
      assert r.events[..|a.events|] == a.events;
      assert RemoteExtension(a.events, r.events);
      RemoteExtensionTrans(events, a.events, r.events);
    }
  }

  lemma {:induction false} SessionExtends(c: Conn, code: nat -> int, events: seq<Event>, latch: bool, ops: seq<Op>)
    ensures RemoteExtension(events, RunSession(c, code, events, latch, ops).events)
    decreases |ops|
  {
    if ops != [] {
      var a := Perform(c, code, events, latch, ops[0]);
      PerformExtends(c, code, events, latch, ops[0]);
      if a.status.Ok? {
        SessionExtends(c, code, a.events, a.latched, ops[1..]);
        RemoteExtensionTrans(events, a.events, RunSession(c, code, events, latch, ops).events);
      }
    }
  }

  /** A per-host plan only appends remote work to the trace. */
  lemma {:induction false} SessionsExtend(c: Conn, code: nat -> int, events: seq<Event>, sessions: seq<seq<Op>>)
    ensures RemoteExtension(events, RunSessions(c, code, events, sessions).events)
    decreases |sessions|
  {
    if sessions != [] {
      var a := RunSession(c, code, events, true, sessions[0]);
      SessionExtends(c, code, events, true, sessions[0]);
      if a.status.Ok? {
        SessionsExtend(c, code, a.events, sessions[1..]);
        RemoteExtensionTrans(events, a.events, RunSessions(c, code, events, sessions).events);
      }
    }
  }
}
