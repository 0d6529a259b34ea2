/** Fan-out over the hosts of a cluster (`run_parallel` of bin/common.py).
    The source starts one thread per argument tuple and joins them all; an
    exception inside a thread is reported by the thread and lost.  Here the
    per-host plans run one after another on the shared trace, and each host's
    status is dropped, as the joined threads drop it. */
module Fleet {
  import opened Effects
  import opened Connection

  /** The argument list `[(ip, arg) for ip in ips]`. */
  function ArgTuples<A>(ips: seq<string>, arg: A): (r: seq<(string, A)>)
    ensures |r| == |ips|
    ensures forall k :: 0 <= k < |r| ==> r[k] == (ips[k], arg)
  {
    if ips == [] then [] else [(ips[0], arg)] + ArgTuples(ips[1..], arg)
  }

  /** One host's share of a fan-out: whom to connect to, and its plan. */
  datatype Job = Job(conn: Conn, sessions: seq<seq<Op>>)

  /** The trace after every job has run, in list order. */
  function RunFleet(code: nat -> int, events: seq<Event>, jobs: seq<Job>): seq<Event>
    decreases |jobs|
  {
    if jobs == [] then events
    else RunFleet(code, RunSessions(jobs[0].conn, code, events, jobs[0].sessions).events, jobs[1..])
  }

  /** The fan-out from the `i`-th job on, once that job has left `after`:
      the rest of the jobs from `after` on. */
  lemma FleetStep(code: nat -> int, events: seq<Event>, jobs: seq<Job>, i: nat, after: seq<Event>)
    requires i < |jobs| && after == RunSessions(jobs[i].conn, code, events, jobs[i].sessions).events
    ensures RunFleet(code, events, jobs[i..]) == RunFleet(code, after, jobs[i + 1..])
  {
    assert jobs[i..][1..] == jobs[i + 1..];
  }

  /** Past the last job the fan-out leaves the trace alone. */
  lemma FleetDone(code: nat -> int, events: seq<Event>, jobs: seq<Job>, i: nat)
    requires i == |jobs|
    ensures RunFleet(code, events, jobs[i..]) == events
  {
    assert jobs[i..] == [];
  }

  /** A host whose plan raises does not stop the others: every job is
      started, and the fan-out only appends remote work to the trace. */
  lemma {:induction false} FleetExtends(code: nat -> int, events: seq<Event>, jobs: seq<Job>)
    ensures RemoteExtension(events, RunFleet(code, events, jobs))
    decreases |jobs|
  {
    if jobs != [] {
      var a := RunSessions(jobs[0].conn, code, events, jobs[0].sessions);
      SessionsExtend(jobs[0].conn, code, events, jobs[0].sessions);
      FleetExtends(code, a.events, jobs[1..]);
      RemoteExtensionTrans(events, a.events, RunFleet(code, events, jobs));
    }
  }

  /** The commands of all plans, one host after another. */
  function FleetCommands(jobs: seq<Job>): seq<string>
    decreases |jobs|
  {
    if jobs == [] then [] else PlanCommands(jobs[0].conn, jobs[0].sessions) + FleetCommands(jobs[1..])
  }

  /** Whether every host's plan runs to completion from `events` on. */
  predicate AllSucceed(code: nat -> int, events: seq<Event>, jobs: seq<Job>)
    decreases |jobs|
  {
    jobs == []
    || (var a := RunSessions(jobs[0].conn, code, events, jobs[0].sessions);
        a.status.Ok? && AllSucceed(code, a.events, jobs[1..]))
  }

  /** When no host raises, the fan-out issues every host's whole plan, host
      by host in argument order. */
  lemma {:induction false} FleetIssuesAllPlans(code: nat -> int, events: seq<Event>, jobs: seq<Job>)
    requires AllSucceed(code, events, jobs)
    ensures Commands(RunFleet(code, events, jobs)) == Commands(events) + FleetCommands(jobs)
    decreases |jobs|
  {
    if jobs != [] {
      var a := RunSessions(jobs[0].conn, code, events, jobs[0].sessions);
      SessionsIssuePlanPrefix(jobs[0].conn, code, events, jobs[0].sessions);
      FleetIssuesAllPlans(code, a.events, jobs[1..]);
    }
  }
}
