/** The tool adapters of bin/common.py: `DiskExplorer`, `Fio` and
    `CassandraStress`.  Each per-host method builds fresh `Ssh` objects and
    issues a fixed, partly conditional list of remote commands and transfers;
    each fan-out method applies a per-host method to the argument tuples
    `[(ip, arg) for ip in ips]`, one host after another, and drops the
    per-host outcome as the joined threads of `run_parallel` drop it.

    The plans are functions (one inner list per `Ssh` object created); every
    per-host method is proved to leave the trace that `RunSessions` gives for
    its plan, and the lemmas below say which commands each plan issues. */
module Adapters {
  import opened Effects
  import opened Paths
  import opened Connection
  import opened Fleet
  import Packages
  import Merging
  import Processing

  const CAPTURE_LSBLK: string := "lsblk > lsblk.out"
  const LSBLK_OUT: string := "lsblk.out"

  // ----- DiskExplorer plans -------------------------------------------------

  const DISKPLORER_REPO: string := "https://github.com/scylladb/diskplorer.git"

  function DiskInstallPlan(): seq<seq<Op>>
  {
    [ToolInstalls()
     + [Exec("sudo pip3 install -qqq matplotlib"),
      Exec("rm -fr diskplorer"),
      Exec("git clone -q " + DISKPLORER_REPO)]]
  }

  /** The package-manager calls that open `DiskExplorer.__install`. */
  function ToolInstalls(): seq<Op>
  {
    [Exec(Packages.UpdateScript()),
     Exec(Packages.InstallScript("git")),
     Exec(Packages.InstallScript("fio")),
     Exec(Packages.InstallScript("python3")),
     Exec(Packages.InstallScript("python3-pip"))]
  }

  lemma ToolInstallsThen(tail: seq<Op>)
    ensures ToolInstalls() + tail
      == [Exec(Packages.UpdateScript())] + ([Exec(Packages.InstallScript("git"))] + ([Exec(Packages.InstallScript("fio"))]
         + ([Exec(Packages.InstallScript("python3"))] + ([Exec(Packages.InstallScript("python3-pip"))] + tail))))
  {
  }

  function DiskRunCommand(cmd: string): string { "cd diskplorer && python3 diskplorer.py " + cmd }

  function DiskRunPlan(captureLsblk: bool, cmd: string): seq<seq<Op>>
  {
    [[Exec("rm -fr diskplorer/*.svg"), Exec("rm -fr diskplorer/fiotest.tmp")]
     + (if captureLsblk then [Exec(CAPTURE_LSBLK)] else [])
     + [Exec(DiskRunCommand(cmd)), Exec("rm -fr diskplorer/fiotest.tmp")]]
  }

  function DiskDownloadPlan(captureLsblk: bool, dest: string): seq<seq<Op>>
  {
    [[Fetch("diskplorer/*.{svg,csv}", dest)]] + (if captureLsblk then [[Fetch(LSBLK_OUT, dest)]] else [])
  }

  // ----- Fio plans (shared with src/sso/fio.py) -------------------------------

  function FioInstallPlan(): seq<seq<Op>>
  {
    [[Exec(Packages.UpdateScript()), Exec(Packages.InstallScript("fio"))]]
  }

  function MakeDirCommand(dirName: string): string { "mkdir -p " + dirName }

  function FioCommand(dirName: string, options: string): string { "cd " + dirName + " && sudo fio " + options }

  function FioRunPlan(captureLsblk: bool, dirName: string, options: string): seq<seq<Op>>
  {
    [(if captureLsblk then [Exec(CAPTURE_LSBLK)] else [])
     + [Exec(MakeDirCommand(dirName)), Exec(FioCommand(dirName, options))]]
  }

  /** The download as src/sso/fio.py writes it: the run directory, then the
      disk layout if captured, each over a fresh connection. */
  function FioDownloadPlan(captureLsblk: bool, dirName: string, dest: string): seq<seq<Op>>
  {
    [[Fetch(dirName + "/*", dest)]] + (if captureLsblk then [[Fetch(LSBLK_OUT, dest)]] else [])
  }

  function FioUploadPlan(dirName: string, file: string): seq<seq<Op>>
  {
    [[Push(file, dirName)]]
  }

  // ----- CassandraStress plans ---------------------------------------------

  /** The JDK packages `install_one` chooses from. */
  const JDK_CANDIDATES: seq<string> := ["openjdk-8-jdk", "java-1.8.0-openjdk"]

  function CassandraArchive(version: string): string { "apache-cassandra-" + version + "-bin.tar.gz" }

  /** The package-manager part of the Cassandra install: update, a JDK,
      then wget. */
  function JavaInstalls(): seq<Op>
  {
    [Exec(Packages.UpdateScript()),
     Exec(Packages.InstallOneScript(JDK_CANDIDATES)),
     Exec(Packages.InstallScript("wget"))]
  }

  lemma JavaInstallsThen(tail: seq<Op>)
    ensures JavaInstalls() + tail
      == [Exec(Packages.UpdateScript())] + ([Exec(Packages.InstallOneScript(JDK_CANDIDATES))]
         + ([Exec(Packages.InstallScript("wget"))] + tail))
  {
  }

  function StressInstallPlan(version: string): seq<seq<Op>>
  {
    [[Exec(Packages.UpdateScript()),
      Exec(Packages.InstallOneScript(JDK_CANDIDATES)),
      Exec(Packages.InstallScript("wget")),
      Exec("wget -q -N https://mirrors.netix.net/apache/cassandra/" + version + "/" + CassandraArchive(version)),
      Exec("tar -xzf " + CassandraArchive(version))]]
  }

  function StressCommand(version: string, cmd: string): string
  {
    "apache-cassandra-" + version + "/tools/bin" + "/cassandra-stress " + cmd
  }

  function StressPlan(version: string, cmd: string): seq<seq<Op>> { [[Exec(StressCommand(version, cmd))]] }

  function CommandPlan(command: string): seq<seq<Op>> { [[Exec(command)]] }

  function StressUploadPlan(file: string): seq<seq<Op>> { [[Push(file, "")]] }

  function StressDownloadPlan(dest: string): seq<seq<Op>> { [[Fetch("*.{html,hdr}", dest)]] }

  function PreparePlan(): seq<seq<Op>>
  {
    [[Exec("rm -fr *.html *.hdr"), Exec("killall -q -9 java")]]
  }

  // ----- the fio run directory --------------------------------------------

  /** The moment `datetime.now()` returns when an adapter is built. */
  datatype DateTime = DateTime(year: int, month: int, day: int, hour: int, minute: int, second: int)

  /** A date Python can represent with a four-digit year. */
  predicate ValidDateTime(t: DateTime)
  {
    1000 <= t.year <= 9999 && 1 <= t.month <= 12 && 1 <= t.day <= 31
    && 0 <= t.hour < 24 && 0 <= t.minute < 60 && 0 <= t.second < 60
  }

  function Pow10(n: nat): (r: nat)
    ensures r >= 1
  {
    if n == 0 then 1 else 10 * Pow10(n - 1)
  }

  function Digit(d: int): (r: char)
    requires 0 <= d < 10
    ensures '0' <= r <= '9' && r as int - '0' as int == d
  {
    ('0' as int + d) as char
  }

  /** The number a string of decimal digits spells. */
  function DigitsValue(s: string): (v: nat)
    requires forall i :: 0 <= i < |s| ==> '0' <= s[i] <= '9'
    ensures v < Pow10(|s|)
  {
    if s == [] then 0
    else 10 * DigitsValue(s[..|s| - 1]) + (s[|s| - 1] as int - '0' as int)
  }

  lemma {:induction false} MulAtLeast(k: nat, x: nat)
    requires x >= 1
    ensures k * x >= k
  {
    if x > 1 {
      MulAtLeast(k, x - 1);
      assert k * x == k * (x - 1) + k;
    }
  }

  /** The remainder is the one `r` with `n == k * a + r` and `0 <= r < k`. */
  lemma ModUnique(n: nat, k: nat, a: nat, r: nat)
    requires k > 0 && n == k * a + r && r < k
    ensures n % k == r
  {
    var a2, r2 := n / k, n % k;
    assert n == k * a2 + r2;
    if a > a2 {
      var t := a - a2;
      assert k * a == k * a2 + k * t;
      MulAtLeast(k, t);
    } else if a < a2 {
      var t := a2 - a;
      assert k * a2 == k * a + k * t;
      MulAtLeast(k, t);
    }
  }

  /** Splitting off the last decimal digit of `n` below `10 * m`. */
  lemma ModTen(n: nat, m: nat)
    requires m >= 1
    ensures n % (10 * m) == 10 * ((n / 10) % m) + n % 10
  {
    var q, d := n / 10, n % 10;
    var a, b := q / m, q % m;
    assert q == m * a + b;
    assert 10 * q == (10 * m) * a + 10 * b;
    ModUnique(n, 10 * m, a, 10 * b + d);
  }

  function Pad(n: nat, width: nat): (r: string)
    ensures |r| == width
    ensures forall i :: 0 <= i < |r| ==> '0' <= r[i] <= '9'
  {
    if width == 0 then "" else Pad(n / 10, width - 1) + [Digit(n % 10)]
  }

  /** The padded digits spell `n` modulo `10^width`: the last `width`
      digits of `n`. */
  lemma {:induction false} PadValue(n: nat, width: nat)
    ensures DigitsValue(Pad(n, width)) == n % Pow10(width)
  {
    if width > 0 {
      var p := Pad(n, width);
      assert p[..width - 1] == Pad(n / 10, width - 1);
      PadValue(n / 10, width - 1);
      ModTen(n, Pow10(width - 1));
    }
  }

  /** Numbers below `10^width` have distinct padded forms. */
  lemma {:induction false} PadInjective(a: nat, b: nat, width: nat)
    requires a < Pow10(width) && b < Pow10(width)
    requires Pad(a, width) == Pad(b, width)
    ensures a == b
  {
    if width > 0 {
      var pa, pb := Pad(a, width), Pad(b, width);
      assert pa[..width - 1] == Pad(a / 10, width - 1);
      assert pb[..width - 1] == Pad(b / 10, width - 1);
      assert Digit(a % 10) == pa[width - 1] == pb[width - 1] == Digit(b % 10);
      assert a % 10 == b % 10;
      PadInjective(a / 10, b / 10, width - 1);
    }
  }

  /** `strftime("%d-%m-%Y_%H-%M-%S")`. */
  function Stamp(t: DateTime): (r: string)
    requires ValidDateTime(t)
    ensures |r| == 19
  {
    Pad(t.day, 2) + "-" + Pad(t.month, 2) + "-" + Pad(t.year, 4) + "_"
      + Pad(t.hour, 2) + "-" + Pad(t.minute, 2) + "-" + Pad(t.second, 2)
  }

  /** The remote directory of one fio adapter: `"fio-" + stamp`. */
  function FioDirName(t: DateTime): (r: string)
    requires ValidDateTime(t)
    ensures |r| == 23 && r[..4] == "fio-" && NoSlash(r)
  {
    var r := "fio-" + Stamp(t);
    assert forall i :: 4 <= i < |r| ==> r[i] == Stamp(t)[i - 4];
    r
  }

  /** Two concatenations with equally long tails are equal only part by part. */
  lemma SplitEqual(a1: string, b1: string, a2: string, b2: string)
    requires a1 + b1 == a2 + b2 && |b1| == |b2|
    ensures a1 == a2 && b1 == b2
  {
    assert a1 == (a1 + b1)[..|a1|];
    assert a2 == (a2 + b2)[..|a2|];
    assert b1 == (a1 + b1)[|a1|..];
    assert b2 == (a2 + b2)[|a2|..];
  }

  /** The stamp determines the moment it was taken at. */
  lemma StampInjective(t1: DateTime, t2: DateTime)
    requires ValidDateTime(t1) && ValidDateTime(t2)
    requires Stamp(t1) == Stamp(t2)
    ensures t1 == t2
  {
    var a1 := Pad(t1.day, 2) + "-" + Pad(t1.month, 2) + "-" + Pad(t1.year, 4) + "_" + Pad(t1.hour, 2) + "-" + Pad(t1.minute, 2) + "-";
    var a2 := Pad(t2.day, 2) + "-" + Pad(t2.month, 2) + "-" + Pad(t2.year, 4) + "_" + Pad(t2.hour, 2) + "-" + Pad(t2.minute, 2) + "-";
    SplitEqual(a1, Pad(t1.second, 2), a2, Pad(t2.second, 2));
    var b1 := Pad(t1.day, 2) + "-" + Pad(t1.month, 2) + "-" + Pad(t1.year, 4) + "_" + Pad(t1.hour, 2) + "-";
    var b2 := Pad(t2.day, 2) + "-" + Pad(t2.month, 2) + "-" + Pad(t2.year, 4) + "_" + Pad(t2.hour, 2) + "-";
    SplitEqual(b1 + Pad(t1.minute, 2), "-", b2 + Pad(t2.minute, 2), "-");
    SplitEqual(b1, Pad(t1.minute, 2), b2, Pad(t2.minute, 2));
    var c1 := Pad(t1.day, 2) + "-" + Pad(t1.month, 2) + "-" + Pad(t1.year, 4) + "_";
    var c2 := Pad(t2.day, 2) + "-" + Pad(t2.month, 2) + "-" + Pad(t2.year, 4) + "_";
    SplitEqual(c1 + Pad(t1.hour, 2), "-", c2 + Pad(t2.hour, 2), "-");
    SplitEqual(c1, Pad(t1.hour, 2), c2, Pad(t2.hour, 2));
    var d1 := Pad(t1.day, 2) + "-" + Pad(t1.month, 2) + "-";
    var d2 := Pad(t2.day, 2) + "-" + Pad(t2.month, 2) + "-";
    SplitEqual(d1 + Pad(t1.year, 4), "_", d2 + Pad(t2.year, 4), "_");
    SplitEqual(d1, Pad(t1.year, 4), d2, Pad(t2.year, 4));
    SplitEqual(Pad(t1.day, 2) + "-" + Pad(t1.month, 2), "-", Pad(t2.day, 2) + "-" + Pad(t2.month, 2), "-");
    SplitEqual(Pad(t1.day, 2) + "-", Pad(t1.month, 2), Pad(t2.day, 2) + "-", Pad(t2.month, 2));
    SplitEqual(Pad(t1.day, 2), "-", Pad(t2.day, 2), "-");
    assert Pow10(2) == 100 && Pow10(4) == 10000;
    PadInjective(t1.day, t2.day, 2);
    PadInjective(t1.month, t2.month, 2);
    PadInjective(t1.year, t2.year, 4);
    PadInjective(t1.hour, t2.hour, 2);
    PadInjective(t1.minute, t2.minute, 2);
    PadInjective(t1.second, t2.second, 2);
  }

  /** Adapters built at different seconds use different remote directories,
      so two runs started at different moments never share one. */
  lemma FioDirNameInjective(t1: DateTime, t2: DateTime)
    requires ValidDateTime(t1) && ValidDateTime(t2)
    requires FioDirName(t1) == FioDirName(t2)
    ensures t1 == t2
  {
    SplitEqual("fio-", Stamp(t1), "fio-", Stamp(t2));
    StampInjective(t1, t2);
  }

  // ----- what each plan issues ---------------------------------------------

  /** `DiskExplorer.__install`: update, then git, fio, python3 and
      python3-pip, then matplotlib through pip, then a fresh clone of
      diskplorer replacing any old one.  A command that fails ends the list. */
  lemma DiskInstallIssues(c: Conn, code: nat -> int, events: seq<Event>)
    ensures var r := RunSessions(c, code, events, DiskInstallPlan());
      IssuesPrefix(events, r.events,
        [RunCommand(c, Packages.UpdateScript()), RunCommand(c, Packages.InstallScript("git")),
         RunCommand(c, Packages.InstallScript("fio")), RunCommand(c, Packages.InstallScript("python3")),
         RunCommand(c, Packages.InstallScript("python3-pip")), RunCommand(c, "sudo pip3 install -qqq matplotlib"),
         RunCommand(c, "rm -fr diskplorer"), RunCommand(c, "git clone -q " + DISKPLORER_REPO)],
        r.status.Ok?)
  {
    SessionsIssuePlanPrefix(c, code, events, DiskInstallPlan());
    var ops := DiskInstallPlan()[0];
    OneSessionCommands(c, ops);
    OpCommandsAt(c, ops);
  }

  /** `DiskExplorer.__run`: the old plots and the test file are removed, the
      disk layout is captured only when asked for, then diskplorer runs with
      the caller's arguments unchanged, and the 100 GB test file is removed
      again.  A command that fails ends the list. */
  lemma DiskRunIssues(c: Conn, code: nat -> int, events: seq<Event>, captureLsblk: bool, cmd: string)
    ensures var r := RunSessions(c, code, events, DiskRunPlan(captureLsblk, cmd));
      IssuesPrefix(events, r.events,
        [RunCommand(c, "rm -fr diskplorer/*.svg"), RunCommand(c, "rm -fr diskplorer/fiotest.tmp")]
        + (if captureLsblk then [RunCommand(c, CAPTURE_LSBLK)] else [])
        + [RunCommand(c, DiskRunCommand(cmd)), RunCommand(c, "rm -fr diskplorer/fiotest.tmp")],
        r.status.Ok?)
  {
    SessionsIssuePlanPrefix(c, code, events, DiskRunPlan(captureLsblk, cmd));
    var ops := DiskRunPlan(captureLsblk, cmd)[0];
    OneSessionCommands(c, ops);
    OpCommandsAt(c, ops);
  }

  /** `DiskExplorer.__download`: the plots and CSV files, then the disk layout
      when captured, each fetched into `dest`. */
  lemma DiskDownloadIssues(c: Conn, code: nat -> int, events: seq<Event>, captureLsblk: bool, dest: string)
    ensures var r := RunSessions(c, code, events, DiskDownloadPlan(captureLsblk, dest));
      IssuesPrefix(events, r.events,
        [FetchCommand(c, "diskplorer/*.{svg,csv}", dest)] + (if captureLsblk then [FetchCommand(c, LSBLK_OUT, dest)] else []),
        r.status.Ok?)
      && (r.status.Fail? ==> r.status.failure.ConnectTimeout?)
  {
    var plan := DiskDownloadPlan(captureLsblk, dest);
    SessionsIssuePlanPrefix(c, code, events, plan);
    TransferPlanOnlyTimesOut(c, code, events, plan);
    PlanCommandsOfSingles(c, plan);
  }

  /** `Fio.__install`: `update`, then `install('fio')`, in that order. */
  lemma FioInstallIssues(c: Conn, code: nat -> int, events: seq<Event>)
    ensures var r := RunSessions(c, code, events, FioInstallPlan());
      IssuesPrefix(events, r.events,
        [RunCommand(c, Packages.UpdateScript()), RunCommand(c, Packages.InstallScript("fio"))], r.status.Ok?)
  {
    SessionsIssuePlanPrefix(c, code, events, FioInstallPlan());
    OneSessionCommands(c, FioInstallPlan()[0]);
    OpCommandsAt(c, FioInstallPlan()[0]);
  }

  /** `Fio.__run`: the disk layout is captured first and only when asked for;
      the run directory is created strictly before fio runs in it with the
      caller's options unchanged. */
  lemma FioRunIssues(c: Conn, code: nat -> int, events: seq<Event>, captureLsblk: bool, dirName: string, options: string)
    ensures var r := RunSessions(c, code, events, FioRunPlan(captureLsblk, dirName, options));
      IssuesPrefix(events, r.events,
        (if captureLsblk then [RunCommand(c, CAPTURE_LSBLK)] else [])
        + [RunCommand(c, MakeDirCommand(dirName)), RunCommand(c, FioCommand(dirName, options))],
        r.status.Ok?)
  {
    SessionsIssuePlanPrefix(c, code, events, FioRunPlan(captureLsblk, dirName, options));
    var ops := FioRunPlan(captureLsblk, dirName, options)[0];
    OneSessionCommands(c, ops);
    OpCommandsAt(c, ops);
  }

  /** The corrected `Fio.__download`: the run directory's files, then the disk
      layout when captured, into `dest`; only a connection timeout raises. */
  lemma FioDownloadIssues(c: Conn, code: nat -> int, events: seq<Event>, captureLsblk: bool, dirName: string, dest: string)
    ensures var r := RunSessions(c, code, events, FioDownloadPlan(captureLsblk, dirName, dest));
      IssuesPrefix(events, r.events,
        [FetchCommand(c, dirName + "/*", dest)] + (if captureLsblk then [FetchCommand(c, LSBLK_OUT, dest)] else []),
        r.status.Ok?)
      && (r.status.Fail? ==> r.status.failure.ConnectTimeout?)
  {
    var plan := FioDownloadPlan(captureLsblk, dirName, dest);
    SessionsIssuePlanPrefix(c, code, events, plan);
    TransferPlanOnlyTimesOut(c, code, events, plan);
    PlanCommandsOfSingles(c, plan);
  }

  /** `CassandraStress.__install`: update, a JDK from the candidates, wget,
      then the download and unpacking of the requested Cassandra version. */
  lemma StressInstallIssues(c: Conn, code: nat -> int, events: seq<Event>, version: string)
    ensures var r := RunSessions(c, code, events, StressInstallPlan(version));
      IssuesPrefix(events, r.events,
        [RunCommand(c, Packages.UpdateScript()),
         RunCommand(c, Packages.InstallOneScript(JDK_CANDIDATES)),
         RunCommand(c, Packages.InstallScript("wget")),
         RunCommand(c, "wget -q -N https://mirrors.netix.net/apache/cassandra/" + version + "/" + CassandraArchive(version)),
         RunCommand(c, "tar -xzf " + CassandraArchive(version))],
        r.status.Ok?)
  {
    SessionsIssuePlanPrefix(c, code, events, StressInstallPlan(version));
    FiveCallCommands(c, Exec(Packages.UpdateScript()), Exec(Packages.InstallOneScript(JDK_CANDIDATES)),
      Exec(Packages.InstallScript("wget")),
      Exec("wget -q -N https://mirrors.netix.net/apache/cassandra/" + version + "/" + CassandraArchive(version)),
      Exec("tar -xzf " + CassandraArchive(version)));
  }

  /** The commands of a single session of five calls. */
  lemma FiveCallCommands(c: Conn, a: Op, b: Op, d: Op, e: Op, f: Op)
    ensures PlanCommands(c, [[a, b, d, e, f]])
      == [OpCommand(c, a), OpCommand(c, b), OpCommand(c, d), OpCommand(c, e), OpCommand(c, f)]
  {
    OneSessionCommands(c, [a, b, d, e, f]);
    OpCommandsAt(c, [a, b, d, e, f]);
  }

  /** `CassandraStress.__prepare`: the old results are removed, then any
      stray load generator is killed. */
  lemma PrepareIssues(c: Conn, code: nat -> int, events: seq<Event>)
    ensures var r := RunSessions(c, code, events, PreparePlan());
      IssuesPrefix(events, r.events,
        [RunCommand(c, "rm -fr *.html *.hdr"), RunCommand(c, "killall -q -9 java")], r.status.Ok?)
  {
    SessionsIssuePlanPrefix(c, code, events, PreparePlan());
    OneSessionCommands(c, PreparePlan()[0]);
    OpCommandsAt(c, PreparePlan()[0]);
  }

  /** `CassandraStress.__download`: the HTML reports and histogram logs into
      `dest`; only a connection timeout raises. */
  lemma StressDownloadIssues(c: Conn, code: nat -> int, events: seq<Event>, dest: string)
    ensures var r := RunSessions(c, code, events, StressDownloadPlan(dest));
      IssuesPrefix(events, r.events, [FetchCommand(c, "*.{html,hdr}", dest)], r.status.Ok?)
      && (r.status.Fail? ==> r.status.failure.ConnectTimeout?)
  {
    var plan := StressDownloadPlan(dest);
    SessionsIssuePlanPrefix(c, code, events, plan);
    TransferPlanOnlyTimesOut(c, code, events, plan);
    PlanCommandsOfSingles(c, plan);
  }

  /** The commands of a plan of one session are that session's. */
  lemma OneSessionCommands(c: Conn, ops: seq<Op>)
    ensures PlanCommands(c, [ops]) == OpCommands(c, ops)
  {
    assert [ops][1..] == [];
  }

  /** The commands of a list of calls, call by call. */
  lemma {:induction false} OpCommandsAt(c: Conn, ops: seq<Op>)
    ensures forall k :: 0 <= k < |ops| ==> OpCommands(c, ops)[k] == OpCommand(c, ops[k])
    decreases |ops|
  {
    if ops != [] {
      OpCommandsAt(c, ops[1..]);
    }
  }

  /** The commands of a plan of one-call sessions. */
  lemma {:induction false} PlanCommandsOfSingles(c: Conn, sessions: seq<seq<Op>>)
    requires forall i :: 0 <= i < |sessions| ==> |sessions[i]| == 1
    ensures PlanCommands(c, sessions) == seq(|sessions|, i requires 0 <= i < |sessions| => OpCommand(c, sessions[i][0]))
    decreases |sessions|
  {
    if sessions != [] {
      PlanCommandsOfSingles(c, sessions[1..]);
      assert OpCommands(c, sessions[0]) == [OpCommand(c, sessions[0][0])];
    }
  }

  // ----- DiskExplorer ------------------------------------------------------

  class DiskExplorer {
    const ips: seq<string>
    const sshUser: string
    const sshOptions: string
    const captureLsblk: bool
    /** The machine the adapter runs on and the hosts it reaches. */
    const env: Env

    constructor (ips: seq<string>, sshUser: string, sshOptions: string, captureLsblk: bool, env: Env)
      ensures this.ips == ips && this.sshUser == sshUser && this.sshOptions == sshOptions
      ensures this.captureLsblk == captureLsblk && this.env == env
    {
      this.ips := ips;
      this.sshUser := sshUser;
      this.sshOptions := sshOptions;
      this.captureLsblk := captureLsblk;
      this.env := env;
    }

    /** What `__new_ssh(ip)` connects with. */
    function HostConn(ip: string): Conn { Conn(ip, sshUser, sshOptions, DEFAULT_SILENT_SECONDS) }

    method NewSsh(ip: string) returns (ssh: Ssh)
      ensures fresh(ssh) && ssh.conn == HostConn(ip) && ssh.env == env && ssh.waitForConnect
    {
      ssh := new Ssh(ip, sshUser, sshOptions, true, DEFAULT_SILENT_SECONDS, env);
    }

    method InstallHost(ip: string) returns (s: Status)
      modifies env
      ensures var a := RunSessions(HostConn(ip), env.exitCode, old(env.events), DiskInstallPlan());
        env.events == a.events && s == a.status
      ensures env.cwd == old(env.cwd)
    {
      var ssh := NewSsh(ip);
      // the calls still to be made after each one
      ghost var c, code := ssh.conn, env.exitCode;
      ghost var r0: seq<Op> := [];
      ghost var r1 := [Exec("git clone -q " + DISKPLORER_REPO)] + r0;
      ghost var r2 := [Exec("rm -fr diskplorer")] + r1;
      ghost var r3 := [Exec("sudo pip3 install -qqq matplotlib")] + r2;
      ghost var r8 := ToolInstalls() + r3;
      assert DiskInstallPlan()[0] == r8 by { ToolInstallsThen(r3); }
      ghost var goal := RunSession(c, code, env.events, true, r8);
      OneSession(c, code, env.events, r8);
      s := InstallTools(ssh, goal, r3);
      if s.Fail? { return; }
      ghost var e, l := env.events, ssh.waitForConnect;
      s := ssh.Run("sudo pip3 install -qqq matplotlib");
      Step(c, code, e, l, Exec("sudo pip3 install -qqq matplotlib"), r2, goal, env.events, ssh.waitForConnect, s);
      if s.Fail? { return; }
      e, l := env.events, ssh.waitForConnect;
      s := ssh.Run("rm -fr diskplorer");
      Step(c, code, e, l, Exec("rm -fr diskplorer"), r1, goal, env.events, ssh.waitForConnect, s);
      if s.Fail? { return; }
      e, l := env.events, ssh.waitForConnect;
      s := ssh.Run("git clone -q " + DISKPLORER_REPO);
      Step(c, code, e, l, Exec("git clone -q " + DISKPLORER_REPO), r0, goal, env.events, ssh.waitForConnect, s);
    }

    /** The package-manager part of `__install`: update, then git, fio,
        python3 and python3-pip, stopping at the first failure. */
    method InstallTools(ssh: Ssh, ghost goal: After, ghost tail: seq<Op>) returns (s: Status)
      requires ssh.env == env
      requires Remains(goal, ssh.conn, env.exitCode, env.events, ssh.waitForConnect, ToolInstalls() + tail)
      modifies ssh, env
      ensures s.Fail? ==> goal == After(env.events, ssh.waitForConnect, s)
      ensures s.Ok? ==> Remains(goal, ssh.conn, env.exitCode, env.events, ssh.waitForConnect, tail)
      ensures env.cwd == old(env.cwd)
    {
      ghost var c, code := ssh.conn, env.exitCode;
      ghost var r3 := tail;
      ghost var r4 := [Exec(Packages.InstallScript("python3-pip"))] + r3;
      ghost var r5 := [Exec(Packages.InstallScript("python3"))] + r4;
      ghost var r6 := [Exec(Packages.InstallScript("fio"))] + r5;
      ghost var r7 := [Exec(Packages.InstallScript("git"))] + r6;
      ToolInstallsThen(tail);
      ghost var e, l := env.events, ssh.waitForConnect;
      s := ssh.Update();
      Step(c, code, e, l, Exec(Packages.UpdateScript()), r7, goal, env.events, ssh.waitForConnect, s);
      if s.Fail? { return; }
      e, l := env.events, ssh.waitForConnect;
      s := ssh.Install("git");
      Step(c, code, e, l, Exec(Packages.InstallScript("git")), r6, goal, env.events, ssh.waitForConnect, s);
      if s.Fail? { return; }
      e, l := env.events, ssh.waitForConnect;
      s := ssh.Install("fio");
      Step(c, code, e, l, Exec(Packages.InstallScript("fio")), r5, goal, env.events, ssh.waitForConnect, s);
      if s.Fail? { return; }
      e, l := env.events, ssh.waitForConnect;
      s := ssh.Install("python3");
      Step(c, code, e, l, Exec(Packages.InstallScript("python3")), r4, goal, env.events, ssh.waitForConnect, s);
      if s.Fail? { return; }
      e, l := env.events, ssh.waitForConnect;
      s := ssh.Install("python3-pip");
      Step(c, code, e, l, Exec(Packages.InstallScript("python3-pip")), r3, goal, env.events, ssh.waitForConnect, s);
    }

    method RunHost(ip: string, cmd: string) returns (s: Status)
      modifies env
      ensures var a := RunSessions(HostConn(ip), env.exitCode, old(env.events), DiskRunPlan(captureLsblk, cmd));
        env.events == a.events && s == a.status
      ensures env.cwd == old(env.cwd)
    {
      var ssh := NewSsh(ip);
      ghost var c, code := ssh.conn, env.exitCode;
      ghost var r0: seq<Op> := [];
      ghost var r1 := [Exec("rm -fr diskplorer/fiotest.tmp")] + r0;
      ghost var r2 := [Exec(DiskRunCommand(cmd))] + r1;
      ghost var r3 := if captureLsblk then [Exec(CAPTURE_LSBLK)] + r2 else r2;
      ghost var r4 := [Exec("rm -fr diskplorer/fiotest.tmp")] + r3;
      ghost var r5 := [Exec("rm -fr diskplorer/*.svg")] + r4;
      assert DiskRunPlan(captureLsblk, cmd)[0] == r5;
      ghost var goal := RunSession(c, code, env.events, true, r5);
      OneSession(c, code, env.events, r5);
      ghost var e, l := env.events, ssh.waitForConnect;
      s := ssh.Run("rm -fr diskplorer/*.svg");
      Step(c, code, e, l, Exec("rm -fr diskplorer/*.svg"), r4, goal, env.events, ssh.waitForConnect, s);
      if s.Fail? { return; }
      e, l := env.events, ssh.waitForConnect;
      s := ssh.Run("rm -fr diskplorer/fiotest.tmp");
      Step(c, code, e, l, Exec("rm -fr diskplorer/fiotest.tmp"), r3, goal, env.events, ssh.waitForConnect, s);
      if s.Fail? { return; }
      if captureLsblk {
        e, l := env.events, ssh.waitForConnect;
        s := ssh.Run(CAPTURE_LSBLK);
        Step(c, code, e, l, Exec(CAPTURE_LSBLK), r2, goal, env.events, ssh.waitForConnect, s);
        if s.Fail? { return; }
      }
      e, l := env.events, ssh.waitForConnect;
      s := ssh.Run(DiskRunCommand(cmd));
      Step(c, code, e, l, Exec(DiskRunCommand(cmd)), r1, goal, env.events, ssh.waitForConnect, s);
      if s.Fail? { return; }
      e, l := env.events, ssh.waitForConnect;
      s := ssh.Run("rm -fr diskplorer/fiotest.tmp");
      Step(c, code, e, l, Exec("rm -fr diskplorer/fiotest.tmp"), r0, goal, env.events, ssh.waitForConnect, s);
    }

    /** `install`: `__install` on every host, in the order of `ips`. */
    method Install()
      modifies env
      ensures env.events == RunFleet(env.exitCode, old(env.events), InstallJobs())
      ensures env.cwd == old(env.cwd)
    {
      var i := 0;
      while i < |ips|
        invariant 0 <= i <= |ips|
        invariant RunFleet(env.exitCode, old(env.events), InstallJobs()) == RunFleet(env.exitCode, env.events, InstallJobs()[i..])
        invariant env.cwd == old(env.cwd)
      {
        ghost var before := env.events;
        var _ := InstallHost(ips[i]);
        FleetStep(env.exitCode, before, InstallJobs(), i, env.events);
        i := i + 1;
      }
      FleetDone(env.exitCode, env.events, InstallJobs(), i);
    }

    function InstallJobs(): (r: seq<Job>)
      ensures |r| == |ips|
    {
      seq(|ips|, k requires 0 <= k < |ips| => Job(HostConn(ips[k]), DiskInstallPlan()))
    }

    /** `run(command)`: `__run` on every host with the same command. */
    method Run(command: string)
      modifies env
      ensures env.events == RunFleet(env.exitCode, old(env.events), RunJobs(command))
      ensures env.cwd == old(env.cwd)
    {
      var args := ArgTuples(ips, command);
      var i := 0;
      while i < |args|
        invariant 0 <= i <= |args|
        invariant RunFleet(env.exitCode, old(env.events), RunJobs(command)) == RunFleet(env.exitCode, env.events, RunJobs(command)[i..])
        invariant env.cwd == old(env.cwd)
      {
        ghost var before := env.events;
        var _ := RunHost(args[i].0, args[i].1);
        FleetStep(env.exitCode, before, RunJobs(command), i, env.events);
        i := i + 1;
      }
      FleetDone(env.exitCode, env.events, RunJobs(command), i);
    }

    function RunJobs(command: string): (r: seq<Job>)
      ensures |r| == |ips|
    {
      seq(|ips|, k requires 0 <= k < |ips| => Job(HostConn(ips[k]), DiskRunPlan(captureLsblk, command)))
    }

    /** `__download(ip, dir)`: into `dir/ip`, the plots and CSV files over one
        connection, then the disk layout over another when it was captured. */
    method DownloadHost(ip: string, dir: string) returns (s: Status)
      modifies env
      ensures var a := RunSessions(HostConn(ip), env.exitCode, old(env.events), DiskDownloadPlan(captureLsblk, Join(dir, ip)));
        env.events == a.events && s == a.status
      ensures env.cwd == old(env.cwd)
    {
      var dest := Join(dir, ip);
      ghost var code, start := env.exitCode, env.events;
      ghost var later := if captureLsblk then [[Fetch(LSBLK_OUT, dest)]] else [];
      var ssh := NewSsh(ip);
      s := ssh.ScpFromRemote("diskplorer/*.{svg,csv}", dest);
      FirstCall(ssh.conn, code, start, Fetch("diskplorer/*.{svg,csv}", dest), later, env.events, ssh.waitForConnect, s);
      if s.Fail? { return; }
      if captureLsblk {
        ghost var mid := env.events;
        var second := NewSsh(ip);
        s := second.ScpFromRemote(LSBLK_OUT, dest);
        OnlyCall(second.conn, code, mid, Fetch(LSBLK_OUT, dest), env.events, second.waitForConnect, s);
      }
    }

    /** `download(dir)`: `__download` on every host into its own directory. */
    method Download(dir: string)
      modifies env
      ensures env.events == RunFleet(env.exitCode, old(env.events), DownloadJobs(dir))
      ensures env.cwd == old(env.cwd)
    {
      var args := ArgTuples(ips, dir);
      var i := 0;
      while i < |args|
        invariant 0 <= i <= |args|
        invariant RunFleet(env.exitCode, old(env.events), DownloadJobs(dir)) == RunFleet(env.exitCode, env.events, DownloadJobs(dir)[i..])
        invariant env.cwd == old(env.cwd)
      {
        ghost var before := env.events;
        var _ := DownloadHost(args[i].0, args[i].1);
        FleetStep(env.exitCode, before, DownloadJobs(dir), i, env.events);
        i := i + 1;
      }
      FleetDone(env.exitCode, env.events, DownloadJobs(dir), i);
    }

    function DownloadJobs(dir: string): (r: seq<Job>)
      ensures |r| == |ips|
    {
      seq(|ips|, k requires 0 <= k < |ips| => Job(HostConn(ips[k]), DiskDownloadPlan(captureLsblk, Join(dir, ips[k]))))
    }
  }

  // ----- the bin/common.py download bug ------------------------------------

  /** `Fio.__download` as bin/common.py writes it: the bare call `__new_ssh(ip)`
      inside the class body is mangled to the global name `_Fio__new_ssh`,
      which does not exist, so the method raises before any transfer. */
  function FioDownloadAsWritten(events: seq<Event>): After
  {
    After(events, true, Fail(NameError("_Fio__new_ssh")))
  }

  /** On a host that answers the first probe, the written download transfers
      nothing and raises, while the intended one fetches the run directory
      first. */
  lemma FioDownloadAsWrittenLosesResults(c: Conn, code: nat -> int, events: seq<Event>, captureLsblk: bool, dirName: string, dest: string)
    requires Accepted(code(|events|))
    ensures var w := FioDownloadAsWritten(events);
      Commands(w.events) == Commands(events) && w.status.Fail?
    ensures var r := RunSessions(c, code, events, FioDownloadPlan(captureLsblk, dirName, dest));
      |Commands(r.events)| > |Commands(events)|
      && Commands(r.events)[|Commands(events)|] == FetchCommand(c, dirName + "/*", dest)
  {
    var command := FetchCommand(c, dirName + "/*", dest);
    var probed := events + [Probe(ProbeCommand(c), 1 > c.silentSeconds)];
    var fetched := probed + [Transfer(command)];
    assert Probing(c, code, events, 1) == After(probed, false, Ok);
    var first := [Fetch(dirName + "/*", dest)];
    assert RunSession(c, code, events, true, first) == After(fetched, false, Ok) by {
      assert first[1..] == [];
    }
    var rest := if captureLsblk then [[Fetch(LSBLK_OUT, dest)]] else [];
    var plan := [first] + rest;
    assert plan[0] == first && plan[1..] == rest;
    assert fetched[..|fetched| - 1] == probed && probed[..|probed| - 1] == events;
    assert Commands(fetched) == Commands(events) + [command];
    SessionsIssuePlanPrefix(c, code, fetched, rest);
  }

  // ----- Fio ---------------------------------------------------------------

  /** `Fio` of bin/common.py.  The run directory is named once, from the
      moment the adapter is built. */
  class Fio {
    const ips: seq<string>
    const sshUser: string
    const sshOptions: string
    const dirName: string
    const captureLsblk: bool
    const env: Env

    constructor (ips: seq<string>, sshUser: string, sshOptions: string, now: DateTime, captureLsblk: bool, env: Env)
      requires ValidDateTime(now)
      ensures this.ips == ips && this.sshUser == sshUser && this.sshOptions == sshOptions
      ensures dirName == FioDirName(now) && this.captureLsblk == captureLsblk && this.env == env
    {
      this.ips := ips;
      this.sshUser := sshUser;
      this.sshOptions := sshOptions;
      dirName := FioDirName(now);
      this.captureLsblk := captureLsblk;
      this.env := env;
    }

    function HostConn(ip: string): Conn { Conn(ip, sshUser, sshOptions, DEFAULT_SILENT_SECONDS) }

    method NewSsh(ip: string) returns (ssh: Ssh)
      ensures fresh(ssh) && ssh.conn == HostConn(ip) && ssh.env == env && ssh.waitForConnect
    {
      ssh := new Ssh(ip, sshUser, sshOptions, true, DEFAULT_SILENT_SECONDS, env);
    }

    /** `__upload(ip, file)`: the file into the run directory. */
    method UploadHost(ip: string, file: string) returns (s: Status)
      modifies env
      ensures var a := RunSessions(HostConn(ip), env.exitCode, old(env.events), FioUploadPlan(dirName, file));
        env.events == a.events && s == a.status
      ensures env.cwd == old(env.cwd)
    {
      ghost var start := env.events;
      var ssh := NewSsh(ip);
      s := ssh.ScpToRemote(file, dirName);
      OnlyCall(ssh.conn, env.exitCode, start, Push(file, dirName), env.events, ssh.waitForConnect, s);
    }

    method Upload(file: string)
      modifies env
      ensures env.events == RunFleet(env.exitCode, old(env.events), UploadJobs(file))
      ensures env.cwd == old(env.cwd)
    {
      var args := ArgTuples(ips, file);
      var i := 0;
      while i < |args|
        invariant 0 <= i <= |args|
        invariant RunFleet(env.exitCode, old(env.events), UploadJobs(file)) == RunFleet(env.exitCode, env.events, UploadJobs(file)[i..])
        invariant env.cwd == old(env.cwd)
      {
        ghost var before := env.events;
        var _ := UploadHost(args[i].0, args[i].1);
        FleetStep(env.exitCode, before, UploadJobs(file), i, env.events);
        i := i + 1;
      }
      FleetDone(env.exitCode, env.events, UploadJobs(file), i);
    }

    function UploadJobs(file: string): (r: seq<Job>)
      ensures |r| == |ips|
    {
      seq(|ips|, k requires 0 <= k < |ips| => Job(HostConn(ips[k]), FioUploadPlan(dirName, file)))
    }

    /** `__install(ip)`: `update`, then `install('fio')`. */
    method InstallHost(ip: string) returns (s: Status)
      modifies env
      ensures var a := RunSessions(HostConn(ip), env.exitCode, old(env.events), FioInstallPlan());
        env.events == a.events && s == a.status
      ensures env.cwd == old(env.cwd)
    {
      var ssh := NewSsh(ip);
      ghost var c, code := ssh.conn, env.exitCode;
      ghost var r0: seq<Op> := [];
      ghost var r1 := [Exec(Packages.InstallScript("fio"))] + r0;
      ghost var r2 := [Exec(Packages.UpdateScript())] + r1;
      assert FioInstallPlan()[0] == r2;
      ghost var goal := RunSession(c, code, env.events, true, r2);
      OneSession(c, code, env.events, r2);
      ghost var e, l := env.events, ssh.waitForConnect;
      s := ssh.Update();
      Step(c, code, e, l, Exec(Packages.UpdateScript()), r1, goal, env.events, ssh.waitForConnect, s);
      if s.Fail? { return; }
      e, l := env.events, ssh.waitForConnect;
      s := ssh.Install("fio");
      Step(c, code, e, l, Exec(Packages.InstallScript("fio")), r0, goal, env.events, ssh.waitForConnect, s);
    }

    method Install()
      modifies env
      ensures env.events == RunFleet(env.exitCode, old(env.events), InstallJobs())
      ensures env.cwd == old(env.cwd)
    {
      var i := 0;
      while i < |ips|
        invariant 0 <= i <= |ips|
        invariant RunFleet(env.exitCode, old(env.events), InstallJobs()) == RunFleet(env.exitCode, env.events, InstallJobs()[i..])
        invariant env.cwd == old(env.cwd)
      {
        ghost var before := env.events;
        var _ := InstallHost(ips[i]);
        FleetStep(env.exitCode, before, InstallJobs(), i, env.events);
        i := i + 1;
      }
      FleetDone(env.exitCode, env.events, InstallJobs(), i);
    }

    function InstallJobs(): (r: seq<Job>)
      ensures |r| == |ips|
    {
      seq(|ips|, k requires 0 <= k < |ips| => Job(HostConn(ips[k]), FioInstallPlan()))
    }

    /** `__run(ip, options)`: the disk layout when asked for, then the run
        directory, then fio inside it. */
    method RunHost(ip: string, options: string) returns (s: Status)
      modifies env
      ensures var a := RunSessions(HostConn(ip), env.exitCode, old(env.events), FioRunPlan(captureLsblk, dirName, options));
        env.events == a.events && s == a.status
      ensures env.cwd == old(env.cwd)
    {
      var ssh := NewSsh(ip);
      ghost var c, code := ssh.conn, env.exitCode;
      ghost var r0: seq<Op> := [];
      ghost var r1 := [Exec(FioCommand(dirName, options))] + r0;
      ghost var r2 := [Exec(MakeDirCommand(dirName))] + r1;
      ghost var r3 := if captureLsblk then [Exec(CAPTURE_LSBLK)] + r2 else r2;
      assert FioRunPlan(captureLsblk, dirName, options)[0] == r3;
      ghost var goal := RunSession(c, code, env.events, true, r3);
      OneSession(c, code, env.events, r3);
      ghost var e, l := env.events, ssh.waitForConnect;
      if captureLsblk {
        s := ssh.Run(CAPTURE_LSBLK);
        Step(c, code, e, l, Exec(CAPTURE_LSBLK), r2, goal, env.events, ssh.waitForConnect, s);
        if s.Fail? { return; }
        e, l := env.events, ssh.waitForConnect;
      }
      s := ssh.Run(MakeDirCommand(dirName));
      Step(c, code, e, l, Exec(MakeDirCommand(dirName)), r1, goal, env.events, ssh.waitForConnect, s);
      if s.Fail? { return; }
      e, l := env.events, ssh.waitForConnect;
      s := ssh.Run(FioCommand(dirName, options));
      Step(c, code, e, l, Exec(FioCommand(dirName, options)), r0, goal, env.events, ssh.waitForConnect, s);
    }

    method Run(options: string)
      modifies env
      ensures env.events == RunFleet(env.exitCode, old(env.events), RunJobs(options))
      ensures env.cwd == old(env.cwd)
    {
      var args := ArgTuples(ips, options);
      var i := 0;
      while i < |args|
        invariant 0 <= i <= |args|
        invariant RunFleet(env.exitCode, old(env.events), RunJobs(options)) == RunFleet(env.exitCode, env.events, RunJobs(options)[i..])
        invariant env.cwd == old(env.cwd)
      {
        ghost var before := env.events;
        var _ := RunHost(args[i].0, args[i].1);
        FleetStep(env.exitCode, before, RunJobs(options), i, env.events);
        i := i + 1;
      }
      FleetDone(env.exitCode, env.events, RunJobs(options), i);
    }

    function RunJobs(options: string): (r: seq<Job>)
      ensures |r| == |ips|
    {
      seq(|ips|, k requires 0 <= k < |ips| => Job(HostConn(ips[k]), FioRunPlan(captureLsblk, dirName, options)))
    }

    /** `__download(ip, dir)` exactly as bin/common.py writes it. */
    method DownloadHostAsWritten(ip: string, dir: string) returns (s: Status)
      ensures var w := FioDownloadAsWritten(env.events); s == w.status
    {
      s := Fail(NameError("_Fio__new_ssh"));
    }

    /** `__download(ip, dir)` as intended (and as src/sso/fio.py writes it):
        into `dir/ip`, the run directory, then the disk layout when captured. */
    method DownloadHost(ip: string, dir: string) returns (s: Status)
      modifies env
      ensures var a := RunSessions(HostConn(ip), env.exitCode, old(env.events), FioDownloadPlan(captureLsblk, dirName, Join(dir, ip)));
        env.events == a.events && s == a.status
      ensures env.cwd == old(env.cwd)
    {
      var dest := Join(dir, ip);
      ghost var code, start := env.exitCode, env.events;
      ghost var later := if captureLsblk then [[Fetch(LSBLK_OUT, dest)]] else [];
      var ssh := NewSsh(ip);
      s := ssh.ScpFromRemote(dirName + "/*", dest);
      FirstCall(ssh.conn, code, start, Fetch(dirName + "/*", dest), later, env.events, ssh.waitForConnect, s);
      if s.Fail? { return; }
      if captureLsblk {
        ghost var mid := env.events;
        var second := NewSsh(ip);
        s := second.ScpFromRemote(LSBLK_OUT, dest);
        OnlyCall(second.conn, code, mid, Fetch(LSBLK_OUT, dest), env.events, second.waitForConnect, s);
      }
    }

    method Download(dir: string)
      modifies env
      ensures env.events == RunFleet(env.exitCode, old(env.events), DownloadJobs(dir))
      ensures env.cwd == old(env.cwd)
    {
      var args := ArgTuples(ips, dir);
      var i := 0;
      while i < |args|
        invariant 0 <= i <= |args|
        invariant RunFleet(env.exitCode, old(env.events), DownloadJobs(dir)) == RunFleet(env.exitCode, env.events, DownloadJobs(dir)[i..])
        invariant env.cwd == old(env.cwd)
      {
        ghost var before := env.events;
        var _ := DownloadHost(args[i].0, args[i].1);
        FleetStep(env.exitCode, before, DownloadJobs(dir), i, env.events);
        i := i + 1;
      }
      FleetDone(env.exitCode, env.events, DownloadJobs(dir), i);
    }

    function DownloadJobs(dir: string): (r: seq<Job>)
      ensures |r| == |ips|
    {
      seq(|ips|, k requires 0 <= k < |ips| => Job(HostConn(ips[k]), FioDownloadPlan(captureLsblk, dirName, Join(dir, ips[k]))))
    }
  }

  // ----- CassandraStress ---------------------------------------------------

  /** The aggregation of `get_results` runs after every download: the fan-out
      only appends remote work, everything after it is local, and the local
      part asks no host to do anything. */
  lemma ResultsAfterDownloads(code: nat -> int, events: seq<Event>, jobs: seq<Job>, merge: seq<string>, process: seq<string>)
    ensures var downloaded := RunFleet(code, events, jobs);
      var t := downloaded + LocalEvents(merge) + LocalEvents(process);
      RemoteExtension(events, downloaded)
      && (forall k :: |downloaded| <= k < |t| ==> IsLocal(t[k]))
      && Commands(t) == Commands(downloaded)
  {
    FleetExtends(code, events, jobs);
    LocalTail(RunFleet(code, events, jobs), merge, process);
  }

  /** Local steps appended to a trace add events that are all local and
      no command. */
  lemma LocalTail(downloaded: seq<Event>, merge: seq<string>, process: seq<string>)
    ensures var t := downloaded + LocalEvents(merge) + LocalEvents(process);
      (forall k :: |downloaded| <= k < |t| ==> IsLocal(t[k]))
      && Commands(t) == Commands(downloaded)
  {
    LocalEventsAppend(merge, process);
    AppendAssoc(downloaded, LocalEvents(merge), LocalEvents(process));
    var local := LocalEvents(merge + process);
    var t := downloaded + local;
    forall k | |downloaded| <= k < |t|
      ensures IsLocal(t[k])
    {
      assert t[k] == local[k - |downloaded|];
    }
    CommandsAppend(downloaded, local);
    LocalIssuesNoCommand(merge + process);
  }

  /** `CassandraStress` of bin/common.py.  `properties` is the parsed
      properties file. */
  class CassandraStress {
    const ips: seq<string>
    const properties: map<string, string>
    const version: string
    const sshUser: string
    const sshOptions: string
    const env: Env

    /** The constructor reads the Cassandra version and the load generator's
        user.  `new_ssh` reads the SSH options at every call; they are read
        once here, which gives the same value while the dictionary is not
        changed. */
    constructor (ips: seq<string>, properties: map<string, string>, env: Env)
      requires "cassandra_version" in properties && "load_generator_user" in properties
      requires "ssh_options" in properties
      ensures this.ips == ips && this.properties == properties && this.env == env
      ensures version == properties["cassandra_version"] && sshUser == properties["load_generator_user"]
      ensures sshOptions == properties["ssh_options"]
    {
      this.ips := ips;
      this.properties := properties;
      version := properties["cassandra_version"];
      sshUser := properties["load_generator_user"];
      sshOptions := properties["ssh_options"];
      this.env := env;
    }

    function HostConn(ip: string): Conn
    {
      Conn(ip, sshUser, sshOptions, DEFAULT_SILENT_SECONDS)
    }

    method NewSsh(ip: string) returns (ssh: Ssh)
      ensures fresh(ssh) && ssh.conn == HostConn(ip) && ssh.env == env && ssh.waitForConnect
    {
      ssh := new Ssh(ip, sshUser, sshOptions, true, DEFAULT_SILENT_SECONDS, env);
    }

    /** `__install(ip)`: update, a JDK, wget, then the Cassandra archive is
        fetched and unpacked. */
    method InstallHost(ip: string) returns (s: Status)
      modifies env
      ensures var a := RunSessions(HostConn(ip), env.exitCode, old(env.events), StressInstallPlan(version));
        env.events == a.events && s == a.status
      ensures env.cwd == old(env.cwd)
    {
      var ssh := NewSsh(ip);
      ghost var c, code := ssh.conn, env.exitCode;
      var fetch := "wget -q -N https://mirrors.netix.net/apache/cassandra/" + version + "/" + CassandraArchive(version);
      var unpack := "tar -xzf " + CassandraArchive(version);
      ghost var r0: seq<Op> := [];
      ghost var r1 := [Exec(unpack)] + r0;
      ghost var r2 := [Exec(fetch)] + r1;
      ghost var r5 := JavaInstalls() + r2;
      assert StressInstallPlan(version)[0] == r5 by { JavaInstallsThen(r2); }
      ghost var goal := RunSession(c, code, env.events, true, r5);
      OneSession(c, code, env.events, r5);
      s := InstallJava(ssh, goal, r2);
      if s.Fail? { return; }
      ghost var e, l := env.events, ssh.waitForConnect;
      s := ssh.Run(fetch);
      Step(c, code, e, l, Exec(fetch), r1, goal, env.events, ssh.waitForConnect, s);
      if s.Fail? { return; }
      e, l := env.events, ssh.waitForConnect;
      s := ssh.Run(unpack);
      Step(c, code, e, l, Exec(unpack), r0, goal, env.events, ssh.waitForConnect, s);
    }

    /** The package-manager part of `__install`: update, a JDK, then wget,
        stopping at the first failure. */
    method InstallJava(ssh: Ssh, ghost goal: After, ghost tail: seq<Op>) returns (s: Status)
      requires ssh.env == env
      requires Remains(goal, ssh.conn, env.exitCode, env.events, ssh.waitForConnect, JavaInstalls() + tail)
      modifies ssh, env
      ensures s.Fail? ==> goal == After(env.events, ssh.waitForConnect, s)
      ensures s.Ok? ==> Remains(goal, ssh.conn, env.exitCode, env.events, ssh.waitForConnect, tail)
      ensures env.cwd == old(env.cwd)
    {
      ghost var c, code := ssh.conn, env.exitCode;
      ghost var r2 := tail;
      ghost var r3 := [Exec(Packages.InstallScript("wget"))] + r2;
      ghost var r4 := [Exec(Packages.InstallOneScript(JDK_CANDIDATES))] + r3;
      JavaInstallsThen(tail);
      ghost var e, l := env.events, ssh.waitForConnect;
      s := ssh.Update();
      Step(c, code, e, l, Exec(Packages.UpdateScript()), r4, goal, env.events, ssh.waitForConnect, s);
      if s.Fail? { return; }
      e, l := env.events, ssh.waitForConnect;
      s := ssh.InstallOne(JDK_CANDIDATES);
      Step(c, code, e, l, Exec(Packages.InstallOneScript(JDK_CANDIDATES)), r3, goal, env.events, ssh.waitForConnect, s);
      if s.Fail? { return; }
      e, l := env.events, ssh.waitForConnect;
      s := ssh.Install("wget");
      Step(c, code, e, l, Exec(Packages.InstallScript("wget")), r2, goal, env.events, ssh.waitForConnect, s);
    }

    method Install()
      modifies env
      ensures env.events == RunFleet(env.exitCode, old(env.events), InstallJobs())
      ensures env.cwd == old(env.cwd)
    {
      var i := 0;
      while i < |ips|
        invariant 0 <= i <= |ips|
        invariant RunFleet(env.exitCode, old(env.events), InstallJobs()) == RunFleet(env.exitCode, env.events, InstallJobs()[i..])
        invariant env.cwd == old(env.cwd)
      {
        ghost var before := env.events;
        var _ := InstallHost(ips[i]);
        FleetStep(env.exitCode, before, InstallJobs(), i, env.events);
        i := i + 1;
      }
      FleetDone(env.exitCode, env.events, InstallJobs(), i);
    }

    function InstallJobs(): (r: seq<Job>)
      ensures |r| == |ips|
    {
      seq(|ips|, k requires 0 <= k < |ips| => Job(HostConn(ips[k]), StressInstallPlan(version)))
    }

    /** `__stress(ip, cmd)`: cassandra-stress of the installed version with
        the caller's arguments. */
    method StressHost(ip: string, cmd: string) returns (s: Status)
      modifies env
      ensures var a := RunSessions(HostConn(ip), env.exitCode, old(env.events), StressPlan(version, cmd));
        env.events == a.events && s == a.status
      ensures env.cwd == old(env.cwd)
    {
      ghost var start := env.events;
      var ssh := NewSsh(ip);
      s := ssh.Run(StressCommand(version, cmd));
      OnlyCall(ssh.conn, env.exitCode, start, Exec(StressCommand(version, cmd)), env.events, ssh.waitForConnect, s);
    }

    method Stress(command: string)
      modifies env
      ensures env.events == RunFleet(env.exitCode, old(env.events), StressJobs(command))
      ensures env.cwd == old(env.cwd)
    {
      var args := ArgTuples(ips, command);
      var i := 0;
      while i < |args|
        invariant 0 <= i <= |args|
        invariant RunFleet(env.exitCode, old(env.events), StressJobs(command)) == RunFleet(env.exitCode, env.events, StressJobs(command)[i..])
        invariant env.cwd == old(env.cwd)
      {
        ghost var before := env.events;
        var _ := StressHost(args[i].0, args[i].1);
        FleetStep(env.exitCode, before, StressJobs(command), i, env.events);
        i := i + 1;
      }
      FleetDone(env.exitCode, env.events, StressJobs(command), i);
    }

    function StressJobs(command: string): (r: seq<Job>)
      ensures |r| == |ips|
    {
      seq(|ips|, k requires 0 <= k < |ips| => Job(HostConn(ips[k]), StressPlan(version, command)))
    }

    /** `__ssh(ip, command)`: one command, as given. */
    method SshHost(ip: string, command: string) returns (s: Status)
      modifies env
      ensures var a := RunSessions(HostConn(ip), env.exitCode, old(env.events), CommandPlan(command));
        env.events == a.events && s == a.status
      ensures env.cwd == old(env.cwd)
    {
      ghost var start := env.events;
      var ssh := NewSsh(ip);
      s := ssh.Run(command);
      OnlyCall(ssh.conn, env.exitCode, start, Exec(command), env.events, ssh.waitForConnect, s);
    }

    /** `ssh(command)`. */
    method SshAll(command: string)
      modifies env
      ensures env.events == RunFleet(env.exitCode, old(env.events), CommandJobs(command))
      ensures env.cwd == old(env.cwd)
    {
      var args := ArgTuples(ips, command);
      var i := 0;
      while i < |args|
        invariant 0 <= i <= |args|
        invariant RunFleet(env.exitCode, old(env.events), CommandJobs(command)) == RunFleet(env.exitCode, env.events, CommandJobs(command)[i..])
        invariant env.cwd == old(env.cwd)
      {
        ghost var before := env.events;
        var _ := SshHost(args[i].0, args[i].1);
        FleetStep(env.exitCode, before, CommandJobs(command), i, env.events);
        i := i + 1;
      }
      FleetDone(env.exitCode, env.events, CommandJobs(command), i);
    }

    function CommandJobs(command: string): (r: seq<Job>)
      ensures |r| == |ips|
    {
      seq(|ips|, k requires 0 <= k < |ips| => Job(HostConn(ips[k]), CommandPlan(command)))
    }

    /** `__upload(ip, file)`: the file into the remote home directory. */
    method UploadHost(ip: string, file: string) returns (s: Status)
      modifies env
      ensures var a := RunSessions(HostConn(ip), env.exitCode, old(env.events), StressUploadPlan(file));
        env.events == a.events && s == a.status
      ensures env.cwd == old(env.cwd)
    {
      ghost var start := env.events;
      var ssh := NewSsh(ip);
      s := ssh.ScpToRemote(file, "");
      OnlyCall(ssh.conn, env.exitCode, start, Push(file, ""), env.events, ssh.waitForConnect, s);
    }

    method Upload(file: string)
      modifies env
      ensures env.events == RunFleet(env.exitCode, old(env.events), UploadJobs(file))
      ensures env.cwd == old(env.cwd)
    {
      var args := ArgTuples(ips, file);
      var i := 0;
      while i < |args|
        invariant 0 <= i <= |args|
        invariant RunFleet(env.exitCode, old(env.events), UploadJobs(file)) == RunFleet(env.exitCode, env.events, UploadJobs(file)[i..])
        invariant env.cwd == old(env.cwd)
      {
        ghost var before := env.events;
        var _ := UploadHost(args[i].0, args[i].1);
        FleetStep(env.exitCode, before, UploadJobs(file), i, env.events);
        i := i + 1;
      }
      FleetDone(env.exitCode, env.events, UploadJobs(file), i);
    }

    function UploadJobs(file: string): (r: seq<Job>)
      ensures |r| == |ips|
    {
      seq(|ips|, k requires 0 <= k < |ips| => Job(HostConn(ips[k]), StressUploadPlan(file)))
    }

    /** `__download(ip, dir)`: the reports and histogram logs into `dir/ip`. */
    method DownloadHost(ip: string, dir: string) returns (s: Status)
      modifies env
      ensures var a := RunSessions(HostConn(ip), env.exitCode, old(env.events), StressDownloadPlan(Join(dir, ip)));
        env.events == a.events && s == a.status
      ensures env.cwd == old(env.cwd)
    {
      var dest := Join(dir, ip);
      ghost var start := env.events;
      var ssh := NewSsh(ip);
      s := ssh.ScpFromRemote("*.{html,hdr}", dest);
      OnlyCall(ssh.conn, env.exitCode, start, Fetch("*.{html,hdr}", dest), env.events, ssh.waitForConnect, s);
    }

    function DownloadJobs(dir: string): (r: seq<Job>)
      ensures |r| == |ips|
    {
      seq(|ips|, k requires 0 <= k < |ips| => Job(HostConn(ips[k]), StressDownloadPlan(Join(dir, ips[k]))))
    }

    /** `get_results(dir)`: every host's results are downloaded into
        `dir/<ip>`, then the histogram logs are merged, then every log is
        processed.  `found` is what the merge step's glob yields once the
        downloads are in, `logs` what the processing step's glob yields after
        the merge, and `ssoHome` the `SSO` environment variable.  A missing
        `jvm_path` property raises as the merge starts; a malformed log raises
        out of the processing loop. */
    method GetResults(dir: string, ssoHome: string, found: seq<string>, logs: seq<Processing.LogFile>)
      returns (s: Status, ghost orders: seq<seq<string>>)
      modifies env
      ensures var downloaded := RunFleet(env.exitCode, old(env.events), DownloadJobs(dir));
        if "jvm_path" !in properties then
          env.events == downloaded && s == Fail(MissingKey("jvm_path")) && env.cwd == old(env.cwd)
        else
          var jvmPath := properties["jvm_path"];
          |orders| <= |logs| && Processing.Processed(logs, orders)
          && env.events == downloaded + LocalEvents(Merging.MergePlan(jvmPath, ssoHome, dir, found))
                                      + LocalEvents(Processing.ProcessPlan(jvmPath, ssoHome, logs, orders))
          && (s.Ok? <==> |orders| == |logs|)
          && (s.Ok? ==> env.cwd == old(env.cwd))
          && (s.Fail? ==> Processing.RaisedOn(logs[|orders|], s.failure)
                          && env.cwd == Dirname(logs[|orders|].resolved))
    {
      var args := ArgTuples(ips, dir);
      var i := 0;
      while i < |args|
        invariant 0 <= i <= |args|
        invariant RunFleet(env.exitCode, old(env.events), DownloadJobs(dir)) == RunFleet(env.exitCode, env.events, DownloadJobs(dir)[i..])
        invariant env.cwd == old(env.cwd)
      {
        ghost var before := env.events;
        var _ := DownloadHost(args[i].0, args[i].1);
        FleetStep(env.exitCode, before, DownloadJobs(dir), i, env.events);
        i := i + 1;
      }
      FleetDone(env.exitCode, env.events, DownloadJobs(dir), i);
      if "jvm_path" !in properties {
        return Fail(MissingKey("jvm_path")), [];
      }
      var merging := new Merging.HdrLogMerging(properties["jvm_path"], ssoHome);
      merging.MergeLogs(env, dir, found);
      var processor := new Processing.HdrLogProcessor(properties["jvm_path"], ssoHome);
      s, orders := processor.Process(env, logs);
    }

    /** `__prepare(ip)`: old results are removed, then any stray load
        generator is killed, over one connection. */
    method PrepareHost(ip: string) returns (s: Status)
      modifies env
      ensures var a := RunSessions(HostConn(ip), env.exitCode, old(env.events), PreparePlan());
        env.events == a.events && s == a.status
      ensures env.cwd == old(env.cwd)
    {
      var ssh := NewSsh(ip);
      ghost var c, code := ssh.conn, env.exitCode;
      ghost var r0: seq<Op> := [];
      ghost var r1 := [Exec("killall -q -9 java")] + r0;
      ghost var r2 := [Exec("rm -fr *.html *.hdr")] + r1;
      assert PreparePlan()[0] == r2;
      ghost var goal := RunSession(c, code, env.events, true, r2);
      OneSession(c, code, env.events, r2);
      ghost var e, l := env.events, ssh.waitForConnect;
      s := ssh.Run("rm -fr *.html *.hdr");
      Step(c, code, e, l, Exec("rm -fr *.html *.hdr"), r1, goal, env.events, ssh.waitForConnect, s);
      if s.Fail? { return; }
      e, l := env.events, ssh.waitForConnect;
      s := ssh.Run("killall -q -9 java");
      Step(c, code, e, l, Exec("killall -q -9 java"), r0, goal, env.events, ssh.waitForConnect, s);
    }

    method Prepare()
      modifies env
      ensures env.events == RunFleet(env.exitCode, old(env.events), PrepareJobs())
      ensures env.cwd == old(env.cwd)
    {
      var i := 0;
      while i < |ips|
        invariant 0 <= i <= |ips|
        invariant RunFleet(env.exitCode, old(env.events), PrepareJobs()) == RunFleet(env.exitCode, env.events, PrepareJobs()[i..])
        invariant env.cwd == old(env.cwd)
      {
        ghost var before := env.events;
        var _ := PrepareHost(ips[i]);
        FleetStep(env.exitCode, before, PrepareJobs(), i, env.events);
        i := i + 1;
      }
      FleetDone(env.exitCode, env.events, PrepareJobs(), i);
    }

    function PrepareJobs(): (r: seq<Job>)
      ensures |r| == |ips|
    {
      seq(|ips|, k requires 0 <= k < |ips| => Job(HostConn(ips[k]), PreparePlan()))
    }
  }
}
