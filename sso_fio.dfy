/** `Fio` of src/sso/fio.py: the packaged copy of the fio adapter.  It
    issues the same plans as the `Fio` of bin/common.py (the plan functions
    of module `Adapters`), and its download is the intended one: both
    fetches go through a fresh connection.  The `SSH` class it uses lives in
    src/sso/ssh.py, which is not part of this model; it is taken to behave
    as the `Ssh` of bin/common.py, with `exec` as `run`. */
module SsoFio {
  import opened Effects
  import opened Paths
  import opened Connection
  import opened Fleet
  import Packages
  import A = Adapters

  class Fio {
    const ips: seq<string>
    const sshUser: string
    const sshOptions: string
    const dirName: string
    const captureLsblk: bool
    const env: Env

    /** The run directory is named once, from the clock at construction. */
    constructor (ips: seq<string>, sshUser: string, sshOptions: string, now: A.DateTime, captureLsblk: bool, env: Env)
      requires A.ValidDateTime(now)
      ensures this.ips == ips && this.sshUser == sshUser && this.sshOptions == sshOptions
      ensures dirName == A.FioDirName(now) && this.captureLsblk == captureLsblk && this.env == env
    {
      this.ips := ips;
      this.sshUser := sshUser;
      this.sshOptions := sshOptions;
      dirName := A.FioDirName(now);
      this.captureLsblk := captureLsblk;
      this.env := env;
    }

    function HostConn(ip: string): Conn { Conn(ip, sshUser, sshOptions, DEFAULT_SILENT_SECONDS) }

    method NewSsh(ip: string) returns (ssh: Ssh)
      ensures fresh(ssh) && ssh.conn == HostConn(ip) && ssh.env == env && ssh.waitForConnect
    {
      ssh := new Ssh(ip, sshUser, sshOptions, true, DEFAULT_SILENT_SECONDS, env);
    }

    /** `__upload(ip, file)`: the file into the run directory. */
    method UploadHost(ip: string, file: string) returns (s: Status)
      modifies env
      ensures var a := RunSessions(HostConn(ip), env.exitCode, old(env.events), A.FioUploadPlan(dirName, file));
        env.events == a.events && s == a.status
      ensures env.cwd == old(env.cwd)
    {
      ghost var start := env.events;
      var ssh := NewSsh(ip);
      s := ssh.ScpToRemote(file, dirName);
      OnlyCall(ssh.conn, env.exitCode, start, Push(file, dirName), env.events, ssh.waitForConnect, s);
    }

    method Upload(file: string)
      modifies env
      ensures env.events == RunFleet(env.exitCode, old(env.events), UploadJobs(file))
      ensures env.cwd == old(env.cwd)
    {
      var args := ArgTuples(ips, file);
      var i := 0;
      while i < |args|
        invariant 0 <= i <= |args|
        invariant RunFleet(env.exitCode, old(env.events), UploadJobs(file)) == RunFleet(env.exitCode, env.events, UploadJobs(file)[i..])
        invariant env.cwd == old(env.cwd)
      {
        ghost var before := env.events;
        var _ := UploadHost(args[i].0, args[i].1);
        FleetStep(env.exitCode, before, UploadJobs(file), i, env.events);
        i := i + 1;
      }
      FleetDone(env.exitCode, env.events, UploadJobs(file), i);
    }

    function UploadJobs(file: string): (r: seq<Job>)
      ensures |r| == |ips|
    {
      seq(|ips|, k requires 0 <= k < |ips| => Job(HostConn(ips[k]), A.FioUploadPlan(dirName, file)))
    }

    /** `__install(ip)`: `update`, then `install('fio')`. */
    method InstallHost(ip: string) returns (s: Status)
      modifies env
      ensures var a := RunSessions(HostConn(ip), env.exitCode, old(env.events), A.FioInstallPlan());
        env.events == a.events && s == a.status
      ensures env.cwd == old(env.cwd)
    {
      var ssh := NewSsh(ip);
      ghost var c, code := ssh.conn, env.exitCode;
      ghost var r0: seq<Op> := [];
      ghost var r1 := [Exec(Packages.InstallScript("fio"))] + r0;
      ghost var r2 := [Exec(Packages.UpdateScript())] + r1;
      assert A.FioInstallPlan()[0] == r2;
      ghost var goal := RunSession(c, code, env.events, true, r2);
      OneSession(c, code, env.events, r2);
      ghost var e, l := env.events, ssh.waitForConnect;
      s := ssh.Update();
      Step(c, code, e, l, Exec(Packages.UpdateScript()), r1, goal, env.events, ssh.waitForConnect, s);
      if s.Fail? { return; }
      e, l := env.events, ssh.waitForConnect;
      s := ssh.Install("fio");
      Step(c, code, e, l, Exec(Packages.InstallScript("fio")), r0, goal, env.events, ssh.waitForConnect, s);
    }

    method Install()
      modifies env
      ensures env.events == RunFleet(env.exitCode, old(env.events), InstallJobs())
      ensures env.cwd == old(env.cwd)
    {
      var i := 0;
      while i < |ips|
        invariant 0 <= i <= |ips|
        invariant RunFleet(env.exitCode, old(env.events), InstallJobs()) == RunFleet(env.exitCode, env.events, InstallJobs()[i..])
        invariant env.cwd == old(env.cwd)
      {
        ghost var before := env.events;
        var _ := InstallHost(ips[i]);
        FleetStep(env.exitCode, before, InstallJobs(), i, env.events);
        i := i + 1;
      }
      FleetDone(env.exitCode, env.events, InstallJobs(), i);
    }

    function InstallJobs(): (r: seq<Job>)
      ensures |r| == |ips|
    {
      seq(|ips|, k requires 0 <= k < |ips| => Job(HostConn(ips[k]), A.FioInstallPlan()))
    }

    /** `__run(ip, options)`: the disk layout when asked for, then the run
        directory, then fio inside it, all through `exec`. */
    method RunHost(ip: string, options: string) returns (s: Status)
      modifies env
      ensures var a := RunSessions(HostConn(ip), env.exitCode, old(env.events), A.FioRunPlan(captureLsblk, dirName, options));
        env.events == a.events && s == a.status
      ensures env.cwd == old(env.cwd)
    {
      var ssh := NewSsh(ip);
      ghost var c, code := ssh.conn, env.exitCode;
      ghost var r0: seq<Op> := [];
      ghost var r1 := [Exec(A.FioCommand(dirName, options))] + r0;
      ghost var r2 := [Exec(A.MakeDirCommand(dirName))] + r1;
      ghost var r3 := if captureLsblk then [Exec(A.CAPTURE_LSBLK)] + r2 else r2;
      assert A.FioRunPlan(captureLsblk, dirName, options)[0] == r3;
      ghost var goal := RunSession(c, code, env.events, true, r3);
      OneSession(c, code, env.events, r3);
      ghost var e, l := env.events, ssh.waitForConnect;
      if captureLsblk {
        s := ssh.Run(A.CAPTURE_LSBLK);
        Step(c, code, e, l, Exec(A.CAPTURE_LSBLK), r2, goal, env.events, ssh.waitForConnect, s);
        if s.Fail? { return; }
        e, l := env.events, ssh.waitForConnect;
      }
      s := ssh.Run(A.MakeDirCommand(dirName));
      Step(c, code, e, l, Exec(A.MakeDirCommand(dirName)), r1, goal, env.events, ssh.waitForConnect, s);
      if s.Fail? { return; }
      e, l := env.events, ssh.waitForConnect;
      s := ssh.Run(A.FioCommand(dirName, options));
      Step(c, code, e, l, Exec(A.FioCommand(dirName, options)), r0, goal, env.events, ssh.waitForConnect, s);
    }

    method Run(options: string)
      modifies env
      ensures env.events == RunFleet(env.exitCode, old(env.events), RunJobs(options))
      ensures env.cwd == old(env.cwd)
    {
      var args := ArgTuples(ips, options);
      var i := 0;
      while i < |args|
        invariant 0 <= i <= |args|
        invariant RunFleet(env.exitCode, old(env.events), RunJobs(options)) == RunFleet(env.exitCode, env.events, RunJobs(options)[i..])
        invariant env.cwd == old(env.cwd)
      {
        ghost var before := env.events;
        var _ := RunHost(args[i].0, args[i].1);
        FleetStep(env.exitCode, before, RunJobs(options), i, env.events);
        i := i + 1;
      }
      FleetDone(env.exitCode, env.events, RunJobs(options), i);
    }

    function RunJobs(options: string): (r: seq<Job>)
      ensures |r| == |ips|
    {
      seq(|ips|, k requires 0 <= k < |ips| => Job(HostConn(ips[k]), A.FioRunPlan(captureLsblk, dirName, options)))
    }

    /** `__download(ip, dir)`: into `dir/ip`, the run directory, then the
        disk layout when captured, over a second connection. */
    method DownloadHost(ip: string, dir: string) returns (s: Status)
      modifies env
      ensures var a := RunSessions(HostConn(ip), env.exitCode, old(env.events), A.FioDownloadPlan(captureLsblk, dirName, Join(dir, ip)));
        env.events == a.events && s == a.status
      ensures env.cwd == old(env.cwd)
    {
      var dest := Join(dir, ip);
      ghost var code, start := env.exitCode, env.events;
      ghost var later := if captureLsblk then [[Fetch(A.LSBLK_OUT, dest)]] else [];
      var ssh := NewSsh(ip);
      s := ssh.ScpFromRemote(dirName + "/*", dest);
      FirstCall(ssh.conn, code, start, Fetch(dirName + "/*", dest), later, env.events, ssh.waitForConnect, s);
      if s.Fail? { return; }
      if captureLsblk {
        ghost var mid := env.events;
        var second := NewSsh(ip);
        s := second.ScpFromRemote(A.LSBLK_OUT, dest);
        OnlyCall(second.conn, code, mid, Fetch(A.LSBLK_OUT, dest), env.events, second.waitForConnect, s);
      }
    }

    method Download(dir: string)
      modifies env
      ensures env.events == RunFleet(env.exitCode, old(env.events), DownloadJobs(dir))
      ensures env.cwd == old(env.cwd)
    {
      var args := ArgTuples(ips, dir);
      var i := 0;
      while i < |args|
        invariant 0 <= i <= |args|
        invariant RunFleet(env.exitCode, old(env.events), DownloadJobs(dir)) == RunFleet(env.exitCode, env.events, DownloadJobs(dir)[i..])
        invariant env.cwd == old(env.cwd)
      {
        ghost var before := env.events;
        var _ := DownloadHost(args[i].0, args[i].1);
        FleetStep(env.exitCode, before, DownloadJobs(dir), i, env.events);
        i := i + 1;
      }
      FleetDone(env.exitCode, env.events, DownloadJobs(dir), i);
    }

    function DownloadJobs(dir: string): (r: seq<Job>)
      ensures |r| == |ips|
    {
      seq(|ips|, k requires 0 <= k < |ips| => Job(HostConn(ips[k]), A.FioDownloadPlan(captureLsblk, dirName, Join(dir, ips[k]))))
    }
  }
}
