/** The remote package-management scripts of `Ssh.update`, `Ssh.install` and
    `Ssh.install_one`: the lines of each script, and the decision the script
    takes on a host, given which package managers it has and which packages
    they offer.  The script text keeps the source's lines in order but drops
    their indentation, trailing blanks and blank lines.  The shell syntax is
    not modelled, only the order of the checks, the command each branch runs
    and the exit status. */
module Packages {

  datatype Manager = AptGet | Yum | Dnf

  /** What a script does on the host, in order. */
  datatype Step =
    | Detect(manager: Manager)               // `hash <manager>`
    | Query(manager: Manager, pkg: string)   // `apt show` / `yum list --available`
    | Refresh(manager: Manager)              // `<manager> update`
    | Add(manager: Manager, pkg: string)     // `<manager> install <pkg>`

  datatype ScriptRun = ScriptRun(steps: seq<Step>, exit: int)

  /** A host: the managers `hash` finds, what `apt show` and `yum list
      --available` report as installable, and the exit status of the package
      manager's own update or install command. */
  datatype Host = Host(present: set<Manager>, aptOffers: set<string>, yumOffers: set<string>, toolExit: int)

  // ----- script text -------------------------------------------------------

  function SpaceJoin(xs: seq<string>): string
  {
    if xs == [] then "" else if |xs| == 1 then xs[0] else xs[0] + " " + SpaceJoin(xs[1..])
  }

  /** Python's `str()` of a list of strings, e.g. `['a', 'b']`. */
  function ListRepr(xs: seq<string>): string
  {
    "[" + QuotedList(xs) + "]"
  }

  function QuotedList(xs: seq<string>): string
  {
    if xs == [] then "" else if |xs| == 1 then "'" + xs[0] + "'" else "'" + xs[0] + "', " + QuotedList(xs[1..])
  }

  function UpdateScript(): string
  {
    "if hash apt-get 2>/dev/null; then\n"
    + "sudo apt-get -y -qq update\n"
    + "elif hash yum 2>/dev/null; then\n"
    + "sudo yum -y -q update\n"
    + "else\n"
    + "echo \"Cannot update: yum/apt not found\"\n"
    + "exit 1\n"
    + "fi"
  }

  function InstallScript(pkg: string): string
  {
    "if hash apt-get 2>/dev/null; then\n"
    + "sudo apt-get install -y -qq " + pkg + "\n"
    + "elif hash yum 2>/dev/null; then\n"
    + "sudo yum -y -q install " + pkg + "\n"
    + "elif hash dnf 2>/dev/null; then\n"
    + "sudo dnf -y -q install " + pkg + "\n"
    + "else\n"
    + "echo \"Cannot install " + pkg + ": yum/apt not found\"\n"
    + "exit 1\n"
    + "fi"
  }

  function InstallOneScript(pkgs: seq<string>): string
  {
    "set -e\n"
    + "for package in " + SpaceJoin(pkgs) + "\n"
    + "do\n"
    + "echo Trying package [$package]\n"
    + "if hash apt-get 2>/dev/null ; then\n"
    + "if sudo apt show $package >/dev/null 2>&1; then\n"
    + "echo Installing $package\n"
    + "sudo apt-get install -y -qq $package\n"
    + "exit 0\n"
    + "fi\n"
    + "elif hash yum 2>/dev/null; then\n"
    + "if sudo yum list --available $package >/dev/null 2>&1; then\n"
    + "echo Installing $package\n"
    + "sudo yum -y -q install $package\n"
    + "exit 0\n"
    + "fi\n"
    + "else\n"
    + "echo \"Cannot install $package: yum/apt not found\"\n"
    + "exit 1\n"
    + "fi\n"
    + "echo Not found $package\n"
    + "done\n"
    + "echo \"Could not find any of the packages from " + ListRepr(pkgs) + "\"\n"
    + "exit 1"
  }

  // ----- what the scripts decide ------------------------------------------

  /** `update`: the first of apt-get and yum present refreshes its package
      lists and the script ends with its status; without either it exits 1. */
  function UpdateRun(h: Host): (r: ScriptRun)
    ensures |r.steps| > 0 && forall k :: 0 <= k < |r.steps| - 1 ==> r.steps[k].Detect?
    ensures match FirstPresent(h, [AptGet, Yum])
      case Some(m) => r.steps[|r.steps| - 1] == Refresh(m) && r.exit == h.toolExit
      case None => r.steps[|r.steps| - 1].Detect? && r.exit == 1
  {
    FirstOfThree(h);
    if AptGet in h.present then ScriptRun([Detect(AptGet), Refresh(AptGet)], h.toolExit)
    else if Yum in h.present then ScriptRun([Detect(AptGet), Detect(Yum), Refresh(Yum)], h.toolExit)
    else ScriptRun([Detect(AptGet), Detect(Yum)], 1)
  }

  /** `install`: the first of apt-get, yum and dnf present installs `pkg` and
      the script ends with its status; without any of them it exits 1. */
  function InstallRun(h: Host, pkg: string): (r: ScriptRun)
    ensures |r.steps| > 0 && forall k :: 0 <= k < |r.steps| - 1 ==> r.steps[k].Detect?
    ensures match FirstPresent(h, [AptGet, Yum, Dnf])
      case Some(m) => r.steps[|r.steps| - 1] == Add(m, pkg) && r.exit == h.toolExit
      case None => r.steps[|r.steps| - 1].Detect? && r.exit == 1
  {
    FirstOfThree(h);
    if AptGet in h.present then ScriptRun([Detect(AptGet), Add(AptGet, pkg)], h.toolExit)
    else if Yum in h.present then ScriptRun([Detect(AptGet), Detect(Yum), Add(Yum, pkg)], h.toolExit)
    else if Dnf in h.present then ScriptRun([Detect(AptGet), Detect(Yum), Detect(Dnf), Add(Dnf, pkg)], h.toolExit)
    else ScriptRun([Detect(AptGet), Detect(Yum), Detect(Dnf)], 1)
  }

  /** Whether `manager` offers `pkg` on `h`. */
  predicate Offers(h: Host, manager: Manager, pkg: string)
  {
    match manager
    case AptGet => pkg in h.aptOffers
    case Yum => pkg in h.yumOffers
    case Dnf => false
  }

  /** The loop of `install_one`, from the candidate `pkgs[0]` on.  Under
      `set -e` a failing install ends the script with that install's status,
      otherwise the script exits 0 after it. */
  function InstallOneRun(h: Host, pkgs: seq<string>): (r: ScriptRun)
    ensures forall k :: 0 <= k < |r.steps| && r.steps[k].Add? ==> k == |r.steps| - 1 && r.steps[k].pkg in pkgs
    ensures r.exit == 1 || (r.exit == h.toolExit && |r.steps| > 0 && r.steps[|r.steps| - 1].Add?)
    decreases |pkgs|
  {
    if pkgs == [] then ScriptRun([], 1)
    else
      var pkg := pkgs[0];
      if AptGet in h.present then
        if pkg in h.aptOffers then ScriptRun([Detect(AptGet), Query(AptGet, pkg), Add(AptGet, pkg)], h.toolExit)
        else Prefix([Detect(AptGet), Query(AptGet, pkg)], InstallOneRun(h, pkgs[1..]))
      else if Yum in h.present then
        if pkg in h.yumOffers then ScriptRun([Detect(AptGet), Detect(Yum), Query(Yum, pkg), Add(Yum, pkg)], h.toolExit)
        else Prefix([Detect(AptGet), Detect(Yum), Query(Yum, pkg)], InstallOneRun(h, pkgs[1..]))
      else ScriptRun([Detect(AptGet), Detect(Yum)], 1)
  }

  function Prefix(steps: seq<Step>, run: ScriptRun): ScriptRun
  {
    ScriptRun(steps + run.steps, run.exit)
  }

  // ----- independent descriptions of the decisions --------------------------

  /** The manager a script uses: the first of `order` that the host has. */
  function FirstPresent(h: Host, order: seq<Manager>): (r: Option<Manager>)
    ensures r.Some? ==> r.value in h.present
    ensures r.Some? ==> exists i :: 0 <= i < |order| && order[i] == r.value && forall j :: 0 <= j < i ==> order[j] !in h.present
    ensures r.None? ==> forall m :: m in order ==> m !in h.present
  {
    if order == [] then None
    else if order[0] in h.present then Some(order[0])
    else FirstPresent(h, order[1..])
  }

  datatype Option<T> = None | Some(value: T)

  /** Index of the first candidate `manager` offers, if any. */
  function FirstOffered(h: Host, manager: Manager, pkgs: seq<string>): (r: Option<nat>)
    ensures r.Some? ==> r.value < |pkgs| && Offers(h, manager, pkgs[r.value])
    ensures r.Some? ==> forall j :: 0 <= j < r.value ==> !Offers(h, manager, pkgs[j])
    ensures r.None? ==> forall j :: 0 <= j < |pkgs| ==> !Offers(h, manager, pkgs[j])
    decreases |pkgs|
  {
    if pkgs == [] then None
    else if Offers(h, manager, pkgs[0]) then Some(0)
    else match FirstOffered(h, manager, pkgs[1..])
      case None => None
      case Some(k) => Some(k + 1)
  }

  /** The installs a list of steps performs. */
  function Adds(steps: seq<Step>): seq<Step>
  {
    if steps == [] then []
    else (if steps[0].Add? then [steps[0]] else []) + Adds(steps[1..])
  }

  /** The candidates a list of steps asks about, in order. */
  function Queried(steps: seq<Step>): seq<string>
  {
    if steps == [] then []
    else (if steps[0].Query? then [steps[0].pkg] else []) + Queried(steps[1..])
  }

  lemma {:induction false} AddsOfAppend(a: seq<Step>, b: seq<Step>)
    ensures Adds(a + b) == Adds(a) + Adds(b)
  {
    if a == [] {
      assert a + b == b;
    } else {
      var head := if a[0].Add? then [a[0]] else [];
      assert (a + b)[1..] == a[1..] + b;
      AddsOfAppend(a[1..], b);
      assert Adds(a + b) == head + (Adds(a[1..]) + Adds(b));
      assert head + (Adds(a[1..]) + Adds(b)) == (head + Adds(a[1..])) + Adds(b);
    }
  }

  lemma {:induction false} QueriedOfAppend(a: seq<Step>, b: seq<Step>)
    ensures Queried(a + b) == Queried(a) + Queried(b)
  {
    if a == [] {
      assert a + b == b;
    } else {
      var head := if a[0].Query? then [a[0].pkg] else [];
      assert (a + b)[1..] == a[1..] + b;
      QueriedOfAppend(a[1..], b);
      assert Queried(a + b) == head + (Queried(a[1..]) + Queried(b));
      assert head + (Queried(a[1..]) + Queried(b)) == (head + Queried(a[1..])) + Queried(b);
    }
  }

  /** Steps that only detect managers install nothing and ask about nothing. */
  lemma DetectsOnly(steps: seq<Step>)
    requires forall i :: 0 <= i < |steps| ==> steps[i].Detect?
    ensures Adds(steps) == [] && Queried(steps) == []
  {
    if steps != [] {
      DetectsOnly(steps[1..]);
    }
  }

  /** The steps of a branch that detects managers, then performs `last`. */
  lemma DetectsThen(detects: seq<Step>, last: seq<Step>)
    requires forall i :: 0 <= i < |detects| ==> detects[i].Detect?
    ensures Adds(detects + last) == Adds(last) && Queried(detects + last) == Queried(last)
  {
    DetectsOnly(detects);
    AddsOfAppend(detects, last);
    QueriedOfAppend(detects, last);
  }

  /** The first of apt-get, yum, dnf that the host has. */
  lemma FirstOfThree(h: Host)
    ensures FirstPresent(h, [AptGet, Yum, Dnf])
      == if AptGet in h.present then Some(AptGet)
         else if Yum in h.present then Some(Yum)
         else if Dnf in h.present then Some(Dnf)
         else None
    ensures FirstPresent(h, [AptGet, Yum])
      == if AptGet in h.present then Some(AptGet)
         else if Yum in h.present then Some(Yum)
         else None
  {
    var order := [AptGet, Yum, Dnf];
    assert order[1..] == [Yum, Dnf] && order[1..][1..] == [Dnf] && order[1..][1..][1..] == [];
    var two := [AptGet, Yum];
    assert two[1..] == [Yum] && two[1..][1..] == [];
  }

  /** `install` uses exactly one manager, the first present in the order
      apt-get, yum, dnf, runs only that manager's install, and exits 1 when
      none is present. */
  lemma InstallUsesFirstPresentManager(h: Host, pkg: string)
    ensures var r := InstallRun(h, pkg);
      match FirstPresent(h, [AptGet, Yum, Dnf])
      case Some(m) => Adds(r.steps) == [Add(m, pkg)] && r.exit == h.toolExit
      case None => Adds(r.steps) == [] && r.exit == 1
  {
    FirstOfThree(h);
    if AptGet in h.present {
      DetectsThen([Detect(AptGet)], [Add(AptGet, pkg)]);
    } else if Yum in h.present {
      DetectsThen([Detect(AptGet), Detect(Yum)], [Add(Yum, pkg)]);
    } else if Dnf in h.present {
      assert InstallRun(h, pkg).steps == [Detect(AptGet), Detect(Yum), Detect(Dnf)] + [Add(Dnf, pkg)];
      DetectsThen([Detect(AptGet), Detect(Yum), Detect(Dnf)], [Add(Dnf, pkg)]);
    } else {
      DetectsOnly([Detect(AptGet), Detect(Yum), Detect(Dnf)]);
    }
  }

  /** A host with apt-get gets the apt-get install and is never probed for yum or dnf. */
  lemma InstallWithAptNeverProbesYum(h: Host, pkg: string)
    requires AptGet in h.present
    ensures Detect(Yum) !in InstallRun(h, pkg).steps
    ensures Detect(Dnf) !in InstallRun(h, pkg).steps
    ensures InstallRun(h, pkg).steps == [Detect(AptGet), Add(AptGet, pkg)]
  {
  }

  /** `update` refreshes with apt-get or yum, never with dnf, and exits 1 when
      neither is present. */
  lemma UpdateIgnoresDnf(h: Host)
    ensures Refresh(Dnf) !in UpdateRun(h).steps
    ensures AptGet !in h.present && Yum !in h.present ==> UpdateRun(h).exit == 1
    ensures AptGet in h.present ==> Refresh(AptGet) in UpdateRun(h).steps
  {
  }

  /** The manager `install_one` queries with: apt-get, else yum. */
  function InstallOneManager(h: Host): Option<Manager>
  {
    FirstPresent(h, [AptGet, Yum])
  }

  /** `install_one` asks about the candidates in list order with the manager it
      finds first (apt-get, else yum), installs the first one that manager
      offers and stops; it exits 1 when no candidate is offered or when neither
      manager is present. */
  lemma InstallOnePicksFirstOffered(h: Host, pkgs: seq<string>)
    ensures var r := InstallOneRun(h, pkgs);
      match InstallOneManager(h)
      case None => Adds(r.steps) == [] && Queried(r.steps) == [] && r.exit == 1
      case Some(m) =>
        match FirstOffered(h, m, pkgs)
        case Some(k) => Adds(r.steps) == [Add(m, pkgs[k])] && Queried(r.steps) == pkgs[..k + 1] && r.exit == h.toolExit
        case None => Adds(r.steps) == [] && Queried(r.steps) == pkgs && r.exit == 1
  {
    FirstOfThree(h);
    if InstallOneManager(h).None? {
      if pkgs != [] {
        DetectsOnly([Detect(AptGet), Detect(Yum)]);
      }
    } else {
      InstallOneWith(h, pkgs, InstallOneManager(h).value);
    }
  }

  /** What `install_one` promises about a run `r` with the manager `m`. */
  predicate PicksFirstOffered(h: Host, m: Manager, pkgs: seq<string>, r: ScriptRun)
  {
    match FirstOffered(h, m, pkgs)
    case Some(k) => Adds(r.steps) == [Add(m, pkgs[k])] && Queried(r.steps) == pkgs[..k + 1] && r.exit == h.toolExit
    case None => Adds(r.steps) == [] && Queried(r.steps) == pkgs && r.exit == 1
  }

  /** A candidate the manager does not offer is asked about and skipped. */
  lemma PicksAfterSkip(h: Host, m: Manager, pkgs: seq<string>, r: ScriptRun, rest: ScriptRun)
    requires pkgs != [] && !Offers(h, m, pkgs[0])
    requires PicksFirstOffered(h, m, pkgs[1..], rest)
    requires Adds(r.steps) == Adds(rest.steps) && Queried(r.steps) == [pkgs[0]] + Queried(rest.steps)
    requires r.exit == rest.exit
    ensures PicksFirstOffered(h, m, pkgs, r)
  {
    var rest' := pkgs[1..];
    match FirstOffered(h, m, rest')
    case Some(k) =>
      assert FirstOffered(h, m, pkgs) == Some(k + 1);
      assert [pkgs[0]] + rest'[..k + 1] == pkgs[..k + 2];
    case None =>
      assert FirstOffered(h, m, pkgs) == None;
      assert [pkgs[0]] + rest' == pkgs;
  }

  /** The same once the manager `m` is known. */
  lemma {:induction false} InstallOneWith(h: Host, pkgs: seq<string>, m: Manager)
    requires InstallOneManager(h) == Some(m)
    ensures PicksFirstOffered(h, m, pkgs, InstallOneRun(h, pkgs))
    decreases |pkgs|
  {
    if pkgs != [] {
      if Offers(h, m, pkgs[0]) {
        InstallOneFirstCandidate(h, pkgs, m);
      } else {
        InstallOneWith(h, pkgs[1..], m);
        InstallOneLaterCandidate(h, pkgs, m);
        PicksAfterSkip(h, m, pkgs, InstallOneRun(h, pkgs), InstallOneRun(h, pkgs[1..]));
      }
    }
  }

  /** The detection steps `install_one` runs before querying with `m`. */
  function DetectsBefore(m: Manager): seq<Step>
  {
    if m == AptGet then [Detect(AptGet)] else [Detect(AptGet), Detect(Yum)]
  }

  /** One turn of the `install_one` loop with the manager `m`. */
  lemma InstallOneTurn(h: Host, pkgs: seq<string>, m: Manager)
    requires pkgs != [] && InstallOneManager(h) == Some(m)
    ensures InstallOneRun(h, pkgs) == (
      var q := DetectsBefore(m) + [Query(m, pkgs[0])];
      if Offers(h, m, pkgs[0]) then ScriptRun(q + [Add(m, pkgs[0])], h.toolExit)
      else Prefix(q, InstallOneRun(h, pkgs[1..])))
  {
    FirstOfThree(h);
    var pkg := pkgs[0];
    if m == AptGet {
      TurnApt(h, pkgs);
    } else {
      TurnYum(h, pkgs);
    }
  }

  lemma TurnApt(h: Host, pkgs: seq<string>)
    requires pkgs != [] && AptGet in h.present
    ensures InstallOneRun(h, pkgs) == (
      var q := [Detect(AptGet)] + [Query(AptGet, pkgs[0])];
      if pkgs[0] in h.aptOffers then ScriptRun(q + [Add(AptGet, pkgs[0])], h.toolExit)
      else Prefix(q, InstallOneRun(h, pkgs[1..])))
  {
    var pkg := pkgs[0];
    assert [Detect(AptGet)] + [Query(AptGet, pkg)] == [Detect(AptGet), Query(AptGet, pkg)];
    assert [Detect(AptGet), Query(AptGet, pkg)] + [Add(AptGet, pkg)] == [Detect(AptGet), Query(AptGet, pkg), Add(AptGet, pkg)];
  }

  lemma TurnYum(h: Host, pkgs: seq<string>)
    requires pkgs != [] && AptGet !in h.present && Yum in h.present
    ensures InstallOneRun(h, pkgs) == (
      var q := [Detect(AptGet), Detect(Yum)] + [Query(Yum, pkgs[0])];
      if pkgs[0] in h.yumOffers then ScriptRun(q + [Add(Yum, pkgs[0])], h.toolExit)
      else Prefix(q, InstallOneRun(h, pkgs[1..])))
  {
    var pkg := pkgs[0];
    assert [Detect(AptGet), Detect(Yum)] + [Query(Yum, pkg)] == [Detect(AptGet), Detect(Yum), Query(Yum, pkg)];
    assert [Detect(AptGet), Detect(Yum), Query(Yum, pkg)] + [Add(Yum, pkg)] == [Detect(AptGet), Detect(Yum), Query(Yum, pkg), Add(Yum, pkg)];
  }

  lemma InstallOneFirstCandidate(h: Host, pkgs: seq<string>, m: Manager)
    requires pkgs != [] && InstallOneManager(h) == Some(m) && Offers(h, m, pkgs[0])
    ensures var r := InstallOneRun(h, pkgs);
      FirstOffered(h, m, pkgs) == Some(0)
      && Adds(r.steps) == [Add(m, pkgs[0])] && Queried(r.steps) == pkgs[..1] && r.exit == h.toolExit
  {
    InstallOneTurn(h, pkgs, m);
    var pkg := pkgs[0];
    assert pkgs[..1] == [pkg];
    assert (DetectsBefore(m) + [Query(m, pkg)]) + [Add(m, pkg)] == DetectsBefore(m) + ([Query(m, pkg)] + [Add(m, pkg)]);
    DetectsThen(DetectsBefore(m), [Query(m, pkg)] + [Add(m, pkg)]);
    AddsOfAppend([Query(m, pkg)], [Add(m, pkg)]);
    QueriedOfAppend([Query(m, pkg)], [Add(m, pkg)]);
  }

  lemma InstallOneLaterCandidate(h: Host, pkgs: seq<string>, m: Manager)
    requires pkgs != [] && InstallOneManager(h) == Some(m) && !Offers(h, m, pkgs[0])
    ensures var r := InstallOneRun(h, pkgs);
      var rest := InstallOneRun(h, pkgs[1..]);
      Adds(r.steps) == Adds(rest.steps) && Queried(r.steps) == [pkgs[0]] + Queried(rest.steps)
      && r.exit == rest.exit
  {
    InstallOneTurn(h, pkgs, m);
    var pkg := pkgs[0];
    var rest := InstallOneRun(h, pkgs[1..]).steps;
    var q := DetectsBefore(m) + [Query(m, pkg)];
    assert InstallOneRun(h, pkgs).steps == q + rest;
    DetectsThen(DetectsBefore(m), [Query(m, pkg)]);
    assert Adds([Query(m, pkg)]) == [] && Queried([Query(m, pkg)]) == [pkg];
    AddsOfAppend(q, rest);
    QueriedOfAppend(q, rest);
  }
}
