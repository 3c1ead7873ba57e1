/** Install plans, and the loop that runs one behind the digest gate. */
module Install {
  import opened Common

  datatype Os = Linux | Macos | Windows | Other

  datatype PkgManager = Brew | Dnf | Apt | Pacman | Winget | Choco

  datatype Platform = Platform(os: Os, pkgManager: Option<PkgManager>, pkexec: bool)

  /** A URL or member template, cut into literal text and placeholders. */
  datatype Piece = Literal(text: string) | OsSlot | OsCapsSlot | ArchSlot | X64Slot

  type Template = seq<Piece>

  datatype Pin = Pin(key: string, digest: string)

  datatype Binary = Binary(
    url: Template, windowsUrl: Option<Template>, members: seq<Template>, windowsMembers: seq<Template>, pins: seq<Pin>)

  datatype Recipe = Recipe(
    brew: Option<string>, brewCask: Option<string>, dnf: Option<string>, apt: Option<string>, pacman: Option<string>,
    winget: Option<string>, choco: Option<string>, windowsUnsupported: bool, binary: Option<Binary>)

  datatype Tool = Tool(isDocker: bool, command: string, recipe: Recipe)

  /** Which https-only flags the host's curl accepts. */
  datatype CurlOpts = CurlOpts(proto: bool, protoRedir: bool)

  /** The PowerShell scripts of a Windows plan, by what they do. */
  datatype PsScript = NewDirectory(path: string) | MoveItem(source: string, dest: string) | RemoveItems(paths: seq<string>)

  datatype Arg = Text(text: string) | Script(script: PsScript)

  datatype Step = Step(program: string, args: seq<Arg>)

  datatype Check = Check(file: string, digest: string)

  datatype InstallPlan = InstallPlan(steps: seq<Step>, verify: seq<Check>)

  datatype PlanError = UnsupportedOnWindows | NoPinnedDigest(key: string) | NoRecipe

  // ---- platform words ----

  function OsWord(os: Os): string {
    match os
    case Macos => "darwin"
    case Windows => "windows"
    case _ => "linux"
  }

  function OsCapsWord(os: Os): string {
    match os
    case Macos => "Darwin"
    case Windows => "Windows"
    case _ => "Linux"
  }

  /** The architecture word used for downloads and digest keys. */
  function ArchName(host: string): string { if host == "aarch64" then "arm64" else "amd64" }

  /** What the architecture placeholder becomes. */
  function ArchWord(arch: string): string { if arch == "aarch64" then "arm64" else "amd64" }

  function X64Word(arch: string): string { if arch == "aarch64" then "arm64" else "x86_64" }

  function RenderPiece(p: Piece, os: Os, arch: string): string {
    match p
    case Literal(text) => text
    case OsSlot => OsWord(os)
    case OsCapsSlot => OsCapsWord(os)
    case ArchSlot => ArchWord(arch)
    case X64Slot => X64Word(arch)
  }

  function Render(t: Template, os: Os, arch: string): string {
    if t == [] then "" else RenderPiece(t[0], os, arch) + Render(t[1..], os, arch)
  }

  function PlatformKey(os: Os, arch: string): string { OsWord(os) + "-" + arch }

  // ---- the architecture in a URL ----

  /** The template asks for the architecture. */
  predicate NamesArch(t: Template) { exists i :: 0 <= i < |t| && (t[i].ArchSlot? || t[i].X64Slot?) }

  function X64Slots(t: Template): nat {
    if t == [] then 0 else (if t[0].X64Slot? then 1 else 0) + X64Slots(t[1..])
  }

  lemma ArchWordsDiffer()
    ensures "arm64" != "aarch64" && "amd64" != "aarch64" && "amd64"[1] != "arm64"[1]
  {
    assert |"aarch64"| == 7 && |"arm64"| == 5 && |"amd64"| == 5;
    assert "arm64"[1] == 'r' && "amd64"[1] == 'm';
  }

  /** The download word is never the host word it is compared with, so every template renders as on an amd64 host. */
  lemma {:induction false} RenderedForAmd64(t: Template, os: Os, host: string)
    ensures Render(t, os, ArchName(host)) == Render(t, os, "amd64")
  {
    ArchWordsDiffer();
    if t != [] { RenderedForAmd64(t[1..], os, host); }
  }

  lemma {:induction false} NamedArchShows(t: Template, os: Os)
    ensures |Render(t, os, "amd64")| == |Render(t, os, "aarch64")| + X64Slots(t)
    ensures NamesArch(t) ==> Render(t, os, "amd64") != Render(t, os, "aarch64")
    ensures !NamesArch(t) ==> Render(t, os, "amd64") == Render(t, os, "aarch64")
  {
    if t != [] {
      var rest := t[1..];
      ArchWordsDiffer();
      NamedArchShows(rest, os);
      assert NamesArch(t) <==> t[0].ArchSlot? || t[0].X64Slot? || NamesArch(rest) by {
        if NamesArch(rest) {
          var i :| 0 <= i < |rest| && (rest[i].ArchSlot? || rest[i].X64Slot?);
          assert t[i + 1] == rest[i];
        }
      }
      FirstPieceShows(RenderPiece(t[0], os, "amd64"), RenderPiece(t[0], os, "aarch64"),
                      Render(rest, os, "amd64"), Render(rest, os, "aarch64"));
    }
  }

  /** Texts with different first parts of one length, or with equal first parts and different rests, differ. */
  lemma FirstPieceShows(a: string, b: string, restA: string, restB: string)
    ensures a != b && |a| == |b| ==> a + restA != b + restB
    ensures a == b && restA != restB ==> a + restA != b + restB
  {
    if |a| == |b| {
      assert (a + restA)[..|a|] == a && (b + restB)[..|b|] == b;
      assert (a + restA)[|a|..] == restA && (b + restB)[|b|..] == restB;
    }
  }

  /** What a piece of a template becomes in a plan: the words of the platform, and those of an amd64 host. */
  ghost predicate Shows(p: Piece, os: Os, text: string) {
    match p
    case Literal(own) => text == own
    case OsSlot => text == if os.Macos? then "darwin" else if os.Windows? then "windows" else "linux"
    case OsCapsSlot => text == if os.Macos? then "Darwin" else if os.Windows? then "Windows" else "Linux"
    case ArchSlot => text == "amd64"
    case X64Slot => text == "x86_64"
  }

  function Concat(texts: seq<string>): string { if texts == [] then "" else texts[0] + Concat(texts[1..]) }

  /** A template renders to the texts of its pieces, one after another, the same on every host. */
  lemma {:induction false} RendersPieceByPiece(t: Template, os: Os, host: string) returns (texts: seq<string>)
    ensures |texts| == |t| && Render(t, os, ArchName(host)) == Concat(texts)
    ensures forall i :: 0 <= i < |t| ==> Shows(t[i], os, texts[i])
  {
    if t == [] {
      texts := [];
    } else {
      var rest := RendersPieceByPiece(t[1..], os, host);
      ArchWordsDiffer();
      texts := [RenderPiece(t[0], os, ArchName(host))] + rest;
      assert texts[1..] == rest;
      forall i | 0 <= i < |t| ensures Shows(t[i], os, texts[i]) {
        if i > 0 { assert t[1..][i - 1] == t[i]; }
      }
    }
  }

  /** The key of the pinned digest names the platform and the host's own architecture. */
  lemma PinIsForTheHost(os: Os, host: string) returns (word: string)
    ensures Shows(OsSlot, os, word) && PlatformKey(os, ArchName(host)) == word + "-" + if host == "aarch64" then "arm64" else "amd64"
  {
    word := OsWord(os);
  }

  /**
   * The documentation promises the host's own architecture in a URL. The rendered URL is that exactly off
   * `aarch64`, or when the template names no architecture.
   */
  lemma UrlIsAsPromisedIff(t: Template, os: Os, host: string)
    ensures Render(t, os, ArchName(host)) == Render(t, os, host) <==> host != "aarch64" || !NamesArch(t)
  {
    RenderedForAmd64(t, os, host);
    NamedArchShows(t, os);
    if host != "aarch64" { OtherHostsRenderAlike(t, os, host); }
  }

  lemma {:induction false} OtherHostsRenderAlike(t: Template, os: Os, host: string)
    requires host != "aarch64"
    ensures Render(t, os, host) == Render(t, os, "amd64")
  {
    ArchWordsDiffer();
    if t != [] { OtherHostsRenderAlike(t[1..], os, host); }
  }

  // ---- plans ----

  predicate SameIgnoringCase(a: string, b: string) {
    |a| == |b| && forall i :: 0 <= i < |a| ==> LowerChar(a[i]) == LowerChar(b[i])
  }

  function LowerChar(c: char): char { if 'A' <= c <= 'Z' then (c as int + 32) as char else c }

  /** Characters count as the same when they are, or when one is the capital of the other, and in no other case. */
  lemma SameLetterIff(c: char, d: char)
    ensures LowerChar(c) == LowerChar(d) <==>
      c == d || ('A' <= c <= 'Z' && d as int - c as int == 'a' as int - 'A' as int) || ('A' <= d <= 'Z' && c as int - d as int == 'a' as int - 'A' as int)
  {
  }

  predicate NoCapitals(s: string) { forall i :: 0 <= i < |s| ==> !('A' <= s[i] <= 'Z') }

  /** Without capitals only equal texts are the same. */
  lemma SameIgnoringCaseIff(a: string, b: string)
    requires NoCapitals(a) && NoCapitals(b)
    ensures SameIgnoringCase(a, b) <==> a == b
  {
    if SameIgnoringCase(a, b) {
      forall i | 0 <= i < |a| ensures a[i] == b[i] { SameLetterIff(a[i], b[i]); }
    }
  }

  predicate IsCurl(program: string) { SameIgnoringCase(program, "curl") || SameIgnoringCase(program, "curl.exe") }

  /** The argument after the first `-o`. */
  function OutputFile(args: seq<Arg>): Option<string> {
    if args == [] then None
    else if args[0] == Text("-o") then (if |args| > 1 && args[1].Text? then Some(args[1].text) else None)
    else OutputFile(args[1..])
  }

  /** It is what follows `-o`, whatever comes after it. */
  lemma {:induction false} OutputFileIs(front: seq<Arg>, file: string, rest: seq<Arg>)
    requires forall i :: 0 <= i < |front| ==> front[i] != Text("-o")
    ensures OutputFile(front + [Text("-o"), Text(file)] + rest) == Some(file)
  {
    var all := front + [Text("-o"), Text(file)] + rest;
    if front != [] {
      assert all[0] == front[0] && all[1..] == front[1..] + [Text("-o"), Text(file)] + rest;
      OutputFileIs(front[1..], file, rest);
    }
  }

  lemma {:induction false} NoOutputFile(args: seq<Arg>)
    requires forall i :: 0 <= i < |args| ==> args[i] != Text("-o")
    ensures OutputFile(args) == None
  {
    if args != [] { NoOutputFile(args[1..]); }
  }

  /** The first check of that file. */
  function FindCheck(verify: seq<Check>, file: string): (r: Option<Check>)
    ensures r.Some? ==> r.value in verify && r.value.file == file
    ensures r.None? ==> forall c :: c in verify ==> c.file != file
  {
    if verify == [] then None else if verify[0].file == file then Some(verify[0]) else FindCheck(verify[1..], file)
  }

  /** The check that gates a step, if it has one. */
  function GateOf(plan: InstallPlan, step: Step): Option<Check> {
    if !IsCurl(step.program) then None
    else
      match OutputFile(step.args)
      case None => None
      case Some(file) => FindCheck(plan.verify, file)
  }

  /** Every download of the plan has its gate. */
  ghost predicate Gated(plan: InstallPlan) {
    forall k :: 0 <= k < |plan.steps| && IsCurl(plan.steps[k].program) ==> GateOf(plan, plan.steps[k]).Some?
  }

  /** The first pinned digest of that key. */
  function FindPin(pins: seq<Pin>, key: string): (r: Option<string>)
    ensures r.Some? <==> exists p :: p in pins && p.key == key
    ensures r.Some? ==> Pin(key, r.value) in pins
  {
    if pins == [] then None else if pins[0].key == key then Some(pins[0].digest) else FindPin(pins[1..], key)
  }

  function Elevated(platform: Platform, program: string, args: seq<string>): Step {
    if platform.pkexec then Step("pkexec", Texts([program] + args)) else Step(program, Texts(args))
  }

  function Texts(args: seq<string>): (r: seq<Arg>)
    ensures |r| == |args| && forall i :: 0 <= i < |args| ==> r[i] == Text(args[i])
  {
    seq(|args|, i requires 0 <= i < |args| => Text(args[i]))
  }

  /** The package manager's step, when the platform has one that knows the tool. */
  function PackageStep(tool: Tool, platform: Platform): Option<Step> {
    var r := tool.recipe;
    match (platform.os, platform.pkgManager)
    case (Macos, Some(Brew)) => BrewStep(tool)
    case (Linux, Some(Brew)) => BrewStep(tool)
    case (Linux, Some(Dnf)) => if r.dnf.None? then None else Some(Elevated(platform, "dnf", ["install", "-y", r.dnf.value]))
    case (Linux, Some(Apt)) => if r.apt.None? then None else Some(Elevated(platform, "apt-get", ["install", "-y", r.apt.value]))
    case (Linux, Some(Pacman)) => if r.pacman.None? then None else Some(Elevated(platform, "pacman", ["-S", "--noconfirm", r.pacman.value]))
    case (Windows, Some(Winget)) =>
      if r.winget.None? then None
      else Some(Step("winget", Texts(["install", "--id", r.winget.value, "-e", "--silent", "--accept-source-agreements", "--accept-package-agreements"])))
    case (Windows, Some(Choco)) => if r.choco.None? then None else Some(Step("choco", Texts(["install", "-y", r.choco.value])))
    case _ => None
  }

  /** The Docker cask takes precedence over its formula. */
  function BrewStep(tool: Tool): Option<Step> {
    var name := if tool.isDocker then tool.recipe.brewCask else tool.recipe.brew;
    if name.None? then None
    else Some(Step("brew", Texts(if tool.isDocker then ["install", "--cask", name.value] else ["install", name.value])))
  }

  /** The package manager is one of this system. */
  predicate Serves(m: PkgManager, os: Os) {
    match m
    case Brew => os.Macos? || os.Linux?
    case Winget => os.Windows?
    case Choco => os.Windows?
    case _ => os.Linux?
  }

  /** The name of the tool's package there; Docker comes as a cask. */
  ghost predicate IsPackage(tool: Tool, m: PkgManager, name: string) {
    match m
    case Brew => if tool.isDocker then tool.recipe.brewCask == Some(name) else tool.recipe.brew == Some(name)
    case Dnf => tool.recipe.dnf == Some(name)
    case Apt => tool.recipe.apt == Some(name)
    case Pacman => tool.recipe.pacman == Some(name)
    case Winget => tool.recipe.winget == Some(name)
    case Choco => tool.recipe.choco == Some(name)
  }

  /** What is run to install a package, without a question being asked, and as root where that takes a helper. */
  ghost predicate RunsFor(platform: Platform, tool: Tool, m: PkgManager, name: string, step: Step) {
    match m
    case Brew => step == Step("brew", Texts(if tool.isDocker then ["install", "--cask", name] else ["install", name]))
    case Dnf => AsRoot(platform, "dnf", ["install", "-y", name], step)
    case Apt => AsRoot(platform, "apt-get", ["install", "-y", name], step)
    case Pacman => AsRoot(platform, "pacman", ["-S", "--noconfirm", name], step)
    case Winget => step == Step("winget", Texts(["install", "--id", name, "-e", "--silent", "--accept-source-agreements", "--accept-package-agreements"]))
    case Choco => step == Step("choco", Texts(["install", "-y", name]))
  }

  ghost predicate AsRoot(platform: Platform, program: string, args: seq<string>, step: Step) {
    && (platform.pkexec ==> step == Step("pkexec", Texts([program] + args)))
    && (!platform.pkexec ==> step == Step(program, Texts(args)))
  }

  /** There is a package step exactly when the platform's own package manager has the tool, and it installs that package. */
  lemma PackageStepIff(tool: Tool, platform: Platform)
    ensures PackageStep(tool, platform).Some? <==>
      platform.pkgManager.Some? && Serves(platform.pkgManager.value, platform.os) && exists name :: IsPackage(tool, platform.pkgManager.value, name)
    ensures PackageStep(tool, platform).Some? ==> forall name :: IsPackage(tool, platform.pkgManager.value, name) ==>
      RunsFor(platform, tool, platform.pkgManager.value, name, PackageStep(tool, platform).value)
  {
    if platform.pkgManager.Some? {
      match platform.pkgManager.value
      case Brew => PackageKnown(tool, Brew, if tool.isDocker then tool.recipe.brewCask else tool.recipe.brew);
      case Dnf => PackageKnown(tool, Dnf, tool.recipe.dnf);
      case Apt => PackageKnown(tool, Apt, tool.recipe.apt);
      case Pacman => PackageKnown(tool, Pacman, tool.recipe.pacman);
      case Winget => PackageKnown(tool, Winget, tool.recipe.winget);
      case Choco => PackageKnown(tool, Choco, tool.recipe.choco);
    }
  }

  lemma PackageKnown(tool: Tool, m: PkgManager, known: Option<string>)
    requires forall name :: IsPackage(tool, m, name) <==> known == Some(name)
    ensures known.Some? <==> exists name :: IsPackage(tool, m, name)
  {
    if known.Some? { assert IsPackage(tool, m, known.value); }
  }

  /** The second letter tells every other program of a plan from curl. */
  lemma CurlHasAU(program: string)
    ensures IsCurl(program) ==> |program| > 1 && LowerChar(program[1]) == 'u'
  {
    assert LowerChar("curl"[1]) == 'u' && LowerChar("curl.exe"[1]) == 'u';
  }

  lemma PackageStepIsNoDownload(tool: Tool, platform: Platform)
    ensures PackageStep(tool, platform).Some? ==> !IsCurl(PackageStep(tool, platform).value.program)
  {
    if PackageStep(tool, platform).Some? { CurlHasAU(PackageStep(tool, platform).value.program); }
  }

  // ---- building the binary plan ----

  /** What a plan is built for. */
  datatype Target = Target(tool: Tool, os: Os, arch: string, binDir: string, caps: CurlOpts)

  function JoinPath(dir: string, name: string): string { dir + "/" + name }

  function DownloadPath(t: Target): string { JoinPath(t.binDir, ".kb-dl-" + t.tool.command) }

  function ExtractDir(t: Target): string { JoinPath(t.binDir, ".kb-extract-" + t.tool.command) }

  function SecureArgs(caps: CurlOpts): seq<Arg> {
    (if caps.proto then [Text("--proto"), Text("=https")] else [])
    + (if caps.protoRedir then [Text("--proto-redir"), Text("=https")] else [])
  }

  function CurlArgs(t: Target, url: string): seq<Arg> {
    [Text("-L"), Text("--fail"), Text("--silent"), Text("--show-error")] + SecureArgs(t.caps)
    + [Text("--max-filesize"), Text("268435456"), Text("-o"), Text(DownloadPath(t)), Text(url)]
  }

  /** What is downloaded and what is unpacked lie in the install directory and do not get in each other's way. */
  lemma WorkPathsAreApart(t: Target)
    ensures DownloadPath(t) != ExtractDir(t) && t.binDir + "/" <= DownloadPath(t) && t.binDir + "/" <= ExtractDir(t)
  {
    assert DownloadPath(t)[|t.binDir| + 5] == 'd' && ExtractDir(t)[|t.binDir| + 5] == 'e';
  }

  /** Different tools do not share them. */
  lemma WorkPathsAreOwn(t: Target, u: Target)
    requires t.binDir == u.binDir && (DownloadPath(t) == DownloadPath(u) || ExtractDir(t) == ExtractDir(u))
    ensures t.tool.command == u.tool.command
  {
    var n := |t.binDir|;
    assert DownloadPath(t)[n + 8..] == t.tool.command && DownloadPath(u)[n + 8..] == u.tool.command;
    assert ExtractDir(t)[n + 13..] == t.tool.command && ExtractDir(u)[n + 13..] == u.tool.command;
  }

  /** The name after the last slash; the whole name when there is none. */
  function FileName(path: string): string {
    if path == [] then [] else if path[|path| - 1] == '/' then [] else FileName(path[..|path| - 1]) + [path[|path| - 1]]
  }

  /** It is the part after the last slash. */
  lemma {:induction false} FileNameIs(path: string) returns (dir: string)
    ensures path == dir + FileName(path) && '/' !in FileName(path) && (dir == "" || dir[|dir| - 1] == '/')
  {
    if path == [] || path[|path| - 1] == '/' {
      dir := path;
    } else {
      var front, last := path[..|path| - 1], path[|path| - 1];
      dir := FileNameIs(front);
      assert FileName(path) == FileName(front) + [last] && last != '/';
      assert path == front + [last] == dir + FileName(front) + [last];
      ConcatAssociates(dir, FileName(front), [last]);
    }
  }

  predicate Harmless(step: Step) { !IsCurl(step.program) }

  ghost predicate AllHarmless(steps: seq<Step>) { forall k :: 0 <= k < |steps| ==> Harmless(steps[k]) }

  lemma {:induction false} OutputAfter(front: seq<Arg>, rest: seq<Arg>)
    requires forall i :: 0 <= i < |front| ==> front[i] != Text("-o")
    ensures OutputFile(front + rest) == OutputFile(rest)
  {
    if front == [] {
      assert front + rest == rest;
    } else {
      assert (front + rest)[1..] == front[1..] + rest;
      OutputAfter(front[1..], rest);
    }
  }

  /** The download's output file is the plan's download path, whatever flags the host's curl accepts. */
  lemma CurlWritesDownloadPath(t: Target, url: string)
    ensures OutputFile(CurlArgs(t, url)) == Some(DownloadPath(t))
  {
    var front := Flags(t);
    var rest := [Text("-o"), Text(DownloadPath(t)), Text(url)];
    assert CurlArgs(t, url) == front + rest;
    OutputAfter(front, rest);
  }

  /** A flag with its value among the arguments. */
  ghost predicate HasFlag(args: seq<Arg>, flag: string, value: string) {
    exists i :: 0 <= i < |args| - 1 && args[i] == Text(flag) && args[i + 1] == Text(value)
  }

  /** The flags of a download before its output file. */
  function Flags(t: Target): seq<Arg> {
    [Text("-L"), Text("--fail"), Text("--silent"), Text("--show-error")] + SecureArgs(t.caps) + [Text("--max-filesize"), Text("268435456")]
  }

  /** The download keeps to https wherever the host's curl can be told to, also when redirected, and is limited in size. */
  lemma CurlKeepsToHttps(t: Target, url: string)
    ensures CurlArgs(t, url) == Flags(t) + [Text("-o"), Text(DownloadPath(t)), Text(url)]
    ensures t.caps.proto <==> HasFlag(Flags(t), "--proto", "=https")
    ensures t.caps.protoRedir <==> HasFlag(Flags(t), "--proto-redir", "=https")
    ensures HasFlag(Flags(t), "--max-filesize", "268435456") && Text("--fail") in Flags(t)
  {
    var flags, n := Flags(t), |SecureArgs(t.caps)|;
    assert flags[1] == Text("--fail");
    assert flags[4 + n] == Text("--max-filesize") && flags[5 + n] == Text("268435456");
    if t.caps.proto { assert flags[4] == Text("--proto") && flags[5] == Text("=https"); }
    if t.caps.protoRedir { assert flags[2 + n] == Text("--proto-redir") && flags[3 + n] == Text("=https"); }
    FlagsDiffer();
  }

  lemma FlagsDiffer()
    ensures |"-L"| == 2 && |"--fail"| == |"=https"| == 6 && |"--silent"| == 8 && |"--show-error"| == 12
    ensures |"--proto"| == 7 && |"--proto-redir"| == 13 && |"--max-filesize"| == 14 && |"268435456"| == 9
  {
  }

  // ---- what a plan puts where ----

  datatype Move = Move(source: string, dest: string)

  /** The move a step makes, on either kind of platform. */
  function MoveOf(step: Step): seq<Move> {
    if step.program == "mv" && |step.args| == 2 && step.args[0].Text? && step.args[1].Text? then
      [Move(step.args[0].text, step.args[1].text)]
    else if step.program == "powershell" && |step.args| == 4 && step.args[3].Script? && step.args[3].script.MoveItem? then
      [Move(step.args[3].script.source, step.args[3].script.dest)]
    else []
  }

  function Moves(steps: seq<Step>): seq<Move> {
    if steps == [] then [] else Moves(steps[..|steps| - 1]) + MoveOf(steps[|steps| - 1])
  }

  lemma {:induction false} MovesConcat(a: seq<Step>, b: seq<Step>)
    ensures Moves(a + b) == Moves(a) + Moves(b)
  {
    if b == [] {
      assert a + b == a;
    } else {
      assert (a + b)[..|a + b| - 1] == a + b[..|b| - 1];
      MovesConcat(a, b[..|b| - 1]);
    }
  }

  lemma MovesOfOne(step: Step)
    ensures Moves([step]) == MoveOf(step)
  {
    assert [step][..0] == [];
  }

  /** Every archive member goes from the extraction directory to the install directory under its own file name. */
  function MemberMoves(t: Target, members: seq<Template>): seq<Move> {
    if members == [] then []
    else
      var name := Render(members[|members| - 1], t.os, t.arch);
      MemberMoves(t, members[..|members| - 1]) + [Move(JoinPath(ExtractDir(t), name), JoinPath(t.binDir, FileName(name)))]
  }

  /** What the plan installs: the download itself under the command's name, or the archive's members. */
  function Installs(t: Target, members: seq<Template>): seq<Move> {
    if members == [] then
      [Move(DownloadPath(t), JoinPath(t.binDir, if t.os.Windows? then t.tool.command + ".exe" else t.tool.command))]
    else MemberMoves(t, members)
  }

  function PowerShell(script: PsScript): Step {
    Step("powershell", [Text("-NoProfile"), Text("-NonInteractive"), Text("-Command"), Script(script)])
  }

  function Cmd(program: string, args: seq<string>): Step { Step(program, Texts(args)) }

  /** A step appended after a download: it is no download itself and makes these moves. */
  lemma AppendHarmless(steps: seq<Step>, step: Step)
    requires AllHarmless(steps) && Harmless(step)
    ensures AllHarmless(steps + [step]) && Moves(steps + [step]) == Moves(steps) + MoveOf(step)
  {
    MovesConcat(steps, [step]);
    MovesOfOne(step);
  }

  lemma MvStep(source: string, dest: string)
    ensures Harmless(Cmd("mv", [source, dest])) && MoveOf(Cmd("mv", [source, dest])) == [Move(source, dest)]
  {
    CurlHasAU("mv");
  }

  lemma PlainStep(program: string, args: seq<string>)
    requires program in ["mkdir", "chmod", "tar", "tar.exe", "rm"]
    ensures Harmless(Cmd(program, args)) && MoveOf(Cmd(program, args)) == []
  {
    CurlHasAU(program);
  }

  lemma PowerShellStep(script: PsScript)
    ensures Harmless(PowerShell(script))
    ensures MoveOf(PowerShell(script)) == if script.MoveItem? then [Move(script.source, script.dest)] else []
  {
    CurlHasAU("powershell");
  }

  // ---- the builders ----

  function MembersFor(t: Target, binary: Binary): seq<Template> {
    if t.os.Windows? then binary.windowsMembers else binary.members
  }

  function UrlTemplate(t: Target, binary: Binary): Template {
    if t.os.Windows? && binary.windowsUrl.Some? then binary.windowsUrl.value else binary.url
  }

  function UrlFor(t: Target, binary: Binary): string { Render(UrlTemplate(t, binary), t.os, t.arch) }

  function MemberName(t: Target, member: Template): string { Render(member, t.os, t.arch) }

  function Extracted(t: Target, member: Template): string { JoinPath(ExtractDir(t), MemberName(t, member)) }

  function InstalledAs(t: Target, member: Template): string { JoinPath(t.binDir, FileName(MemberName(t, member))) }

  /** Each member is made executable and then moved, one member after another. */
  ghost predicate MovesMembers(t: Target, members: seq<Template>, steps: seq<Step>) {
    |steps| == 2 * |members| && forall k :: 0 <= k < |members| ==>
      && steps[2 * k] == Cmd("chmod", ["+x", Extracted(t, members[k])])
      && steps[2 * k + 1] == Cmd("mv", [Extracted(t, members[k]), InstalledAs(t, members[k])])
  }

  /** Each member is moved. */
  ghost predicate MovesMembersOnWindows(t: Target, members: seq<Template>, steps: seq<Step>) {
    |steps| == |members| && forall k :: 0 <= k < |members| ==>
      steps[k] == PowerShell(MoveItem(Extracted(t, members[k]), InstalledAs(t, members[k])))
  }

  /** The archiver takes these members, and no other, out of the download into the extraction directory. */
  ghost predicate Unpacks(t: Target, members: seq<Template>, program: string, flags: string, step: Step) {
    && step.program == program && |step.args| == 4 + |members|
    && step.args[0] == Text(flags) && step.args[1] == Text(DownloadPath(t)) && step.args[2] == Text("-C") && step.args[3] == Text(ExtractDir(t))
    && forall k :: 0 <= k < |members| ==> step.args[4 + k] == Text(MemberName(t, members[k]))
  }

  /** An archive: its directory is made, its members unpacked and installed, and what was downloaded and unpacked removed. */
  ghost predicate InstallsArchive(t: Target, members: seq<Template>, steps: seq<Step>) {
    var last := |steps| - 1;
    && |steps| >= 3
    && if t.os.Windows? then
         && steps[0] == PowerShell(NewDirectory(ExtractDir(t))) && Unpacks(t, members, "tar.exe", "-xf", steps[1])
         && MovesMembersOnWindows(t, members, steps[2..last])
         && steps[last] == PowerShell(RemoveItems([DownloadPath(t), ExtractDir(t)]))
       else
         && steps[0] == Cmd("mkdir", ["-p", ExtractDir(t)]) && Unpacks(t, members, "tar", "-xzf", steps[1])
         && MovesMembers(t, members, steps[2..last])
         && steps[last] == Cmd("rm", ["-rf", DownloadPath(t), ExtractDir(t)])
  }

  /** The steps after the download: an archive is unpacked, anything else is itself what is installed. */
  ghost predicate InstallsDownload(t: Target, members: seq<Template>, steps: seq<Step>) {
    if members != [] then InstallsArchive(t, members, steps)
    else if t.os.Windows? then steps == [PowerShell(MoveItem(DownloadPath(t), JoinPath(t.binDir, t.tool.command + ".exe")))]
    else steps == [Cmd("chmod", ["+x", DownloadPath(t)]), Cmd("mv", [DownloadPath(t), JoinPath(t.binDir, t.tool.command)])]
  }

  lemma MovesOneMore(t: Target, members: seq<Template>, member: Template, steps: seq<Step>, chmod: Step, mv: Step)
    requires MovesMembers(t, members, steps)
    requires chmod == Cmd("chmod", ["+x", Extracted(t, member)]) && mv == Cmd("mv", [Extracted(t, member), InstalledAs(t, member)])
    ensures MovesMembers(t, members + [member], steps + [chmod] + [mv])
  {
    var all, more := members + [member], steps + [chmod] + [mv];
    forall k | 0 <= k < |all|
      ensures more[2 * k] == Cmd("chmod", ["+x", Extracted(t, all[k])])
      ensures more[2 * k + 1] == Cmd("mv", [Extracted(t, all[k]), InstalledAs(t, all[k])])
    {
      if k < |members| {
        assert all[k] == members[k] && more[2 * k] == steps[2 * k] && more[2 * k + 1] == steps[2 * k + 1];
      } else {
        assert all[k] == member && more[2 * k] == chmod && more[2 * k + 1] == mv;
      }
    }
  }

  /** The two steps of one member. */
  lemma MemberSteps(t: Target, member: Template, steps: seq<Step>, chmod: Step, mv: Step)
    requires AllHarmless(steps)
    requires chmod == Cmd("chmod", ["+x", Extracted(t, member)]) && mv == Cmd("mv", [Extracted(t, member), InstalledAs(t, member)])
    ensures AllHarmless(steps + [chmod] + [mv])
    ensures Moves(steps + [chmod] + [mv]) == Moves(steps) + [Move(Extracted(t, member), InstalledAs(t, member))]
  {
    PlainStep("chmod", ["+x", Extracted(t, member)]);
    AppendHarmless(steps, chmod);
    MvStep(Extracted(t, member), InstalledAs(t, member));
    AppendHarmless(steps + [chmod], mv);
  }

  lemma MemberMovesNext(t: Target, members: seq<Template>, member: Template)
    ensures MemberMoves(t, members + [member]) == MemberMoves(t, members) + [Move(Extracted(t, member), InstalledAs(t, member))]
  {
    assert (members + [member])[..|members|] == members;
  }

  /** Unpack and install on Unix; the archive members become executable first. */
  method UnixMembers(t: Target, members: seq<Template>) returns (steps: seq<Step>)
    ensures InstallsMembers(t, members, steps)
  {
    steps := [];
    NoMembers(t);
    ghost var done: seq<Template> := [];
    for i := 0 to |members|
      invariant done == members[..i]
      invariant InstallsMembers(t, done, steps)
    {
      PrefixNext(members, i);
      steps := InstallMember(t, done, members[i], steps);
      done := done + [members[i]];
    }
    assert done == members;
  }

  ghost predicate InstallsMembers(t: Target, members: seq<Template>, steps: seq<Step>) {
    AllHarmless(steps) && Moves(steps) == MemberMoves(t, members) && MovesMembers(t, members, steps)
  }

  lemma NoMembers(t: Target)
    ensures InstallsMembers(t, [], [])
  {
  }

  /** One member more. */
  method InstallMember(t: Target, ghost done: seq<Template>, member: Template, steps0: seq<Step>) returns (steps: seq<Step>)
    requires InstallsMembers(t, done, steps0)
    ensures InstallsMembers(t, done + [member], steps)
  {
    var name := Render(member, t.os, t.arch);
    var extracted, dest := JoinPath(ExtractDir(t), name), JoinPath(t.binDir, FileName(name));
    var chmod, mv := Cmd("chmod", ["+x", extracted]), Cmd("mv", [extracted, dest]);
    MemberSteps(t, member, steps0, chmod, mv);
    MovesOneMore(t, done, member, steps0, chmod, mv);
    MemberMovesNext(t, done, member);
    steps := steps0 + [chmod] + [mv];
  }

  method WindowsMembers(t: Target, members: seq<Template>) returns (steps: seq<Step>)
    ensures InstallsMembersOnWindows(t, members, steps)
  {
    steps := [];
    NoMembersOnWindows(t);
    ghost var done: seq<Template> := [];
    for i := 0 to |members|
      invariant done == members[..i]
      invariant InstallsMembersOnWindows(t, done, steps)
    {
      PrefixNext(members, i);
      steps := InstallMemberOnWindows(t, done, members[i], steps);
      done := done + [members[i]];
    }
    assert done == members;
  }

  ghost predicate InstallsMembersOnWindows(t: Target, members: seq<Template>, steps: seq<Step>) {
    AllHarmless(steps) && Moves(steps) == MemberMoves(t, members) && MovesMembersOnWindows(t, members, steps)
  }

  lemma NoMembersOnWindows(t: Target)
    ensures InstallsMembersOnWindows(t, [], [])
  {
  }

  method InstallMemberOnWindows(t: Target, ghost done: seq<Template>, member: Template, steps0: seq<Step>) returns (steps: seq<Step>)
    requires InstallsMembersOnWindows(t, done, steps0)
    ensures InstallsMembersOnWindows(t, done + [member], steps)
  {
    var name := Render(member, t.os, t.arch);
    var script := MoveItem(JoinPath(ExtractDir(t), name), JoinPath(t.binDir, FileName(name)));
    PowerShellStep(script);
    AppendHarmless(steps0, PowerShell(script));
    MemberMovesNext(t, done, member);
    steps := steps0 + [PowerShell(script)];
  }

  /** The member names, rendered for the archiver's command line. */
  method RenderMembers(t: Target, members: seq<Template>) returns (names: seq<string>)
    ensures |names| == |members| && forall i :: 0 <= i < |members| ==> names[i] == Render(members[i], t.os, t.arch)
  {
    names := [];
    for i := 0 to |members|
      invariant |names| == i && forall k :: 0 <= k < i ==> names[k] == Render(members[k], t.os, t.arch)
    {
      names := names + [Render(members[i], t.os, t.arch)];
    }
  }

  /** Steps before and after the member moves that move nothing themselves. */
  lemma Wrapped(before: seq<Step>, moves: seq<Step>, after: Step)
    requires AllHarmless(before) && AllHarmless(moves) && Harmless(after) && Moves(before) == [] && MoveOf(after) == []
    ensures AllHarmless(before + moves + [after]) && Moves(before + moves + [after]) == Moves(moves)
  {
    MovesConcat(before, moves);
    AppendHarmless(before + moves, after);
  }

  lemma TwoPlain(a: Step, b: Step)
    requires Harmless(a) && Harmless(b) && MoveOf(a) == [] && MoveOf(b) == []
    ensures AllHarmless([a, b]) && Moves([a, b]) == []
  {
    MovesOfOne(a);
    AppendHarmless([a], b);
    assert [a] + [b] == [a, b];
  }

  /** The archiver's step, for names rendered beforehand. */
  lemma UnpackStep(t: Target, members: seq<Template>, program: string, flags: string, names: seq<string>)
    requires |names| == |members| && forall k :: 0 <= k < |members| ==> names[k] == MemberName(t, members[k])
    ensures Unpacks(t, members, program, flags, Cmd(program, [flags, DownloadPath(t), "-C", ExtractDir(t)] + names))
  {
    var args := [flags, DownloadPath(t), "-C", ExtractDir(t)] + names;
    forall k | 0 <= k < |members| ensures Cmd(program, args).args[4 + k] == Text(MemberName(t, members[k])) {
      assert args[4 + k] == names[k];
    }
  }

  lemma UnixArchiveIs(t: Target, members: seq<Template>, make: Step, unpack: Step, moves: seq<Step>, clean: Step)
    requires !t.os.Windows? && make == Cmd("mkdir", ["-p", ExtractDir(t)]) && Unpacks(t, members, "tar", "-xzf", unpack)
    requires MovesMembers(t, members, moves) && clean == Cmd("rm", ["-rf", DownloadPath(t), ExtractDir(t)])
    ensures InstallsArchive(t, members, [make, unpack] + moves + [clean])
  {
    var steps := [make, unpack] + moves + [clean];
    assert steps[2..|steps| - 1] == moves;
  }

  method UnixArchive(t: Target, members: seq<Template>) returns (steps: seq<Step>)
    requires !t.os.Windows?
    ensures AllHarmless(steps) && Moves(steps) == MemberMoves(t, members)
    ensures InstallsArchive(t, members, steps)
  {
    var names := RenderMembers(t, members);
    var make := Cmd("mkdir", ["-p", ExtractDir(t)]);
    var unpack := Cmd("tar", ["-xzf", DownloadPath(t), "-C", ExtractDir(t)] + names);
    var clean := Cmd("rm", ["-rf", DownloadPath(t), ExtractDir(t)]);
    PlainStep("mkdir", ["-p", ExtractDir(t)]);
    PlainStep("tar", ["-xzf", DownloadPath(t), "-C", ExtractDir(t)] + names);
    PlainStep("rm", ["-rf", DownloadPath(t), ExtractDir(t)]);
    UnpackStep(t, members, "tar", "-xzf", names);
    TwoPlain(make, unpack);
    var moves := UnixMembers(t, members);
    Wrapped([make, unpack], moves, clean);
    UnixArchiveIs(t, members, make, unpack, moves, clean);
    steps := [make, unpack] + moves + [clean];
  }

  lemma WindowsArchiveIs(t: Target, members: seq<Template>, make: Step, unpack: Step, moves: seq<Step>, clean: Step)
    requires t.os.Windows? && make == PowerShell(NewDirectory(ExtractDir(t))) && Unpacks(t, members, "tar.exe", "-xf", unpack)
    requires MovesMembersOnWindows(t, members, moves) && clean == PowerShell(RemoveItems([DownloadPath(t), ExtractDir(t)]))
    ensures InstallsArchive(t, members, [make, unpack] + moves + [clean])
  {
    var steps := [make, unpack] + moves + [clean];
    assert steps[2..|steps| - 1] == moves;
  }

  method WindowsArchive(t: Target, members: seq<Template>) returns (steps: seq<Step>)
    requires t.os.Windows?
    ensures AllHarmless(steps) && Moves(steps) == MemberMoves(t, members)
    ensures InstallsArchive(t, members, steps)
  {
    var names := RenderMembers(t, members);
    var make := PowerShell(NewDirectory(ExtractDir(t)));
    var unpack := Cmd("tar.exe", ["-xf", DownloadPath(t), "-C", ExtractDir(t)] + names);
    var clean := PowerShell(RemoveItems([DownloadPath(t), ExtractDir(t)]));
    PowerShellStep(NewDirectory(ExtractDir(t)));
    PlainStep("tar.exe", ["-xf", DownloadPath(t), "-C", ExtractDir(t)] + names);
    PowerShellStep(RemoveItems([DownloadPath(t), ExtractDir(t)]));
    UnpackStep(t, members, "tar.exe", "-xf", names);
    TwoPlain(make, unpack);
    var moves := WindowsMembers(t, members);
    Wrapped([make, unpack], moves, clean);
    WindowsArchiveIs(t, members, make, unpack, moves, clean);
    steps := [make, unpack] + moves + [clean];
  }

  /** The steps after the download on Unix. */
  method UnixTail(t: Target, members: seq<Template>) returns (steps: seq<Step>)
    requires !t.os.Windows?
    ensures AllHarmless(steps) && Moves(steps) == Installs(t, members)
    ensures InstallsDownload(t, members, steps)
  {
    if members != [] {
      steps := UnixArchive(t, members);
      return;
    }
    var dest := JoinPath(t.binDir, t.tool.command);
    var chmod, mv := Cmd("chmod", ["+x", DownloadPath(t)]), Cmd("mv", [DownloadPath(t), dest]);
    PlainStep("chmod", ["+x", DownloadPath(t)]);
    MvStep(DownloadPath(t), dest);
    MovesOfOne(chmod);
    AppendHarmless([chmod], mv);
    steps := [chmod] + [mv];
  }

  /** The steps after the download on Windows. */
  method WindowsTail(t: Target, members: seq<Template>) returns (steps: seq<Step>)
    requires t.os.Windows?
    ensures AllHarmless(steps) && Moves(steps) == Installs(t, members)
    ensures InstallsDownload(t, members, steps)
  {
    if members != [] {
      steps := WindowsArchive(t, members);
      return;
    }
    var script := MoveItem(DownloadPath(t), JoinPath(t.binDir, t.tool.command + ".exe"));
    PowerShellStep(script);
    MovesOfOne(PowerShell(script));
    steps := [PowerShell(script)];
  }

  /** One download, of the pinned artifact, before everything that uses it; then exactly the promised moves. */
  ghost predicate BinaryShape(t: Target, binary: Binary, plan: InstallPlan) {
    && |plan.steps| >= 2 && Harmless(plan.steps[0]) && InstallsDownload(t, MembersFor(t, binary), plan.steps[2..])
    && plan.steps[0] == (if t.os.Windows? then PowerShell(NewDirectory(t.binDir)) else Cmd("mkdir", ["-p", t.binDir]))
    && plan.steps[1].program == (if t.os.Windows? then "curl.exe" else "curl")
    && IsCurl(plan.steps[1].program) && plan.steps[1].args == CurlArgs(t, UrlFor(t, binary))
    && AllHarmless(plan.steps[2..]) && Moves(plan.steps[2..]) == Installs(t, MembersFor(t, binary))
    && |plan.verify| == 1 && plan.verify[0].file == DownloadPath(t)
    && FindPin(binary.pins, PlatformKey(t.os, t.arch)) == Some(plan.verify[0].digest)
  }

  /** A plan is refused exactly when the platform has no pinned digest. */
  method BinaryPlan(t: Target, binary: Binary) returns (r: Result<InstallPlan, PlanError>)
    ensures r.Failure? <==> FindPin(binary.pins, PlatformKey(t.os, t.arch)).None?
    ensures r.Failure? ==> r.error == NoPinnedDigest(PlatformKey(t.os, t.arch))
    ensures r.Success? ==> BinaryShape(t, binary, r.value)
  {
    var key := PlatformKey(t.os, t.arch);
    var first := if t.os.Windows? then PowerShell(NewDirectory(t.binDir)) else Cmd("mkdir", ["-p", t.binDir]);
    var download := Step(if t.os.Windows? then "curl.exe" else "curl", CurlArgs(t, UrlFor(t, binary)));
    var pin := FindPin(binary.pins, key);
    if pin.None? {
      return Failure(NoPinnedDigest(key));
    }
    var tail;
    if t.os.Windows? {
      PowerShellStep(NewDirectory(t.binDir));
      tail := WindowsTail(t, binary.windowsMembers);
    } else {
      PlainStep("mkdir", ["-p", t.binDir]);
      tail := UnixTail(t, binary.members);
    }
    var plan := InstallPlan([first, download] + tail, [Check(DownloadPath(t), pin.value)]);
    assert plan.steps[2..] == tail;
    return Success(plan);
  }

  /**
   * On an `aarch64` host a plan whose template names the architecture downloads another artifact than the promised
   * one, that of an amd64 host, and checks it against the digest pinned for arm64.
   */
  lemma Aarch64PlanChecksTheOtherArtifact(tool: Tool, os: Os, binDir: string, caps: CurlOpts, binary: Binary, plan: InstallPlan)
    requires BinaryShape(Target(tool, os, ArchName("aarch64"), binDir, caps), binary, plan)
    ensures var t := Target(tool, os, ArchName("aarch64"), binDir, caps);
      var template := UrlTemplate(t, binary);
      && plan.steps[1].args == CurlArgs(t, Render(template, os, "amd64"))
      && FindPin(binary.pins, OsWord(os) + "-arm64") == Some(plan.verify[0].digest)
      && (NamesArch(template) ==> Render(template, os, "amd64") != Render(template, os, "aarch64"))
  {
    var t := Target(tool, os, ArchName("aarch64"), binDir, caps);
    RenderedForAmd64(UrlTemplate(t, binary), os, "aarch64");
    NamedArchShows(UrlTemplate(t, binary), os);
    PlatformKeySplits(os);
  }

  lemma PlatformKeySplits(os: Os)
    ensures PlatformKey(os, ArchName("aarch64")) == OsWord(os) + "-arm64"
  {
    assert "-" + "arm64" == "-arm64";
    assert OsWord(os) + "-" + "arm64" == OsWord(os) + ("-" + "arm64");
  }

  lemma DownloadIsGated(t: Target, url: string, plan: InstallPlan, step: Step)
    requires IsCurl(step.program) && step.args == CurlArgs(t, url)
    requires |plan.verify| == 1 && plan.verify[0].file == DownloadPath(t)
    ensures GateOf(plan, step) == Some(plan.verify[0])
  {
    CurlWritesDownloadPath(t, url);
  }

  lemma OtherStepsAreHarmless(steps: seq<Step>, k: nat)
    requires |steps| >= 2 && Harmless(steps[0]) && AllHarmless(steps[2..]) && k < |steps| && k != 1
    ensures Harmless(steps[k])
  {
    if k >= 2 { assert Harmless(steps[2..][k - 2]); }
  }

  lemma BinaryShapeIsGated(t: Target, binary: Binary, plan: InstallPlan)
    requires BinaryShape(t, binary, plan)
    ensures Gated(plan)
  {
    DownloadIsGated(t, UrlFor(t, binary), plan, plan.steps[1]);
    forall k | 0 <= k < |plan.steps| && IsCurl(plan.steps[k].program) ensures GateOf(plan, plan.steps[k]).Some? {
      if k != 1 { OtherStepsAreHarmless(plan.steps, k); }
    }
  }

  /**
   * The plan for a tool: the package manager's one step when there is one, else the pinned download. Whatever
   * the tool, the platform and the curl, every download in the plan has its digest check.
   */
  method PlanInstall(tool: Tool, platform: Platform, host: string, binDir: string, caps: CurlOpts)
    returns (r: Result<InstallPlan, PlanError>)
    ensures var t := Target(tool, platform.os, ArchName(host), binDir, caps);
      var unsupported := platform.os.Windows? && tool.recipe.windowsUnsupported;
      var package, binary := PackageStep(tool, platform), tool.recipe.binary;
      && (unsupported ==> r == Failure(UnsupportedOnWindows))
      && (!unsupported && package.Some? ==> r == Success(InstallPlan([package.value], [])))
      && (!unsupported && package.None? && binary.None? ==> r == Failure(NoRecipe))
      && (!unsupported && package.None? && binary.Some? ==>
            if FindPin(binary.value.pins, PlatformKey(t.os, t.arch)).None? then r == Failure(NoPinnedDigest(PlatformKey(t.os, t.arch)))
            else r.Success? && BinaryShape(t, binary.value, r.value))
    ensures r.Success? ==> Gated(r.value)
  {
    if platform.os.Windows? && tool.recipe.windowsUnsupported {
      return Failure(UnsupportedOnWindows);
    }
    var package := PackageStep(tool, platform);
    if package.Some? {
      PackageStepIsNoDownload(tool, platform);
      return Success(InstallPlan([package.value], []));
    }
    if tool.recipe.binary.None? {
      return Failure(NoRecipe);
    }
    var t := Target(tool, platform.os, ArchName(host), binDir, caps);
    r := BinaryPlan(t, tool.recipe.binary.value);
    if r.Success? { BinaryShapeIsGated(t, tool.recipe.binary.value, r.value); }
  }

  // ---- running a plan ----

  datatype Status = Installed(version: string) | NotInstalled | Broken(reason: string)

  /** What running a step's command gives; after a failure the tool is detected once more. */
  datatype Outcome = Ran(lines: seq<string>) | Broke(recheck: Result<Status, string>)

  /** What the loop meets at each step: the token, the command, and the digest of the downloaded file. */
  datatype World = World(cancelled: nat -> bool, outcome: nat -> Outcome, digest: nat -> Result<string, string>)

  datatype Event = Started(step: nat) | Line(step: nat, text: string) | Verified(step: nat) | TreatedAsInstalled(step: nat) | Finished(step: nat)

  datatype InstallError =
    | CancelledBefore(step: nat)
    | CommandFailed(step: nat)
    | Unreadable(step: nat)
    | ChecksumMismatch(step: nat)
    | NotDetected(reason: string)

  /** The step's download, if it has a gate, hashes to the pinned digest. */
  predicate Passes(plan: InstallPlan, w: World, k: nat)
    requires k < |plan.steps|
  {
    var gate := GateOf(plan, plan.steps[k]);
    gate.Some? ==> w.digest(k).Success? && SameIgnoringCase(w.digest(k).value, gate.value.digest)
  }

  /** The loop goes past step `k`. */
  predicate Proceeds(plan: InstallPlan, w: World, k: nat)
    requires k < |plan.steps|
  {
    !w.cancelled(k) && w.outcome(k).Ran? && Passes(plan, w, k)
  }

  function Lines(k: nat, lines: seq<string>): (r: seq<Event>)
    ensures |r| == |lines| && forall i :: 0 <= i < |lines| ==> r[i] == Line(k, lines[i])
  {
    seq(|lines|, i requires 0 <= i < |lines| => Line(k, lines[i]))
  }

  /** The events of a step the loop goes past. */
  function StepEvents(plan: InstallPlan, w: World, k: nat): seq<Event>
    requires k < |plan.steps| && w.outcome(k).Ran?
  {
    [Started(k)] + Lines(k, w.outcome(k).lines)
    + (if GateOf(plan, plan.steps[k]).Some? then [Verified(k)] else []) + [Finished(k)]
  }

  /** The last events and the result when the loop stops at step `k`. */
  ghost predicate StopsWith(plan: InstallPlan, w: World, k: nat, tail: seq<Event>, r: Result<Status, InstallError>)
    requires k < |plan.steps| && !Proceeds(plan, w, k)
  {
    if w.cancelled(k) then tail == [] && r == Failure(CancelledBefore(k))
    else match w.outcome(k)
      case Broke(recheck) =>
        if recheck.Success? && recheck.value.Installed? then
          tail == [Started(k), TreatedAsInstalled(k)] && r == Success(recheck.value)
        else tail == [Started(k)] && r == Failure(CommandFailed(k))
      case Ran(lines) =>
        && tail == [Started(k)] + Lines(k, lines)
        && r == Failure(if w.digest(k).Success? then ChecksumMismatch(k) else Unreadable(k))
  }

  function DoneEvents(plan: InstallPlan, w: World, n: nat): seq<Event>
    requires n <= |plan.steps| && forall k :: 0 <= k < n ==> Proceeds(plan, w, k)
  {
    if n == 0 then []
    else
      assert Proceeds(plan, w, n - 1);
      DoneEvents(plan, w, n - 1) + StepEvents(plan, w, n - 1)
  }

  /** A whole run: everything before the stop went well, and the stop is the first step that did not. */
  ghost predicate IsRun(plan: InstallPlan, w: World, redetect: Result<Status, string>, stop: nat, events: seq<Event>, r: Result<Status, InstallError>) {
    && stop <= |plan.steps|
    && (forall k :: 0 <= k < stop ==> Proceeds(plan, w, k))
    && if stop == |plan.steps| then
         && events == DoneEvents(plan, w, stop)
         && r == if redetect.Success? then Success(redetect.value) else Failure(NotDetected(redetect.error))
       else
         && !Proceeds(plan, w, stop)
         && exists tail :: events == DoneEvents(plan, w, stop) + tail && StopsWith(plan, w, stop, tail, r)
  }

  /** One step: the command, then for a download the digest check before the step counts as finished. */
  method RunStep(plan: InstallPlan, w: World, k: nat) returns (events: seq<Event>, end: Option<Result<Status, InstallError>>)
    requires k < |plan.steps|
    ensures end.None? <==> Proceeds(plan, w, k)
    ensures end.None? ==> events == StepEvents(plan, w, k)
    ensures end.Some? ==> StopsWith(plan, w, k, events, end.value)
  {
    if w.cancelled(k) {
      return [], Some(Failure(CancelledBefore(k)));
    }
    match w.outcome(k) {
      case Broke(recheck) =>
        if recheck.Success? && recheck.value.Installed? {
          return [Started(k), TreatedAsInstalled(k)], Some(Success(recheck.value));
        }
        return [Started(k)], Some(Failure(CommandFailed(k)));
      case Ran(lines) =>
        events := [Started(k)] + Lines(k, lines);
        var gate := GateOf(plan, plan.steps[k]);
        if gate.Some? {
          var digest := w.digest(k);
          if digest.Failure? {
            return events, Some(Failure(Unreadable(k)));
          }
          if !SameIgnoringCase(digest.value, gate.value.digest) {
            return events, Some(Failure(ChecksumMismatch(k)));
          }
          events := events + [Verified(k)];
        }
        return events + [Finished(k)], None;
    }
  }

  /** Run the plan unless the tool is installed already; then nothing runs. */
  method RunInstall(plan: InstallPlan, w: World, preflight: Status, redetect: Result<Status, string>)
    returns (events: seq<Event>, r: Result<Status, InstallError>, ghost stop: nat)
    ensures preflight.Installed? ==> r == Success(preflight) && forall k :: Started(k) !in events
    ensures !preflight.Installed? ==> IsRun(plan, w, redetect, stop, events, r)
  {
    stop := 0;
    if preflight.Installed? {
      return [Line(0, "already installed")], Success(preflight), stop;
    }
    events := [];
    for k := 0 to |plan.steps|
      invariant forall i :: 0 <= i < k ==> Proceeds(plan, w, i)
      invariant events == DoneEvents(plan, w, k)
    {
      var more, end := RunStep(plan, w, k);
      if end.Some? {
        stop := k;
        return events + more, end.value, stop;
      }
      events := events + more;
    }
    stop := |plan.steps|;
    r := if redetect.Success? then Success(redetect.value) else Failure(NotDetected(redetect.error));
  }

  // ---- the gate ----

  lemma {:induction false} StartedInDone(plan: InstallPlan, w: World, n: nat, j: nat)
    requires n <= |plan.steps| && (forall k :: 0 <= k < n ==> Proceeds(plan, w, k))
    requires Started(j) in DoneEvents(plan, w, n)
    ensures j < n
  {
    if n > 0 {
      if Started(j) in DoneEvents(plan, w, n - 1) { StartedInDone(plan, w, n - 1, j); }
    }
  }

  /** A step starts only when every step before it went through. */
  lemma StartedAfterAll(plan: InstallPlan, w: World, redetect: Result<Status, string>, stop: nat, events: seq<Event>, r: Result<Status, InstallError>, j: nat)
    requires IsRun(plan, w, redetect, stop, events, r) && Started(j) in events
    ensures j <= stop && j < |plan.steps| && forall k :: 0 <= k < j ==> Proceeds(plan, w, k)
  {
    if stop == |plan.steps| || Started(j) in DoneEvents(plan, w, stop) {
      StartedInDone(plan, w, stop, j);
    } else {
      var tail :| events == DoneEvents(plan, w, stop) + tail && StopsWith(plan, w, stop, tail, r);
      assert Started(j) in tail;
    }
  }

  /**
   * The gate: in every run of a gated plan, no step after a download starts unless the download's output file
   * has a check and hashed to its pinned digest.
   */
  lemma NothingStartsBeforeItsDownloadsPass(
      plan: InstallPlan, w: World, redetect: Result<Status, string>, stop: nat, events: seq<Event>, r: Result<Status, InstallError>, d: nat, j: nat)
    requires Gated(plan) && IsRun(plan, w, redetect, stop, events, r)
    requires d < j && Started(j) in events && d < |plan.steps| && IsCurl(plan.steps[d].program)
    ensures exists file, check ::
              && OutputFile(plan.steps[d].args) == Some(file) && check in plan.verify && check.file == file
              && w.digest(d).Success? && SameIgnoringCase(w.digest(d).value, check.digest)
              && (NoCapitals(w.digest(d).value) && NoCapitals(check.digest) ==> w.digest(d) == Success(check.digest))
  {
    StartedAfterAll(plan, w, redetect, stop, events, r, j);
    assert Proceeds(plan, w, d);
    var file := OutputFile(plan.steps[d].args).value;
    var check := FindCheck(plan.verify, file).value;
    assert GateOf(plan, plan.steps[d]) == Some(check);
    if NoCapitals(w.digest(d).value) && NoCapitals(check.digest) { SameIgnoringCaseIff(w.digest(d).value, check.digest); }
  }

  /** A download of other contents than the pinned ones stops the run with a mismatch, and nothing is installed. */
  lemma OtherContentsAreRefused(
      plan: InstallPlan, w: World, redetect: Result<Status, string>, stop: nat, events: seq<Event>, r: Result<Status, InstallError>, d: nat, check: Check)
    requires IsRun(plan, w, redetect, stop, events, r) && d < |plan.steps| && GateOf(plan, plan.steps[d]) == Some(check)
    requires w.digest(d).Success? && NoCapitals(w.digest(d).value) && NoCapitals(check.digest) && w.digest(d).value != check.digest
    ensures stop <= d && forall j :: j > d ==> Started(j) !in events
    ensures stop == d && !w.cancelled(d) && w.outcome(d).Ran? ==> r == Failure(ChecksumMismatch(d))
  {
    SameIgnoringCaseIff(w.digest(d).value, check.digest);
    assert !Proceeds(plan, w, d);
    forall j | j > d ensures Started(j) !in events {
      if Started(j) in events { StartedAfterAll(plan, w, redetect, stop, events, r, j); }
    }
  }

  /**
   * Success hands on what a detection said: the last one, whatever it found, after every step went through, or the
   * one after a failed command, which found the tool installed.
   */
  lemma SuccessComesFromDetection(
      plan: InstallPlan, w: World, redetect: Result<Status, string>, stop: nat, events: seq<Event>, r: Result<Status, InstallError>)
    requires IsRun(plan, w, redetect, stop, events, r) && r.Success?
    ensures if stop == |plan.steps| then (forall k :: 0 <= k < |plan.steps| ==> Proceeds(plan, w, k)) && redetect == Success(r.value)
            else r.value.Installed? && !w.cancelled(stop) && w.outcome(stop) == Broke(Success(r.value))
  {
  }
}
