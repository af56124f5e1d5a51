// A recovery plan as its author writes it (internal/plan/plan.go), and what it
// would prove if every check passed (internal/plan/proof.go).
module Plans {
  import opened Core

  const DEFAULT_STARTUP_TIMEOUT := 300 * SECOND
  const DEFAULT_CHECK_TIMEOUT := 30 * SECOND
  const DEFAULT_RESTORE_TIMEOUT := 3600 * SECOND
  const DEFAULT_RETRY_INTERVAL := 5 * SECOND
  const DEFAULT_GUEST_POLL_EVERY := 3 * SECOND

  /** A decoded YAML value. Figure and Span are strings that can also be read
      as the number x, with or without a trailing percent sign, and as a
      duration. */
  datatype Yaml =
    | Null
    | Bool(b: bool)
    | Int(n: int)
    | Float(x: Num)
    | Str(s: string)
    | Figure(text: string, x: Num, percent: bool)
    | Span(text: string, nanos: int)
    | List(items: seq<Yaml>)
    | Dict(entries: map<string, Yaml>)

  datatype CheckSpec = CheckSpec(
    typ: string,
    name: string,
    timeout: int,
    retries: int,
    retryInterval: int,
    critical: Option<bool>,
    params: map<string, Yaml>,
    proves: string,
    capture: string,
    assertion: Option<AssertSpec>,
    drift: Option<DriftSpec>)
  {
    predicate IsCritical() { critical.None? || critical.value }

    function DisplayName(): string {
      if name != "" then name
      else if "port" in params then Upper(typ) + " " + Shown(params["port"])
      else Upper(typ)
    }

    /** A capture held to a stated bound has read the data itself. */
    predicate ProvesTheData() {
      capture != "" && assertion.Some? && assertion.value.Any()
    }

    /** What this check establishes when it passes. */
    function ProvenLevel(): ProofLevel {
      match ParseRecorded(proves)
      case Some(level) => level
      case None =>
        if ProvesTheData() then ProofData
        else if typ == "command" && IsLivenessCommand(params) then ProofBoot
        else if typ == "ping" then ProofBoot
        else ProofService
    }

    function ToCore(): CheckConfig {
      CheckConfig(typ, DisplayName(),
                  if timeout == 0 then DEFAULT_CHECK_TIMEOUT else timeout,
                  retries,
                  if retryInterval == 0 then DEFAULT_RETRY_INTERVAL else retryInterval,
                  IsCritical(), params, ProvenLevel(), capture, assertion, drift)
    }
  }

  /** The runtime form of a check (core.CheckConfig). */
  datatype CheckConfig = CheckConfig(
    typ: string,
    name: string,
    timeout: int,
    retries: int,
    retryInterval: int,
    critical: bool,
    params: map<string, Yaml>,
    proves: ProofLevel,
    capture: string,
    assertion: Option<AssertSpec>,
    drift: Option<DriftSpec>)

  datatype Strategy = NoStrategy | Latest | Specific | Unsupported(text: string)

  datatype BackupSpec = BackupSpec(strategy: Strategy, id: string, maxAge: int)

  datatype RestoreSpec = RestoreSpec(node: string, network: string, cpuLimit: int, memoryLimitMB: int, timeout: int)

  datatype StartupSpec = StartupSpec(
    skip: bool, timeout: int, waitForIP: Option<bool>, waitForAgent: Option<bool>, ip: string)
  {
    predicate WaitsForIP() { waitForIP == Some(true) }
    predicate WaitsForAgent() { waitForAgent == Some(true) }
  }

  datatype CleanupSpec = CleanupSpec(always: Option<bool>, keepOnFailure: bool) {
    predicate CleanupAlways() { always.None? || always.value }
  }

  datatype Plan = Plan(
    name: string,
    workloadProvider: string,
    workloadId: string,
    workloadName: string,
    backup: BackupSpec,
    restore: RestoreSpec,
    startup: StartupSpec,
    checks: seq<CheckSpec>,
    cleanup: CleanupSpec,
    rtoTarget: int)
  {
    /** The level this plan would establish if every check passed. */
    function ProvenLevel(): ProofLevel {
      if startup.skip || checks == [] then ProofNone else HighestLevel(checks)
    }
  }

  function HighestLevel(checks: seq<CheckSpec>): (level: ProofLevel)
    ensures level.Recorded()
    ensures forall c :: c in checks ==> c.ProvenLevel().Rank() <= level.Rank()
    ensures level == ProofNone || exists c :: c in checks && c.ProvenLevel() == level
  {
    if checks == [] then ProofNone
    else
      var last := checks[|checks| - 1];
      HighestLevel(checks[..|checks| - 1]).Raise(last.ProvenLevel())
  }

  /** The levels a `proves:` key may name, in any case. */
  function ParseRecorded(proves: string): Option<ProofLevel> {
    var p := Upper(proves);
    if p == "NONE" then Some(ProofNone)
    else if p == "BOOT" then Some(ProofBoot)
    else if p == "SERVICE" then Some(ProofService)
    else if p == "DATA" then Some(ProofData)
    else None
  }

  // ------------------------------------------------------------------ text

  function UpperChar(c: char): char {
    if 'a' <= c <= 'z' then (c as int - 32) as char else c
  }

  function LowerChar(c: char): char {
    if 'A' <= c <= 'Z' then (c as int + 32) as char else c
  }

  function Upper(s: string): (r: string)
    ensures |r| == |s|
  {
    seq(|s|, i requires 0 <= i < |s| => UpperChar(s[i]))
  }

  function Lower(s: string): (r: string)
    ensures |r| == |s|
  {
    seq(|s|, i requires 0 <= i < |s| => LowerChar(s[i]))
  }

  predicate IsSpace(c: char) { c == ' ' || c == '\t' || c == '\n' || c == '\r' || c == '\U{000B}' || c == '\U{000C}' }

  function TrimLeft(s: string): string {
    if s != "" && IsSpace(s[0]) then TrimLeft(s[1..]) else s
  }

  function TrimRight(s: string): string {
    if s != "" && IsSpace(s[|s| - 1]) then TrimRight(s[..|s| - 1]) else s
  }

  function TrimSpace(s: string): string { TrimRight(TrimLeft(s)) }

  function Decimal(n: nat): string
  {
    var digit := [(n % 10 + 48) as char];
    if n < 10 then digit else Decimal(n / 10) + digit
  }

  function Shown(v: Yaml): string {
    match v
    case Null => "<nil>"
    case Bool(b) => if b then "true" else "false"
    case Int(n) => if n < 0 then "-" + Decimal(-n) else Decimal(n)
    case Str(s) => s
    case Figure(text, _, _) => text
    case Span(text, _) => text
    case _ => "?"
  }

  /** Trimming takes the blanks off both ends and nothing else. */
  lemma {:induction false} TrimLeftMeans(s: string) returns (i: nat)
    ensures i <= |s| && TrimLeft(s) == s[i..] && (i < |s| ==> !Blank(s[i]))
    ensures forall k :: 0 <= k < i ==> Blank(s[k])
  {
    i := 0;
    if s != "" && Blank(s[0]) {
      var rest := s[1..];
      i := TrimLeftMeans(rest);
      assert forall k :: 1 <= k <= i ==> s[k] == rest[k - 1];
      i := i + 1;
    }
  }

  lemma {:induction false} TrimRightMeans(s: string) returns (j: nat)
    ensures j <= |s| && TrimRight(s) == s[..j] && (0 < j ==> !Blank(s[j - 1]))
    ensures forall k :: j <= k < |s| ==> Blank(s[k])
  {
    j := |s|;
    if s != "" && Blank(s[|s| - 1]) {
      var init := s[..|s| - 1];
      j := TrimRightMeans(init);
      assert forall k :: j <= k < |init| ==> s[k] == init[k];
    }
  }

  predicate Blank(c: char) { c in {' ', '\t', '\n', '\r', '\U{000B}', '\U{000C}'} }

  /** How a value that stands for a port is shown. */
  lemma ShownAs(n: nat, s: string)
    ensures Shown(Null) == "<nil>" && Shown(Bool(true)) == "true" && Shown(Bool(false)) == "false"
    ensures Shown(Int(n)) == Decimal(n) && (n > 0 ==> Shown(Int(-(n as int))) == "-" + Decimal(n))
    ensures Shown(Str(s)) == s
  {
  }

  predicate IsString(v: Yaml) { v.Str? || v.Figure? || v.Span? }

  function Text(v: Yaml): string
    requires IsString(v)
  {
    if v.Str? then v.s else v.text
  }

  // ------------------------------------------------- liveness commands

  const LIVENESS_COMMANDS := {"hostname", "uname", "whoami", "true", "echo", "ver"}

  predicate IsLivenessCommand(params: map<string, Yaml>) {
    match CommandLine(params)
    case None => false
    case Some(cmd) =>
      (forall c :: c in cmd ==> c !in {'&', '|', ';', '\n'})
      && FirstField(cmd) != ""
      && ProgramName(FirstField(cmd)) in LIVENESS_COMMANDS
  }

  /** The command line a check runs, from `run` or from `argv`. */
  function CommandLine(params: map<string, Yaml>): Option<string> {
    if "run" in params && IsString(params["run"]) then Some(Text(params["run"]))
    else if "argv" in params && params["argv"].List? && AllStrings(params["argv"].items) then
      Some(Join(params["argv"].items))
    else None
  }

  predicate AllStrings(items: seq<Yaml>) {
    forall v :: v in items ==> IsString(v)
  }

  function Join(items: seq<Yaml>): string
    requires AllStrings(items)
  {
    if items == [] then ""
    else if |items| == 1 then Text(items[0])
    else Text(items[0]) + " " + Join(items[1..])
  }

  function FirstField(s: string): string { UntilSpace(TrimLeft(s)) }

  function UntilSpace(s: string): string {
    if s == "" || IsSpace(s[0]) then "" else [s[0]] + UntilSpace(s[1..])
  }

  function AfterLastSlash(s: string): string {
    if s == "" then ""
    else if s[|s| - 1] == '/' || s[|s| - 1] == '\\' then ""
    else AfterLastSlash(s[..|s| - 1]) + [s[|s| - 1]]
  }

  function ProgramName(arg: string): string {
    var name := Lower(AfterLastSlash(arg));
    if |name| >= 4 && name[|name| - 4..] == ".exe" then name[..|name| - 4] else name
  }

  // ------------------------------------------------- criticality by name

  /** criticalMap: later entries win, and an unknown name reads as false. */
  function CriticalMap(checks: seq<CheckSpec>): map<string, bool> {
    if checks == [] then map[]
    else
      var last := checks[|checks| - 1];
      CriticalMap(checks[..|checks| - 1])[last.DisplayName() := last.IsCritical()]
  }

  predicate Critical(checks: seq<CheckSpec>, name: string) {
    var m := CriticalMap(checks);
    name in m && m[name]
  }

  predicate UniqueNames(checks: seq<CheckSpec>) {
    forall i, j :: 0 <= i < j < |checks| ==> checks[i].DisplayName() != checks[j].DisplayName()
  }

  /** With unique names, the map answers for each check with its own flag. */
  lemma {:induction false} CriticalMapIsByCheck(checks: seq<CheckSpec>, i: nat)
    requires UniqueNames(checks) && i < |checks|
    ensures Critical(checks, checks[i].DisplayName()) == checks[i].IsCritical()
  {
    var init := checks[..|checks| - 1];
    if i < |init| {
      assert UniqueNames(init);
      CriticalMapIsByCheck(init, i);
      assert checks[i].DisplayName() != checks[|checks| - 1].DisplayName();
    }
  }

  /** The empty `proves:` key, and every key that names no level, deduces. */
  lemma NoDeclarationDeduces()
    ensures ParseRecorded("") == None
  {
  }

  /** The last check that carries a name. */
  predicate LastNamed(checks: seq<CheckSpec>, name: string, i: int) {
    && 0 <= i < |checks| && checks[i].DisplayName() == name
    && forall j :: i < j < |checks| ==> checks[j].DisplayName() != name
  }

  /** Whatever the names, the last check of a name decides for it, and a name no
      check carries is not critical. */
  lemma {:induction false} CriticalMeans(checks: seq<CheckSpec>, name: string)
    ensures name in CriticalMap(checks) <==> exists i :: LastNamed(checks, name, i)
    ensures forall i :: LastNamed(checks, name, i) ==> (Critical(checks, name) <==> checks[i].critical != Some(false))
  {
    if checks != [] {
      var k := |checks| - 1;
      if checks[k].DisplayName() == name {
        assert LastNamed(checks, name, k);
      } else {
        CriticalMeans(checks[..k], name);
        forall i ensures LastNamed(checks, name, i) <==> LastNamed(checks[..k], name, i) {
        }
      }
    }
  }

  // ------------------------------------------------- what a level means

  /** A plan promises nothing when it does not start what it restores or checks
      nothing, and otherwise the most any of its checks would prove. */
  lemma PlanPromises(p: Plan)
    ensures p.startup.skip || p.checks == [] ==> p.ProvenLevel() == ProofNone
    ensures !p.startup.skip ==> forall c :: c in p.checks ==> c.ProvenLevel().Rank() <= p.ProvenLevel().Rank()
    ensures p.ProvenLevel() == ProofNone || exists c :: c in p.checks && c.ProvenLevel() == p.ProvenLevel()
  {
  }

  /** The ladder, bottom to top; an unknown level is not on it. */
  lemma LevelsClimb()
    ensures ProofNone.Rank() < ProofBoot.Rank() < ProofService.Rank() < ProofData.Rank()
    ensures !ProofUnknown.Recorded() && ProofUnknown.Rank() < ProofNone.Rank() && ProofNone.Recorded()
  {
  }

  /** A level is declared in any spelling, and by nothing else than its name. */
  lemma DeclaredInAnyCase(proves: string)
    ensures ParseRecorded(Lower(proves)) == ParseRecorded(proves) == ParseRecorded(Upper(proves))
    ensures ParseRecorded("none") == Some(ProofNone) && ParseRecorded("boot") == Some(ProofBoot)
    ensures ParseRecorded("service") == Some(ProofService) && ParseRecorded("data") == Some(ProofData)
    ensures ParseRecorded(proves).Some? ==> Lower(proves) in {"none", "boot", "service", "data"}
  {
    assert Upper(Lower(proves)) == Upper(proves) == Upper(Upper(proves));
    assert Upper("none") == "NONE" && Upper("boot") == "BOOT";
    assert Upper("service") == "SERVICE" && Upper("data") == "DATA";
    assert Lower("NONE") == "none" && Lower("BOOT") == "boot";
    assert Lower("SERVICE") == "service" && Lower("DATA") == "data";
    assert Lower(Upper(proves)) == Lower(proves);
  }

  /** Theorem: without a declaration a check proves the data exactly when it
      captures a number and a bound is stated on it; failing that, no more than
      the boot for a ping and for a command that only shows the guest is alive;
      and a service otherwise. A declared level is taken at its word. */
  lemma LevelDeduced(c: CheckSpec)
    ensures ParseRecorded(c.proves).Some? ==> Some(c.ProvenLevel()) == ParseRecorded(c.proves)
    ensures ParseRecorded(c.proves).None? ==>
              && (c.ProvenLevel() == ProofData <==>
                    && c.capture != "" && c.assertion.Some?
                    && (c.assertion.value.min.Some? || c.assertion.value.max.Some? || c.assertion.value.equals.Some?))
              && (c.ProvenLevel() == ProofBoot <==>
                    && c.ProvenLevel() != ProofData
                    && (c.typ == "ping" || (c.typ == "command" && IsLivenessCommand(c.params))))
              && c.ProvenLevel() in {ProofData, ProofService, ProofBoot}
  {
  }

  predicate Slash(c: char) { c == '/' || c == '\\' }

  /** A program's name as it stands in a command line: no blank, no directory. */
  predicate PlainName(name: string) {
    name != "" && forall c :: c in name ==> !IsSpace(c) && !Slash(c)
  }

  /** Nothing, or some directory, to its last separator. */
  predicate Directory(dir: string) {
    dir == "" || (Slash(dir[|dir| - 1]) && forall c :: c in dir ==> !IsSpace(c))
  }

  lemma {:induction false} LeadingBlanksGo(before: string, s: string)
    requires (forall c :: c in before ==> IsSpace(c)) && s != "" && !IsSpace(s[0])
    ensures TrimLeft(before + s) == s
  {
    if before == "" {
      assert before + s == s;
    } else {
      assert (before + s)[1..] == before[1..] + s;
      LeadingBlanksGo(before[1..], s);
    }
  }

  lemma {:induction false} FieldEnds(word: string, rest: string)
    requires (forall c :: c in word ==> !IsSpace(c)) && (rest == "" || IsSpace(rest[0]))
    ensures UntilSpace(word + rest) == word
  {
    if word == "" {
      assert word + rest == rest;
    } else {
      assert (word + rest)[1..] == word[1..] + rest;
      FieldEnds(word[1..], rest);
      assert [word[0]] + word[1..] == word;
    }
  }

  lemma {:induction false} DirectoryGoes(dir: string, name: string)
    requires (dir == "" || Slash(dir[|dir| - 1])) && forall c :: c in name ==> !Slash(c)
    ensures AfterLastSlash(dir + name) == name
  {
    if name == "" {
      assert dir + name == dir;
    } else {
      var k := |name| - 1;
      var all := dir + name;
      assert all[|all| - 1] == name[k] && name[k] in name && all[..|all| - 1] == dir + name[..k];
      DirectoryGoes(dir, name[..k]);
      assert name[..k] + [name[k]] == name;
    }
  }

  lemma FirstFieldIs(before: string, word: string, rest: string)
    requires (forall c :: c in before ==> IsSpace(c)) && word != "" && (forall c :: c in word ==> !IsSpace(c))
    requires rest == "" || IsSpace(rest[0])
    ensures FirstField(before + (word + rest)) == word
  {
    assert word[0] in word && (word + rest)[0] == word[0];
    LeadingBlanksGo(before, word + rest);
    FieldEnds(word, rest);
  }

  /** Theorem: a command line, whatever blanks it begins with, whatever the
      directory of its program and whatever its arguments, only shows that the
      guest is alive exactly when it chains nothing and the program is one of
      these six, in any case and with or without its extension. */
  lemma LivenessMeans(params: map<string, Yaml>, before: string, dir: string, name: string, rest: string)
    requires CommandLine(params) == Some(before + (dir + name + rest))
    requires (forall c :: c in before ==> IsSpace(c)) && Directory(dir) && PlainName(name)
    requires rest == "" || IsSpace(rest[0])
    ensures IsLivenessCommand(params) <==>
              && (forall c :: c in before + (dir + name + rest) ==> c != '&' && c != '|' && c != ';' && c != '\n')
              && Program(name) in {"hostname", "uname", "whoami", "true", "echo", "ver"}
  {
    var line := before + (dir + name + rest);
    FirstFieldIs(before, dir + name, rest);
    DirectoryGoes(dir, name);
    Alive(params, line, dir + name);
    assert ProgramName(dir + name) == Program(name);
  }

  lemma Alive(params: map<string, Yaml>, line: string, word: string)
    requires CommandLine(params) == Some(line) && FirstField(line) == word != ""
    ensures IsLivenessCommand(params) <==>
              && (forall c :: c in line ==> c != '&' && c != '|' && c != ';' && c != '\n')
              && ProgramName(word) in {"hostname", "uname", "whoami", "true", "echo", "ver"}
  {
  }

  /** In lower case, and without `.exe` behind it. */
  function Program(name: string): string {
    var lower := Lower(name);
    if |lower| >= 4 && lower[|lower| - 4..] == ".exe" then lower[..|lower| - 4] else lower
  }

  /** The line is what `run` says, and otherwise the words of `argv`. */
  lemma CommandLineMeans(params: map<string, Yaml>, s: string)
    ensures "run" in params && params["run"] == Str(s) ==> CommandLine(params) == Some(s)
    ensures "run" !in params && "argv" in params && params["argv"] == List([Str(s)]) ==> CommandLine(params) == Some(s)
    ensures "run" !in params && "argv" !in params ==> CommandLine(params) == None
  {
  }

  /** Words are joined by single blanks. */
  lemma JoinMeans(items: seq<Yaml>, s: string)
    requires AllStrings(items) && items != []
    ensures Join(items + [Str(s)]) == Join(items) + " " + s
  {
    if |items| == 1 {
      assert (items + [Str(s)])[1..] == [Str(s)];
    } else {
      assert (items + [Str(s)])[1..] == items[1..] + [Str(s)];
      JoinMeans(items[1..], s);
    }
  }

  // ------------------------------------------------- names and the runtime form

  /** The number a string of digits stands for. */
  function ValueOf(digits: string): int {
    if digits == "" then 0
    else ValueOf(digits[..|digits| - 1]) * 10 + (digits[|digits| - 1] as int - 48)
  }

  lemma {:induction false} DecimalReadsBack(n: nat)
    ensures ValueOf(Decimal(n)) == n && Decimal(n) != ""
    ensures forall c :: c in Decimal(n) ==> '0' <= c <= '9'
  {
    var digit := [(n % 10 + 48) as char];
    if n < 10 {
      assert digit[..0] == "";
    } else {
      DecimalReadsBack(n / 10);
      assert (Decimal(n / 10) + digit)[..|Decimal(n / 10)|] == Decimal(n / 10);
    }
  }

  /** A check is known by its name, or else by its type and the port it is
      aimed at. */
  lemma NamedByTypeAndPort(c: CheckSpec, port: nat)
    ensures c.name != "" ==> c.DisplayName() == c.name
    ensures c.name == "" && "port" !in c.params ==> c.DisplayName() == Upper(c.typ)
    ensures c.name == "" && "port" in c.params && c.params["port"] == Int(port) ==>
              c.DisplayName() == Upper(c.typ) + " " + Decimal(port)
  {
  }

  /** Upper case and lower case are each other's, letter by letter, and leave
      everything that is not a letter alone. */
  lemma CasesAgree(s: string, i: nat)
    requires i < |s|
    ensures 'a' <= s[i] <= 'z' ==> Upper(s)[i] as int == s[i] as int - 32
    ensures 'A' <= s[i] <= 'Z' ==> Lower(s)[i] as int == s[i] as int + 32
    ensures !('a' <= s[i] <= 'z') ==> Upper(s)[i] == s[i]
    ensures !('A' <= s[i] <= 'Z') ==> Lower(s)[i] == s[i]
  {
  }

  /** What a check is run with: its own values, half a minute when it states no
      time-out and five seconds when it states no interval, and critical unless
      it says it is not. */
  lemma RunsWith(c: CheckSpec)
    ensures var r := c.ToCore();
      && r.typ == c.typ && r.name == c.DisplayName() && r.retries == c.retries && r.params == c.params
      && r.capture == c.capture && r.assertion == c.assertion && r.drift == c.drift && r.proves == c.ProvenLevel()
      && r.timeout == (if c.timeout != 0 then c.timeout else 30_000_000_000)
      && r.retryInterval == (if c.retryInterval != 0 then c.retryInterval else 5_000_000_000)
      && (r.critical <==> c.critical != Some(false))
  {
  }
}
