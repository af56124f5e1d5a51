// How a configured check is run to completion (internal/checks/registry.go),
// and how a command check turns what a guest printed into a measured number
// and a verdict (internal/checks/command.go).
module Checks {
  import opened Core
  import opened Plans
  import opened Proofs
  import opened Values

  // ------------------------------------------------ reading the number

  datatype Captured = Number(x: real) | NothingPrinted | SeveralLines(n: nat) | NotANumber | NotFiniteNumber

  /** strings.Split(s, "\n"). */
  function Split(s: string): (lines: seq<string>)
    ensures lines != []
  {
    if s == "" then [""]
    else
      var rest := Split(s[1..]);
      if s[0] == '\n' then [""] + rest else [[s[0]] + rest[0]] + rest[1..]
  }

  /** What each line leaves, in order. */
  function Gather(lines: seq<string>, keep: string -> seq<string>): seq<string> {
    if lines == [] then [] else Gather(lines[..|lines| - 1], keep) + keep(lines[|lines| - 1])
  }

  function Kept(line: string): seq<string> {
    if TrimSpace(line) != "" then [TrimSpace(line)] else []
  }

  /** The lines that hold anything, without the padding around them. */
  function Printed(lines: seq<string>): seq<string> { Gather(lines, Kept) }

  function Reading(printed: seq<string>, parse: string -> Option<Num>): Captured {
    if |printed| == 0 then NothingPrinted
    else if |printed| > 1 then SeveralLines(|printed|)
    else match parse(printed[0])
      case None => NotANumber
      case Some(Finite(x)) => Number(x)
      case Some(_) => NotFiniteNumber
  }

  /** `parse` stands for strconv.ParseFloat. */
  method ParseCaptured(stdout: string, parse: string -> Option<Num>) returns (value: Captured)
    ensures value == Reading(Printed(Split(stdout)), parse)
  {
    var all := Split(stdout);
    var lines: seq<string> := [];
    for i := 0 to |all|
      invariant lines == Printed(all[..i])
    {
      assert all[..i + 1][..i] == all[..i];
      var line := TrimSpace(all[i]);
      if line != "" {
        lines := lines + [line];
      }
    }
    assert all[..|all|] == all;
    if |lines| == 0 {
      return NothingPrinted;
    }
    if |lines| > 1 {
      return SeveralLines(|lines|);
    }
    var read := parse(lines[0]);
    if read.None? {
      return NotANumber;
    }
    value := if read.value.Finite? then Number(read.value.v) else NotFiniteNumber;
  }

  lemma {:induction false} GatherFromTheFront(lines: seq<string>, keep: string -> seq<string>)
    requires lines != []
    ensures Gather(lines, keep) == keep(lines[0]) + Gather(lines[1..], keep)
  {
    if |lines| == 1 {
      assert lines[..0] == [] && lines[1..] == [];
    } else {
      MiddleTaken(lines);
      GatherFromTheFront(lines[..|lines| - 1], keep);
      Regrouped(keep(lines[0]), Gather(lines[1..][..|lines| - 2], keep), keep(lines[|lines| - 1]));
    }
  }

  lemma PrintedFromTheFront(lines: seq<string>)
    requires lines != []
    ensures Printed(lines) == Kept(lines[0]) + Printed(lines[1..])
  {
    GatherFromTheFront(lines, Kept);
  }

  /** Blank space in front of what was printed changes nothing. */
  lemma SpaceBefore(c: char, s: string)
    requires IsSpace(c)
    ensures Printed(Split([c] + s)) == Printed(Split(s))
  {
    assert ([c] + s)[1..] == s;
    var rest := Split(s);
    PrintedFromTheFront(rest);
    PrintedFromTheFront(Split([c] + s));
    if c == '\n' {
      assert ([""] + rest)[1..] == rest;
    } else {
      assert ([c] + rest[0])[1..] == rest[0];
      assert TrimSpace([c] + rest[0]) == TrimSpace(rest[0]);
      assert Split([c] + s)[1..] == rest[1..];
    }
  }

  lemma {:induction false} TrimLeftThenSpace(s: string, c: char)
    requires IsSpace(c)
    ensures TrimLeft(s + [c]) == if TrimLeft(s) == "" then "" else TrimLeft(s) + [c]
  {
    if s == "" {
      assert "" + [c] == [c] && [c][1..] == "";
    } else {
      assert (s + [c])[1..] == s[1..] + [c];
      TrimLeftThenSpace(s[1..], c);
    }
  }

  lemma TrimIgnoresSpaceAfter(s: string, c: char)
    requires IsSpace(c)
    ensures TrimSpace(s + [c]) == TrimSpace(s)
  {
    TrimLeftThenSpace(s, c);
    var t := TrimLeft(s);
    assert (t + [c])[..|t|] == t;
  }

  /** A character behind the text opens a line or lengthens the last one. */
  function Lengthened(lines: seq<string>, c: char): seq<string>
    requires lines != []
  {
    var k := |lines| - 1;
    if c == '\n' then lines + [""] else lines[..k] + [lines[k] + [c]]
  }

  lemma {:induction false} SplitAppend(s: string, c: char)
    ensures Split(s + [c]) == Lengthened(Split(s), c)
  {
    if s == "" {
      assert s + [c] == [c] && [c][1..] == "" && Split("") == [""];
      assert "" + [c] == [c] + "" == [c];
    } else {
      assert (s + [c])[1..] == s[1..] + [c];
      SplitAppend(s[1..], c);
      PrependFirst(s[0], Split(s[1..]), c);
    }
  }

  lemma PrependFirst(d: char, rest: seq<string>, c: char)
    requires rest != []
    ensures [""] + Lengthened(rest, c) == Lengthened([""] + rest, c)
    ensures var more := Lengthened(rest, c);
      [[d] + more[0]] + more[1..] == Lengthened([[d] + rest[0]] + rest[1..], c)
  {
    var k := |rest| - 1;
    if c != '\n' && k == 0 {
      assert [d] + (rest[0] + [c]) == [d] + rest[0] + [c];
    }
  }

  /** Nor does blank space behind it. */
  lemma SpaceAfter(s: string, c: char)
    requires IsSpace(c)
    ensures Printed(Split(s + [c])) == Printed(Split(s))
  {
    SplitAppend(s, c);
    var lines, k := Split(s), |Split(s)| - 1;
    if c == '\n' {
      assert (lines + [""])[..|lines|] == lines;
    } else {
      TrimIgnoresSpaceAfter(lines[k], c);
      assert Lengthened(lines, c)[..k] == lines[..k];
    }
  }

  predicate Blank(s: string) { forall c :: c in s ==> IsSpace(c) }

  /** Theorem: padding, blank lines and carriage returns around what a command
      printed are noise; what is read is the same without them. */
  lemma {:induction false} NoiseIsIgnored(before: string, text: string, after: string, parse: string -> Option<Num>)
    requires Blank(before) && Blank(after)
    ensures Reading(Printed(Split(before + text + after)), parse) == Reading(Printed(Split(text)), parse)
    decreases |before| + |after|
  {
    if before != "" {
      assert before + text + after == [before[0]] + (before[1..] + text + after);
      SpaceBefore(before[0], before[1..] + text + after);
      NoiseIsIgnored(before[1..], text, after, parse);
    } else if after != "" {
      var k := |after| - 1;
      assert before + text + after == before + text + after[..k] + [after[k]];
      SpaceAfter(before + text + after[..k], after[k]);
      NoiseIsIgnored(before, text, after[..k], parse);
    } else {
      assert before + text + after == text;
    }
  }

  /** The lines of a text, put together again. */
  function Lines(lines: seq<string>): string
    requires lines != []
  {
    if |lines| == 1 then lines[0] else lines[0] + "\n" + Lines(lines[1..])
  }

  lemma {:induction false} SplitMeans(s: string)
    ensures Lines(Split(s)) == s
    ensures forall i :: 0 <= i < |Split(s)| ==> '\n' !in Split(s)[i]
  {
    if s != "" {
      SplitMeans(s[1..]);
      var rest := Split(s[1..]);
      if s[0] == '\n' {
        assert ([""] + rest)[1..] == rest;
        assert "" + "\n" + s[1..] == s;
      } else {
        FirstLengthened(s[0], rest);
        assert [s[0]] + s[1..] == s;
      }
    }
  }

  lemma FirstLengthened(c: char, rest: seq<string>)
    requires rest != []
    ensures Lines([[c] + rest[0]] + rest[1..]) == [c] + Lines(rest)
  {
    var all := [[c] + rest[0]] + rest[1..];
    assert all[0] == [c] + rest[0] && all[1..] == rest[1..];
    if |rest| > 1 {
      Regrouped([c], rest[0], "\n");
      Regrouped([c], rest[0] + "\n", Lines(rest[1..]));
    }
  }

  /** Where something is printed. */
  function PrintedAt(lines: seq<string>): set<int> {
    set i | 0 <= i < |lines| && TrimSpace(lines[i]) != ""
  }

  lemma PrintedAtTheEnd(lines: seq<string>, k: nat)
    requires k == |lines| - 1
    ensures PrintedAt(lines) == PrintedAt(lines[..k]) + if TrimSpace(lines[k]) != "" then {k} else {}
    ensures k !in PrintedAt(lines[..k])
  {
  }

  lemma {:induction false} AsManyArePrinted(lines: seq<string>)
    ensures |Printed(lines)| == |PrintedAt(lines)|
  {
    if lines == [] {
      assert PrintedAt(lines) == {};
    } else {
      var k := |lines| - 1;
      AsManyArePrinted(lines[..k]);
      PrintedAtTheEnd(lines, k);
    }
  }

  lemma {:induction false} PrintedAreThose(lines: seq<string>, i: int)
    ensures |Printed(lines)| == |PrintedAt(lines)|
    ensures PrintedAt(lines) == {i} ==> Printed(lines) == [TrimSpace(lines[i])]
  {
    AsManyArePrinted(lines);
    if lines != [] && PrintedAt(lines) == {i} {
      var k := |lines| - 1;
      PrintedAreThose(lines[..k], i);
      OnlyLine(lines, k, i);
    }
  }

  lemma OnlyLine(lines: seq<string>, k: int, i: int)
    requires k == |lines| - 1 >= 0 && PrintedAt(lines) == {i}
    requires |Printed(lines[..k])| == |PrintedAt(lines[..k])|
    requires PrintedAt(lines[..k]) == {i} ==> Printed(lines[..k]) == [TrimSpace(lines[..k][i])]
    ensures i in PrintedAt(lines) && Printed(lines) == [TrimSpace(lines[i])]
  {
    assert i in PrintedAt(lines);
    if i == k {
      forall j | j in PrintedAt(lines[..k]) ensures j in PrintedAt(lines) {
        assert lines[..k][j] == lines[j];
      }
      assert k !in PrintedAt(lines[..k]) && PrintedAt(lines[..k]) == {};
    } else {
      assert i in PrintedAt(lines[..k]) && PrintedAt(lines[..k]) <= {i};
      assert k !in PrintedAt(lines);
    }
  }

  /** Theorem: nothing is read when no line holds anything, and several values
      when more than one does. */
  lemma ReadingCounts(stdout: string, parse: string -> Option<Num>)
    ensures var lines, r := Split(stdout), Reading(Printed(Split(stdout)), parse);
      && (r == NothingPrinted <==> PrintedAt(lines) == {})
      && (r.SeveralLines? <==> |PrintedAt(lines)| > 1)
      && (r.SeveralLines? ==> r.n == |PrintedAt(lines)|)
  {
    PrintedAreThose(Split(stdout), 0);
  }

  /** Theorem: when one line holds anything, what it holds, without the padding,
      is read as the finite number it is, or else reported as no number, or as
      none that is finite. */
  lemma OneLineIsRead(stdout: string, parse: string -> Option<Num>, i: int, x: real)
    requires PrintedAt(Split(stdout)) == {i}
    ensures i in PrintedAt(Split(stdout))
    ensures var text, r := TrimSpace(Split(stdout)[i]), Reading(Printed(Split(stdout)), parse);
      && (r == Number(x) <==> parse(text) == Some(Finite(x)))
      && (r == NotANumber <==> parse(text) == None)
      && (r == NotFiniteNumber <==> parse(text) in {Some(NaN), Some(PosInf), Some(NegInf)})
  {
    PrintedAreThose(Split(stdout), i);
    assert i in PrintedAt(Split(stdout));
  }

  // ------------------------------------------------ one command

  /** What the command promised about itself (expect_exit_code, expect,
      stdout_contains, stdout_matches), decoded from its parameters. */
  datatype Contract = Contract(
    exitCode: int, wants: Option<string>, contains: Option<string>, matches: Option<Regex>)

  /** A pattern, as the answer its compilation and matching would give. */
  datatype Regex = Invalid | Pattern(accepts: string -> bool)

  datatype History = NoReader | Unreadable | Readings(values: seq<Num>)

  /** What one attempt meets: a check that never ran its command, or the
      command's exit code and output and the history it could read. */
  datatype Execution = NotRun | Ran(contract: Contract, exitCode: int, stdout: string, history: History)

  predicate Contains(s: string, part: string) {
    (|part| <= |s| && s[..|part|] == part) || (s != "" && Contains(s[1..], part))
  }

  predicate StandsAt(s: string, part: string, i: int) {
    0 <= i <= |s| - |part| && s[i..i + |part|] == part
  }

  lemma {:induction false} FoundStands(s: string, part: string) returns (i: nat)
    requires Contains(s, part)
    ensures StandsAt(s, part, i)
  {
    i := 0;
    if !(|part| <= |s| && s[..|part|] == part) {
      var k := FoundStands(s[1..], part);
      assert s[k + 1..k + 1 + |part|] == s[1..][k..k + |part|];
      i := k + 1;
    }
  }

  lemma {:induction false} StandingIsFound(s: string, part: string, i: nat)
    requires StandsAt(s, part, i)
    ensures Contains(s, part)
  {
    if i > 0 {
      assert s[1..][i - 1..i - 1 + |part|] == s[i..i + |part|];
      StandingIsFound(s[1..], part, i - 1);
    }
  }

  /** The part stands somewhere in the text. */
  lemma ContainsMeans(s: string, part: string)
    ensures Contains(s, part) <==> exists i :: StandsAt(s, part, i)
  {
    if Contains(s, part) {
      var i := FoundStands(s, part);
    }
    if i :| StandsAt(s, part, i) {
      StandingIsFound(s, part, i);
    }
  }

  /** Every promise before the regular expression held. */
  predicate PlainContractHeld(c: Contract, exitCode: int, stdout: string) {
    && exitCode == c.exitCode
    && (c.wants.Some? ==> TrimSpace(stdout) == c.wants.value)
    && (c.contains.Some? ==> Contains(stdout, c.contains.value))
  }

  predicate ContractHeld(c: Contract, exitCode: int, stdout: string) {
    && PlainContractHeld(c, exitCode, stdout)
    && (c.matches.Some? ==> c.matches.value.Pattern? && c.matches.value.accepts(stdout))
  }

  function BaselineOf(h: History): Option<real> {
    if h.Readings? then Median(h.values) else None
  }

  /** The number is within every bound that could be judged. */
  predicate WithinBounds(x: real, cfg: CheckConfig, history: History) {
    && (cfg.assertion.Some? ==> Meets(x, cfg.assertion.value))
    && (cfg.drift.Some? && BaselineOf(history).Some? ==>
          CheckDrift(Finite(x), Finite(BaselineOf(history).value), cfg.drift.value) == Within)
  }

  function ReadBy(cfg: CheckConfig, e: Execution, parse: string -> Option<Num>): Captured {
    if e.Ran? && cfg.capture != "" && ContractHeld(e.contract, e.exitCode, e.stdout)
    then Reading(Printed(Split(e.stdout)), parse) else NothingPrinted
  }

  /** Everything the plan and the command promised. */
  predicate Passes(cfg: CheckConfig, e: Execution, parse: string -> Option<Num>) {
    && e.Ran? && ContractHeld(e.contract, e.exitCode, e.stdout)
    && (cfg.capture != "" ==>
          ReadBy(cfg, e, parse).Number? && WithinBounds(ReadBy(cfg, e, parse).x, cfg, e.history))
  }

  /** Could not be judged at all, as opposed to judged and found wanting. */
  predicate NotJudged(e: Execution) {
    || e.NotRun?
    || (PlainContractHeld(e.contract, e.exitCode, e.stdout) && e.contract.matches == Some(Invalid))
  }

  /** Theorem: a command check passes exactly when the command ran, left the exit
      code it promised, printed what it promised, and, when it captures, printed
      one number that is within the declared bounds and no further from what
      earlier drills measured than tolerated. */
  lemma PassesMeans(cfg: CheckConfig, e: Execution, parse: string -> Option<Num>)
    ensures Passes(cfg, e, parse) <==>
              && e.Ran? && e.exitCode == e.contract.exitCode
              && (forall w :: e.contract.wants == Some(w) ==> TrimSpace(e.stdout) == w)
              && (forall w :: e.contract.contains == Some(w) ==> Contains(e.stdout, w))
              && (forall w :: e.contract.matches == Some(w) ==> w.Pattern? && w.accepts(e.stdout))
              && (cfg.capture != "" ==>
                    exists x ::
                      && Reading(Printed(Split(e.stdout)), parse) == Number(x)
                      && (cfg.assertion.Some? ==> CheckAssert(Finite(x), cfg.assertion.value) == Holds)
                      && (cfg.drift.Some? && e.history.Readings? && Median(e.history.values).Some? ==>
                            CheckDrift(Finite(x), Finite(Median(e.history.values).value), cfg.drift.value) == Within))
  {
    if Passes(cfg, e, parse) && cfg.capture != "" {
      var x := ReadBy(cfg, e, parse).x;
      assert Reading(Printed(Split(e.stdout)), parse) == Number(x);
      if cfg.assertion.Some? { AssertHoldsExactly(Finite(x), cfg.assertion.value); }
    }
    if x :| Reading(Printed(Split(if e.Ran? then e.stdout else "")), parse) == Number(x) {
      if cfg.assertion.Some? { AssertHoldsExactly(Finite(x), cfg.assertion.value); }
    }
  }

  /** A command check is an error exactly when the command never ran, or when
      its pattern does not compile and every promise before it held. */
  lemma NotJudgedMeans(e: Execution)
    ensures NotJudged(e) <==>
              || e == NotRun
              || (&& e.contract.matches == Some(Invalid) && e.exitCode == e.contract.exitCode
                  && (forall w :: e.contract.wants == Some(w) ==> TrimSpace(e.stdout) == w)
                  && (forall w :: e.contract.contains == Some(w) ==> Contains(e.stdout, w)))
  {
  }

  predicate MeetsAssert(x: real, cfg: CheckConfig) {
    cfg.assertion.Some? ==> Meets(x, cfg.assertion.value)
  }

  method ReadBaseline(h: History) returns (baseline: Option<real>)
    ensures baseline == BaselineOf(h)
  {
    if !h.Readings? {
      return None;
    }
    var values := new Num[|h.values|](i requires 0 <= i < |h.values| => h.values[i]);
    assert values[..] == h.values;
    baseline := Baseline(values);
  }

  function Blankly(status: CheckStatus): CheckResult {
    CheckResult("", "", status, 0, map[], map[], false)
  }

  /** evaluateCapture: the reading is recorded before any bound is judged, and
      the absolute bound is judged before the relative one. */
  method EvaluateCapture(cfg: CheckConfig, stdout: string, history: History, parse: string -> Option<Num>)
    returns (r: CheckResult)
    requires cfg.capture != ""
    ensures r.name == "" && r.typ == "" && r.attempts == 0
    ensures var m := Reading(Printed(Split(stdout)), parse);
      && r.status == (if m.Number? && WithinBounds(m.x, cfg, history) then CheckPass else CheckFail)
      && r.captured == (if m.Number? then map[cfg.capture := Finite(m.x)] else map[])
      && r.driftSkipped == (m.Number? && MeetsAssert(m.x, cfg) && cfg.drift.Some? && BaselineOf(history).None?)
      && r.baseline == (if m.Number? && MeetsAssert(m.x, cfg) && cfg.drift.Some? && BaselineOf(history).Some?
                        then map[cfg.capture := Finite(BaselineOf(history).value)] else map[])
  {
    var m := ParseCaptured(stdout, parse);
    if !m.Number? {
      return Blankly(CheckFail);
    }
    var value := Finite(m.x);
    r := Blankly(CheckPass).(captured := map[cfg.capture := value]);
    if cfg.assertion.Some? {
      AssertHoldsExactly(value, cfg.assertion.value);
      if CheckAssert(value, cfg.assertion.value) != Holds {
        return r.(status := CheckFail);
      }
    }
    if cfg.drift.None? {
      return r;
    }
    var baseline := ReadBaseline(history);
    if baseline.None? {
      return r.(driftSkipped := true);
    }
    r := r.(baseline := map[cfg.capture := Finite(baseline.value)]);
    if CheckDrift(value, Finite(baseline.value), cfg.drift.value) != Within {
      r := r.(status := CheckFail);
    }
  }

  /** CommandCheck.Run, from the exit code on. */
  method RunCommand(cfg: CheckConfig, e: Execution, parse: string -> Option<Num>) returns (r: CheckResult)
    ensures r.status == CheckPass <==> Passes(cfg, e, parse)
    ensures r.status == CheckError <==> NotJudged(e)
    ensures r.status != CheckSkipped && r.name == "" && r.typ == "" && r.attempts == 0
    ensures var m := ReadBy(cfg, e, parse);
      r.captured == if m.Number? then map[cfg.capture := Finite(m.x)] else map[]
    ensures r.driftSkipped ==> r.OK() && cfg.drift.Some? && BaselineOf(e.history).None?
    ensures r.OK() && cfg.capture != "" && cfg.drift.Some? ==> (r.driftSkipped <==> BaselineOf(e.history).None?)
  {
    if e.NotRun? {
      return Blankly(CheckError);
    }
    var c := e.contract;
    if e.exitCode != c.exitCode {
      return Blankly(CheckFail);
    }
    if c.wants.Some? && TrimSpace(e.stdout) != c.wants.value {
      return Blankly(CheckFail);
    }
    if c.contains.Some? && !Contains(e.stdout, c.contains.value) {
      return Blankly(CheckFail);
    }
    if c.matches.Some? {
      if c.matches.value.Invalid? {
        return Blankly(CheckError);
      }
      if !c.matches.value.accepts(e.stdout) {
        return Blankly(CheckFail);
      }
    }
    if cfg.capture == "" {
      return Blankly(CheckPass);
    }
    r := EvaluateCapture(cfg, e.stdout, e.history, parse);
  }

  // ------------------------------------------------ the registry

  /** One attempt as the outside world answers it. `other` is what a check that
      is not a command reports; the two flags say that the run was cancelled
      before the attempt, or while waiting for the next one. */
  datatype Attempt = Attempt(
    cancelledBefore: bool, panics: bool, execution: Execution, other: CheckResult, cancelledAfter: bool)

  function NameOf(cfg: CheckConfig): string { FirstNonEmpty(cfg.name, cfg.typ) }

  /** The name a result is stored under is the one the plan judges it by. */
  lemma NameOfPlannedCheck(c: CheckSpec)
    ensures NameOf(c.ToCore()) == c.DisplayName()
  {
  }

  predicate UnreadCapture(r: CheckResult, cfg: CheckConfig) {
    cfg.capture != "" && r.OK() && cfg.capture !in r.captured
  }

  /** What a passing result vouches for: the captured number was read, and for
      a command it is a number that meets every declared bound. */
  predicate Truthful(cfg: CheckConfig, r: CheckResult) {
    && r.name == NameOf(cfg) && r.typ == cfg.typ
    && (r.OK() && cfg.capture != "" ==> cfg.capture in r.captured)
    && (r.OK() && cfg.capture != "" && cfg.typ == "command" ==>
          r.captured[cfg.capture].Finite? && MeetsAssert(r.captured[cfg.capture].v, cfg))
  }

  /** What an attempt may report: the command's verdict and the number it
      captured, or whatever a check of another type says. */
  predicate Reports(cfg: CheckConfig, a: Attempt, parse: string -> Option<Num>, r: CheckResult) {
    if a.panics then r == Blankly(CheckError)
    else if cfg.typ != "command" then r == a.other
    else
      var m := ReadBy(cfg, a.execution, parse);
      && (r.status == CheckPass <==> Passes(cfg, a.execution, parse))
      && (r.status == CheckError <==> NotJudged(a.execution))
      && r.status != CheckSkipped
      && r.captured == if m.Number? then map[cfg.capture := Finite(m.x)] else map[]
  }

  function Signed(cfg: CheckConfig, r: CheckResult, attempts: nat): CheckResult {
    r.(name := NameOf(cfg), typ := cfg.typ, attempts := attempts)
  }

  /** How a check that is known was answered: by which attempts, each of them
      made before any cancellation, until one passed or as many were made as its
      retries allow, and one at least; and what that left as its result. */
  ghost predicate Answered(
    cfg: CheckConfig, script: nat -> Attempt, parse: string -> Option<Num>, from: nat,
    tries: seq<CheckResult>, r: CheckResult, cancelled: bool)
  {
    && (forall k :: 0 <= k < |tries| ==> Made(cfg, script(from + k), parse, tries[k], k < |tries| - 1))
    && |tries| <= (if cfg.retries < 0 then 1 else cfg.retries + 1)
    && r.name == (if cfg.name != "" then cfg.name else cfg.typ) && r.typ == cfg.typ
    && (!cancelled ==> Finished(cfg, tries))
    && (if Finished(cfg, tries) then Rounded(cfg, tries[|tries| - 1], |tries|, r)
        else r == Signed(cfg, Blankly(CheckError), r.attempts) && |tries| <= r.attempts <= |tries| + 1)
  }

  /** An attempt that was made, and whether another one followed it. */
  predicate Made(cfg: CheckConfig, a: Attempt, parse: string -> Option<Num>, r: CheckResult, followed: bool) {
    && Reports(cfg, a, parse, r) && !a.cancelledBefore
    && (followed ==> r.status != CheckPass && (cfg.retryInterval > 0 ==> !a.cancelledAfter))
  }

  predicate Finished(cfg: CheckConfig, tries: seq<CheckResult>) {
    tries != []
    && (tries[|tries| - 1].status == CheckPass || |tries| == if cfg.retries < 0 then 1 else cfg.retries + 1)
  }

  /** The last attempt is the result; a pass that did not read what the plan
      captures is a failure. */
  predicate Rounded(cfg: CheckConfig, last: CheckResult, attempts: nat, r: CheckResult) {
    && r.attempts == attempts && r.captured == last.captured && r.baseline == last.baseline
    && r.driftSkipped == last.driftSkipped
    && r.status == if last.status == CheckPass && cfg.capture != "" && cfg.capture !in last.captured
                   then CheckFail else last.status
  }

  lemma ReportsAreTruthful(
      cfg: CheckConfig, a: Attempt, parse: string -> Option<Num>, r: CheckResult, attempts: nat)
    requires Reports(cfg, a, parse, r)
    ensures !UnreadCapture(Signed(cfg, r, attempts), cfg) ==> Truthful(cfg, Signed(cfg, r, attempts))
  {
  }

  class Registry {
    const types: set<string>
    const script: nat -> Attempt
    const parse: string -> Option<Num>
    var at: nat
    var cancelled: bool

    constructor (types: set<string>, script: nat -> Attempt, parse: string -> Option<Num>)
      ensures this.types == types && this.script == script && this.parse == parse && !cancelled
    {
      this.types, this.script, this.parse, at, cancelled := types, script, parse, 0, false;
    }

    /** One attempt; a panic inside a check is a check that could not run. */
    method RunAttempt(cfg: CheckConfig, a: Attempt) returns (r: CheckResult)
      ensures Reports(cfg, a, parse, r)
    {
      if a.panics {
        return Blankly(CheckError);
      }
      if cfg.typ == "command" {
        r := RunCommand(cfg, a.execution, parse);
      } else {
        r := a.other;
      }
    }

    /** Attempts a check until it passes, its attempts are used up, or the run
        is cancelled. `tries` holds what each attempt that ran reported. */
    method Try(cfg: CheckConfig) returns (r: CheckResult, attempts: nat, ghost tries: seq<CheckResult>)
      modifies this
      ensures old(cancelled) ==> cancelled && tries == []
      ensures forall k :: 0 <= k < |tries| ==> Made(cfg, script(old(at) + k), parse, tries[k], k < |tries| - 1)
      ensures |tries| <= (if cfg.retries < 0 then 1 else cfg.retries + 1)
      ensures !cancelled ==> Finished(cfg, tries)
      ensures if Finished(cfg, tries) then r == tries[|tries| - 1] && attempts == |tries|
              else r == Blankly(CheckError) && |tries| <= attempts <= |tries| + 1
    {
      var limit := if cfg.retries + 1 < 1 then 1 else cfg.retries + 1;
      attempts, tries := 0, [];
      while true
        invariant 0 <= attempts < limit && |tries| == attempts
        invariant at == old(at) + attempts
        invariant cancelled == old(cancelled) && (attempts > 0 ==> !cancelled)
        invariant forall k :: 0 <= k < |tries| ==> Made(cfg, script(old(at) + k), parse, tries[k], true)
        decreases limit - attempts
      {
        var a := script(at);
        at := at + 1;
        attempts := attempts + 1;
        cancelled := cancelled || a.cancelledBefore;
        if cancelled {
          return Blankly(CheckError), attempts, tries;
        }
        r := RunAttempt(cfg, a);
        tries := tries + [r];
        if r.OK() || attempts >= limit {
          return;
        }
        if cfg.retryInterval > 0 {
          cancelled := cancelled || a.cancelledAfter;
          if cancelled {
            return Blankly(CheckError), attempts, tries;
          }
        }
      }
    }

    /** A check of a type nobody registered is an error; any other is tried,
        and a pass that did not read its number is a failure. */
    method RunOne(cfg: CheckConfig) returns (r: CheckResult, ghost tries: seq<CheckResult>)
      modifies this
      ensures old(cancelled) ==> cancelled
      ensures Truthful(cfg, r)
      ensures cfg.typ !in types ==> tries == [] && r == Signed(cfg, Blankly(CheckError), 0)
      ensures cfg.typ in types ==> Answered(cfg, script, parse, old(at), tries, r, cancelled)
      ensures old(cancelled) ==> tries == []
      ensures cfg.typ !in types ==> cancelled == old(cancelled)
    {
      tries := [];
      if cfg.typ !in types {
        return Signed(cfg, Blankly(CheckError), 0), tries;
      }
      ghost var from := at;
      var attempts;
      r, attempts, tries := Try(cfg);
      if Finished(cfg, tries) {
        ReportsAreTruthful(cfg, script(from + (|tries| - 1)), parse, r, attempts);
      }
      r := Signed(cfg, r, attempts);
      if UnreadCapture(r, cfg) {
        r := r.(status := CheckFail);
      }
    }

    /** Every configured check is answered for, in order: those before the
        cancellation were run, those after it are reported as skipped. */
    method RunAll(cfgs: seq<CheckConfig>)
      returns (results: seq<CheckResult>, ghost ran: nat, ghost froms: seq<nat>, ghost attempts: seq<seq<CheckResult>>)
      modifies this
      ensures AnswersAll(cfgs, results) && ran <= |results|
      ensures forall i :: ran <= i < |results| ==> results[i].status == CheckSkipped
      ensures ran < |results| ==> cancelled
      ensures old(cancelled) ==> ran == 0
      ensures |froms| == |attempts| == ran
      ensures forall i :: 0 <= i < ran && cfgs[i].typ in types ==>
                Answered(cfgs[i], script, parse, froms[i], attempts[i], results[i], cancelled && i == ran - 1)
      ensures forall i :: 0 <= i < ran && cfgs[i].typ !in types ==>
                attempts[i] == [] && results[i].status == CheckError && results[i].attempts == 0
    {
      results := [];
      ran := 0;
      froms, attempts := [], [];
      for i := 0 to |cfgs|
        invariant |results| == i && AnswersAll(cfgs[..i], results)
        invariant ran <= i && (ran < i ==> cancelled)
        invariant forall k :: ran <= k < i ==> results[k].status == CheckSkipped
        invariant (!cancelled ==> ran == i) && (old(cancelled) ==> cancelled && ran == 0)
        invariant |froms| == |attempts| == ran
        invariant forall k :: 0 <= k < ran && cfgs[k].typ in types ==>
                    Answered(cfgs[k], script, parse, froms[k], attempts[k], results[k], cancelled && k == ran - 1)
        invariant forall k :: 0 <= k < ran && cfgs[k].typ !in types ==>
                    attempts[k] == [] && results[k].status == CheckError && results[k].attempts == 0
      {
        var cfg := cfgs[i];
        assert cfgs[..i + 1] == cfgs[..i] + [cfg];
        if cancelled {
          results := results + [Blankly(CheckSkipped).(name := NameOf(cfg), typ := cfg.typ)];
        } else {
          ghost var from := at;
          var r, tries := RunOne(cfg);
          results := results + [r];
          froms, attempts := froms + [from], attempts + [tries];
          ran := i + 1;
        }
      }
      assert cfgs[..|cfgs|] == cfgs;
    }
  }

  /** What every answer of the registry satisfies. */
  predicate AnswersAll(cfgs: seq<CheckConfig>, results: seq<CheckResult>) {
    && |results| == |cfgs|
    && forall i :: 0 <= i < |cfgs| ==> Truthful(cfgs[i], results[i])
  }
}
