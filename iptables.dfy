/** The firewall reconciler: it lists the INPUT chain, parses the listing into
    rules, looks for an ACCEPT rule for a protocol and destination port, and
    appends or deletes one so that the rule exists or is gone.  Commands go
    to the machine through `Host.Machine.Run`. */
module Iptables {
  import opened Common
  import opened Text
  import opened Host

  /** One parsed line of the listing. */
  datatype Rule = Rule(num: nat, target: string, protocol: string, port: int)

  /** What parsing one line gives: nothing, a rule, or an exception. */
  datatype LineResult = Skip | Keep(rule: Rule) | Fail(exc: Exception)

  /** The message of the ValueError `int(s)` raises. */
  function IntLiteralError(s: string): Exception
  {
    ValueError("invalid literal for int() with base 10: '" + s + "'")
  }

  /** One line, already split into columns: a line counts only if its first
      column is a number and its last column mentions `dpt`; the port is what
      follows the first colon of the last column. */
  function ParseColumns(cols: seq<string>): LineResult
    requires |cols| >= 1
  {
    if !IsDigits(cols[0]) then Skip
    else if |cols| < 3 then Fail(IndexError)
    else
      var last := cols[|cols| - 1];
      if !Contains(last, "dpt") then Skip
      else
        var parts := Split(last, ':', 2);
        if |parts| < 2 then Fail(IndexError)
        else
          match ParseInt(parts[1])
          case None => Fail(IntLiteralError(parts[1]))
          case Some(port) => Keep(Rule(DecimalValue(cols[0]), cols[1], cols[2], port))
  }

  function ParseLine(line: string): LineResult
  {
    ParseColumns(SpaceSplit(line))
  }

  /** The rules of a listing, in line order; the first line that raises
      decides the exception. */
  function ParsedTable(lines: seq<string>): Result<seq<Rule>>
  {
    if lines == [] then Ok([])
    else
      match ParseLine(lines[0])
      case Skip => ParsedTable(lines[1..])
      case Fail(e) => Raise(e)
      case Keep(rule) => Prepend([rule], ParsedTable(lines[1..]))
  }

  /** Rules found before a remaining listing's result. */
  function Prepend(rules: seq<Rule>, r: Result<seq<Rule>>): Result<seq<Rule>>
  {
    match r
    case Ok(rest) => Ok(rules + rest)
    case Raise(e) => Raise(e)
  }

  /** Parsing two listings one after the other. */
  function Then(a: Result<seq<Rule>>, b: Result<seq<Rule>>): Result<seq<Rule>>
  {
    match a
    case Raise(e) => Raise(e)
    case Ok(rules) => Prepend(rules, b)
  }

  /** What one parsed line does to the rules of the lines after it. */
  function Step(line: LineResult, rest: Result<seq<Rule>>): Result<seq<Rule>>
  {
    match line
    case Skip => rest
    case Fail(e) => Raise(e)
    case Keep(rule) => Prepend([rule], rest)
  }

  /** The first line of a listing acts on the rules of the others. */
  lemma ParsedTableCons(line: string, rest: seq<string>)
    ensures ParsedTable([line] + rest) == Step(ParseLine(line), ParsedTable(rest))
  {
    assert ([line] + rest)[1..] == rest;
  }

  /** A line acts the same way on two listings parsed one after the other. */
  lemma StepThen(line: LineResult, x: Result<seq<Rule>>, y: Result<seq<Rule>>)
    ensures Step(line, Then(x, y)) == Then(Step(line, x), y)
  {
    match line
    case Skip =>
    case Fail(e) =>
    case Keep(rule) =>
      match x
      case Raise(e) =>
      case Ok(rest) =>
        match y
        case Raise(e) =>
        case Ok(more) => assert [rule] + (rest + more) == ([rule] + rest) + more;
  }

  /** A listing parses line by line: the lines of `a`, then those of `b`. */
  lemma {:induction false} ParsedTableAppend(a: seq<string>, b: seq<string>)
    ensures ParsedTable(a + b) == Then(ParsedTable(a), ParsedTable(b))
    decreases |a|
  {
    if a == [] {
      assert a + b == b;
      match ParsedTable(b)
      case Raise(e) =>
      case Ok(more) => assert [] + more == more;
    } else {
      assert a == [a[0]] + a[1..] && a + b == [a[0]] + (a[1..] + b);
      ParsedTableAppend(a[1..], b);
      ParsedTableCons(a[0], a[1..] + b);
      ParsedTableCons(a[0], a[1..]);
      StepThen(ParseLine(a[0]), ParsedTable(a[1..]), ParsedTable(b));
    }
  }

  lemma SkippedLine(line: string, rest: seq<string>)
    requires ParseLine(line) == Skip
    ensures ParsedTable([line] + rest) == ParsedTable(rest)
  {
    assert ([line] + rest)[1..] == rest;
  }

  lemma KeptLine(line: string, rest: seq<string>, rule: Rule)
    requires ParseLine(line) == Keep(rule)
    ensures ParsedTable([line] + rest) == Prepend([rule], ParsedTable(rest))
  {
    assert ([line] + rest)[1..] == rest;
  }

  /** A rule line as the listing prints it: number, target, protocol, the
      middle columns, and a last column `dpt:<port>` gives that rule. */
  lemma RuleColumns(n: nat, target: string, prot: string, mid: seq<string>, port: int)
    ensures ParseColumns([NatToString(n), target, prot] + mid + ["dpt:" + IntToString(port)])
         == Keep(Rule(n, target, prot, port))
  {
    var cols := [NatToString(n), target, prot] + mid + ["dpt:" + IntToString(port)];
    assert cols[0] == NatToString(n) && cols[1] == target && cols[2] == prot;
    assert cols[|cols| - 1] == "dpt:" + IntToString(port);
    NatToStringValue(n);
    DportColumn(IntToString(port));
    IntToStringRoundTrip(port);
  }

  /** `dpt:<p>` holds `dpt` and splits at its colon into `dpt` and `p`. */
  lemma DportColumn(p: string)
    requires ':' !in p
    ensures Contains("dpt:" + p, "dpt") && Split("dpt:" + p, ':', 2) == ["dpt", p]
  {
    var last := "dpt:" + p;
    assert last == "dpt" + [':'] + p;
    assert last == [] + "dpt" + ([':'] + p);
    ContainsInfix([], "dpt", [':'] + p);
    SplitAt("dpt", ':', p, 2);
    SplitWithout(p, ':', 1);
  }

  /** A line whose last column has no `d` in it is no rule. */
  lemma NoDportColumn(cols: seq<string>)
    requires |cols| >= 3 && 'd' !in cols[|cols| - 1]
    ensures ParseColumns(cols) == Skip
  {
    MissingLeadNotContained(cols[|cols| - 1], "dpt");
  }

  /** The acceptance test of `get_entry` as written: the listed protocol
      column is compared with the caller's name as given. */
  predicate MatchesAsWritten(rule: Rule, prot: string, port: int)
  {
    rule.target == "ACCEPT" && rule.port == port && (rule.protocol == "all" || rule.protocol == prot)
  }

  /** The acceptance test the reconciler is meant to make.  The tool lists
      protocol names in lower case, while the forward's name may be written
      in any case (the forwarder lower-cases it), so the name is lower-cased
      before the comparison. */
  predicate Matches(rule: Rule, prot: string, port: int)
  {
    rule.target == "ACCEPT" && rule.port == port && (rule.protocol == "all" || rule.protocol == Lower(prot))
  }

  /** The two tests agree on names already in lower case. */
  lemma MatchesLowerCase(rule: Rule, prot: string, port: int)
    requires Lower(prot) == prot
    ensures Matches(rule, prot, port) <==> MatchesAsWritten(rule, prot, port)
  {
  }

  /** Index of the first matching rule, if any. */
  function FirstMatch(rules: seq<Rule>, prot: string, port: int): (m: Option<nat>)
    ensures m.Some? ==> m.value < |rules| && Matches(rules[m.value], prot, port)
    ensures m.Some? ==> forall j :: 0 <= j < m.value ==> !Matches(rules[j], prot, port)
    ensures m.None? <==> forall j :: 0 <= j < |rules| ==> !Matches(rules[j], prot, port)
  {
    if rules == [] then None
    else if Matches(rules[0], prot, port) then Some(0)
    else
      match FirstMatch(rules[1..], prot, port)
      case None => None
      case Some(i) => Some(i + 1)
  }

  /** A matching rule with no match before it is the first match. */
  lemma FirstMatchAt(rules: seq<Rule>, prot: string, port: int, i: nat)
    requires i < |rules| && Matches(rules[i], prot, port)
    requires forall j :: 0 <= j < i ==> !Matches(rules[j], prot, port)
    ensures FirstMatch(rules, prot, port) == Some(i)
  {
    var m := FirstMatch(rules, prot, port);
    assert m.Some?;
    assert !(m.value < i) && !(i < m.value);
  }

  /** What `get_entry` returns for the listing command's result. */
  function Lookup(out: Result<seq<string>>, prot: string, port: int): Result<Option<Rule>>
  {
    match out
    case Raise(e) => Raise(e)
    case Ok(lines) =>
      match ParsedTable(lines)
      case Raise(e) => Raise(e)
      case Ok(rules) =>
        match FirstMatch(rules, prot, port)
        case None => Ok(None)
        case Some(i) => Ok(Some(rules[i]))
  }

  function BinName(stack: int): string
  {
    if stack == 6 then "ip6tables" else "iptables"
  }

  /** `_execute(args)`: the binary for the IP stack goes in front. */
  function Command(stack: int, args: seq<string>): (argv: seq<string>)
    ensures |argv| == |args| + 1 && argv[1..] == args
    ensures argv[0] == (if stack == 6 then "ip6tables" else "iptables")
  {
    [BinName(stack)] + args
  }

  const ListArgs: seq<string> := ["-L", "input", "-n", "--line-number"]

  function AppendArgs(prot: string, port: int): seq<string>
  {
    ["-A", "INPUT", "-p", prot, "--dport", IntToString(port), "-j", "ACCEPT"]
  }

  function DeleteArgs(num: nat): seq<string>
  {
    ["-D", "INPUT", NatToString(num)]
  }

  /** How `add_entry` and `remove_entry` end: normally, after logging a
      warning for a failed command, or with an exception they let through. */
  datatype Report = Completed | Warned(message: string) | Propagated(exc: Exception)

  /** The commands a reconciling call runs, in order, and how it ends. */
  datatype Effect = Effect(events: seq<Event>, report: Report)

  function AddWarning(prot: string, port: int): string
  {
    "Could not add iptables rule for " + prot + ":" + IntToString(port)
  }

  function RemoveWarning(prot: string, port: int): string
  {
    "Could not remove iptables rule for " + prot + ":" + IntToString(port)
  }

  /** Only SubprocessError is caught; it becomes the warning. */
  function Caught(e: Exception, warning: string): Report
  {
    if e == SubprocessError then Warned(warning) else Propagated(e)
  }

  /** `add_entry(prot, port)` on a machine with history `h`: list, and
      append a rule only when none matches. */
  function AddEntryEffect(oracle: Oracle, h: seq<Event>, stack: int, prot: string, port: int): Effect
  {
    var list := Command(stack, ListArgs);
    match Lookup(RunResult(oracle, h, list), prot, port)
    case Raise(e) => Effect([Ran(list)], Caught(e, AddWarning(prot, port)))
    case Ok(Some(_)) => Effect([Ran(list)], Completed)
    case Ok(None) =>
      var add := Command(stack, AppendArgs(prot, port));
      match RunResult(oracle, h + [Ran(list)], add)
      case Raise(e) => Effect([Ran(list), Ran(add)], Caught(e, AddWarning(prot, port)))
      case Ok(_) => Effect([Ran(list), Ran(add)], Completed)
  }

  /** `remove_entry(prot, port)` on a machine with history `h`: list, and
      delete the first matching rule, by its number in that listing. */
  function RemoveEntryEffect(oracle: Oracle, h: seq<Event>, stack: int, prot: string, port: int): Effect
  {
    var list := Command(stack, ListArgs);
    match Lookup(RunResult(oracle, h, list), prot, port)
    case Raise(e) => Effect([Ran(list)], Caught(e, RemoveWarning(prot, port)))
    case Ok(None) => Effect([Ran(list)], Completed)
    case Ok(Some(rule)) =>
      var del := Command(stack, DeleteArgs(rule.num));
      match RunResult(oracle, h + [Ran(list)], del)
      case Raise(e) => Effect([Ran(list), Ran(del)], Caught(e, RemoveWarning(prot, port)))
      case Ok(_) => Effect([Ran(list), Ran(del)], Completed)
  }

  /** Whatever the machine answers, reconciling runs the listing first,
      runs at most one more command, and a failing command never escapes. */
  lemma ReconcileShape(oracle: Oracle, h: seq<Event>, stack: int, prot: string, port: int)
    ensures var e := AddEntryEffect(oracle, h, stack, prot, port);
      && 1 <= |e.events| <= 2 && e.events[0] == Ran(Command(stack, ListArgs))
      && e.report != Propagated(SubprocessError)
      && (|e.events| == 2 <==> Lookup(RunResult(oracle, h, Command(stack, ListArgs)), prot, port) == Ok(None))
      && (|e.events| == 2 ==> e.events[1] == Ran(Command(stack, AppendArgs(prot, port))))
    ensures var e := RemoveEntryEffect(oracle, h, stack, prot, port);
      var found := Lookup(RunResult(oracle, h, Command(stack, ListArgs)), prot, port);
      && 1 <= |e.events| <= 2 && e.events[0] == Ran(Command(stack, ListArgs))
      && e.report != Propagated(SubprocessError)
      && (|e.events| == 2 <==> found.Ok? && found.value.Some?)
      && (|e.events| == 2 ==> e.events[1] == Ran(Command(stack, DeleteArgs(found.value.value.num))))
  {
  }

  class Iptables {
    const stack: int
    const host: Machine

    constructor (stack: int, host: Machine)
      ensures this.stack == stack && this.host == host
    {
      this.stack := stack;
      this.host := host;
    }

    /** `_execute(args)`: run the command for this IP stack, collecting its output. */
    method Execute(args: seq<string>) returns (out: Result<seq<string>>)
      modifies host
      ensures host.log == old(host.log) + [Ran(Command(stack, args))]
      ensures out == RunResult(host.oracle, old(host.log), Command(stack, args))
    {
      var argv := [if stack == 6 then "ip6tables" else "iptables"] + args;
      out := host.Run(argv);
    }

    /** `_parse_table(lines)`: the loop collects the rules of the lines it
        keeps; an exception ends it. */
    method ParseTable(lines: seq<string>) returns (r: Result<seq<Rule>>)
      ensures r == ParsedTable(lines)
    {
      var rules: seq<Rule> := [];
      assert lines[0..] == lines;
      assert Prepend([], ParsedTable(lines)) == ParsedTable(lines) by {
        match ParsedTable(lines)
        case Raise(e) =>
        case Ok(all) => assert [] + all == all;
      }
      for i := 0 to |lines|
        invariant Prepend(rules, ParsedTable(lines[i..])) == ParsedTable(lines)
      {
        assert lines[i..][0] == lines[i] && lines[i..][1..] == lines[i + 1..];
        var line := ParseLine(lines[i]);
        match line
        case Skip =>
        case Fail(e) =>
          assert ParsedTable(lines[i..]) == Raise(e);
          return Raise(e);
        case Keep(rule) =>
          match ParsedTable(lines[i + 1..])
          case Raise(e) =>
          case Ok(rest) => assert rules + ([rule] + rest) == (rules + [rule]) + rest;
          rules := rules + [rule];
      }
      assert lines[|lines|..] == [] && ParsedTable([]) == Ok([]) && rules + [] == rules;
      r := Ok(rules);
    }

    /** `get_entry(prot, port)`: the first ACCEPT rule for the port whose
        protocol is `all` or `prot`, from a fresh listing. */
    method GetEntry(prot: string, port: int) returns (r: Result<Option<Rule>>)
      modifies host
      ensures host.log == old(host.log) + [Ran(Command(stack, ListArgs))]
      ensures r == Lookup(RunResult(host.oracle, old(host.log), Command(stack, ListArgs)), prot, port)
    {
      var out := Execute(ListArgs);
      if out.Raise? {
        return Raise(out.exc);
      }
      var parsed := ParseTable(out.value);
      if parsed.Raise? {
        return Raise(parsed.exc);
      }
      var found := FindRule(parsed.value, prot, port);
      r := Ok(found);
    }

    /** The loop of `get_entry`: the first rule that passes all three tests. */
    static method FindRule(rules: seq<Rule>, prot: string, port: int) returns (found: Option<Rule>)
      ensures found == match FirstMatch(rules, prot, port) case None => None case Some(i) => Some(rules[i])
    {
      var lowered := Lower(prot);
      for i := 0 to |rules|
        invariant forall j :: 0 <= j < i ==> !Matches(rules[j], prot, port)
      {
        var rule := rules[i];
        if rule.target != "ACCEPT" {
          continue;
        }
        if rule.port != port {
          continue;
        }
        if rule.protocol != "all" && rule.protocol != lowered {
          continue;
        }
        FirstMatchAt(rules, prot, port, i);
        return Some(rule);
      }
      found := None;
    }

    /** `add_entry(prot, port)`. */
    method AddEntry(prot: string, port: int) returns (report: Report)
      modifies host
      ensures var e := AddEntryEffect(host.oracle, old(host.log), stack, prot, port);
        host.log == old(host.log) + e.events && report == e.report
    {
      var rule := GetEntry(prot, port);
      if rule.Raise? {
        return Caught(rule.exc, AddWarning(prot, port));
      }
      if rule.value.Some? {
        return Completed;
      }
      var out := Execute(AppendArgs(prot, port));
      if out.Raise? {
        return Caught(out.exc, AddWarning(prot, port));
      }
      report := Completed;
    }

    /** `remove_entry(prot, port)`. */
    method RemoveEntry(prot: string, port: int) returns (report: Report)
      modifies host
      ensures var e := RemoveEntryEffect(host.oracle, old(host.log), stack, prot, port);
        host.log == old(host.log) + e.events && report == e.report
    {
      var rule := GetEntry(prot, port);
      if rule.Raise? {
        return Caught(rule.exc, RemoveWarning(prot, port));
      }
      if rule.value.None? {
        return Completed;
      }
      var out := Execute(DeleteArgs(rule.value.value.num));
      if out.Raise? {
        return Caught(out.exc, RemoveWarning(prot, port));
      }
      report := Completed;
    }
  }

  // The listing of the reconciler's test, line by line, written as its
  // columns and the widths of the runs of spaces between them.

  const ChainLine: string := Join(["", "Chain", "INPUT", "(policy", "DROP)"], [1, 1, 1, 1])
  const HeaderLine: string := Join(["num", "target", "prot", "opt", "source", "destination"], [2, 5, 1, 1, 15])
  const StateLine: string := Join(StateCols, [4, 5, 2, 2, 12, 12, 1])
  const OpenLine: string := Join(OpenCols, [4, 5, 2, 2, 12])
  const TrailingLine: string := Join(["", ""], [4])

  function PortCols(n: nat, port: nat): seq<string>
  {
    [NatToString(n), "ACCEPT", "tcp"] + ["--", "0.0.0.0/0", "0.0.0.0/0", "tcp"] + ["dpt:" + IntToString(port)]
  }

  function PortLine(n: nat, port: nat): string
  {
    Join(PortCols(n, port), [4, 5, 2, 2, 12, 12, 1])
  }

  function TestListing(): seq<string>
  {
    [ChainLine] + ([HeaderLine] + ([StateLine] + MiddleLines()))
  }

  /** Rules 2 to 7 and the trailing line. */
  function MiddleLines(): seq<string>
  {
    [PortLine(2, 222)] + ([PortLine(3, 80)] + ([PortLine(4, 443)] + TailLines()))
  }

  /** Rules 5 to 7 and the trailing line. */
  function TailLines(): seq<string>
  {
    [PortLine(5, 8443)] + ([OpenLine] + ([PortLine(7, 32400)] + ([TrailingLine] + [])))
  }

  function TestRule(n: nat, port: nat): Rule
  {
    Rule(n, "ACCEPT", "tcp", port)
  }

  lemma PortLineParses(n: nat, port: nat)
    ensures ParseLine(PortLine(n, port)) == Keep(TestRule(n, port))
  {
    var cols := PortCols(n, port);
    assert ' ' !in "dpt:" && ' ' !in IntToString(port);
    assert forall i :: 0 <= i < |cols| ==> ' ' !in cols[i];
    SpaceSplitJoin(cols, [4, 5, 2, 2, 12, 12, 1]);
    RuleColumns(n, "ACCEPT", "tcp", ["--", "0.0.0.0/0", "0.0.0.0/0", "tcp"], port);
  }

  lemma ChainLineSkipped()
    ensures ParseLine(ChainLine) == Skip
  {
    SpaceSplitJoin(["", "Chain", "INPUT", "(policy", "DROP)"], [1, 1, 1, 1]);
  }

  lemma HeaderLineSkipped()
    ensures ParseLine(HeaderLine) == Skip
  {
    var header := ["num", "target", "prot", "opt", "source", "destination"];
    SpaceSplitJoin(header, [2, 5, 1, 1, 15]);
    assert !IsDigit(header[0][0]);
  }

  const StateCols: seq<string> :=
    ["1", "ACCEPT", "all", "--", "0.0.0.0/0", "0.0.0.0/0", "ctstate", "RELATED,ESTABLISHED"]
  const OpenCols: seq<string> := ["6", "ACCEPT", "all", "--", "0.0.0.0/0", "0.0.0.0/0"]

  lemma StateColumnsSkipped()
    ensures ParseColumns(StateCols) == Skip
  {
    assert 'd' !in "RELATED,ESTABLISHED";
    NoDportColumn(StateCols);
  }

  lemma OpenColumnsSkipped()
    ensures ParseColumns(OpenCols) == Skip
  {
    assert 'd' !in "0.0.0.0/0";
    NoDportColumn(OpenCols);
  }

  lemma StateLineSkipped()
    ensures ParseLine(StateLine) == Skip
  {
    SpaceSplitJoin(StateCols, [4, 5, 2, 2, 12, 12, 1]);
    StateColumnsSkipped();
  }

  lemma OpenLineSkipped()
    ensures ParseLine(OpenLine) == Skip
  {
    SpaceSplitJoin(OpenCols, [4, 5, 2, 2, 12]);
    OpenColumnsSkipped();
  }

  lemma TrailingLineSkipped()
    ensures ParseLine(TrailingLine) == Skip
  {
    SpaceSplitJoin(["", ""], [4]);
  }

  /** Rule 7 and the trailing blank line. */
  lemma ListingEnd(l7: string, trailing: string, r7: Rule)
    requires ParseLine(trailing) == Skip && ParseLine(l7) == Keep(r7)
    ensures ParsedTable([l7] + ([trailing] + [])) == Ok([r7])
  {
    SkippedLine(trailing, []);
    assert ParsedTable([]) == Ok([]);
    KeptLine(l7, [trailing] + [], r7);
    assert [r7] + [] == [r7];
  }

  /** Rule 5 and the open rule 6 in front of the end of the listing. */
  lemma ListingTail(l5: string, open: string, rest: seq<string>, r5: Rule, r7: Rule)
    requires ParseLine(open) == Skip && ParseLine(l5) == Keep(r5)
    requires ParsedTable(rest) == Ok([r7])
    ensures ParsedTable([l5] + ([open] + rest)) == Ok([r5, r7])
  {
    SkippedLine(open, rest);
    KeptLine(l5, [open] + rest, r5);
    assert [r5] + [r7] == [r5, r7];
  }

  /** The rule lines 2, 3 and 4 in front of the last four lines. */
  lemma ListingMiddle(l2: string, l3: string, l4: string, rest: seq<string>, r2: Rule, r3: Rule, r4: Rule,
                      r5: Rule, r7: Rule)
    requires ParseLine(l2) == Keep(r2) && ParseLine(l3) == Keep(r3) && ParseLine(l4) == Keep(r4)
    requires ParsedTable(rest) == Ok([r5, r7])
    ensures ParsedTable([l2] + ([l3] + ([l4] + rest))) == Ok([r2, r3, r4, r5, r7])
  {
    KeptLine(l4, rest, r4);
    KeptLine(l3, [l4] + rest, r3);
    KeptLine(l2, [l3] + ([l4] + rest), r2);
    assert [r2] + ([r3] + ([r4] + [r5, r7])) == [r2, r3, r4, r5, r7];
  }

  /** The three lines before the rules. */
  lemma ListingHead(chain: string, header: string, state: string, rest: seq<string>)
    requires ParseLine(chain) == Skip && ParseLine(header) == Skip && ParseLine(state) == Skip
    ensures ParsedTable([chain] + ([header] + ([state] + rest))) == ParsedTable(rest)
  {
    SkippedLine(state, rest);
    SkippedLine(header, [state] + rest);
    SkippedLine(chain, [header] + ([state] + rest));
  }

  lemma TailParses()
    ensures ParsedTable(TailLines()) == Ok([TestRule(5, 8443), TestRule(7, 32400)])
  {
    OpenLineSkipped();
    TrailingLineSkipped();
    PortLineParses(5, 8443);
    PortLineParses(7, 32400);
    ListingEnd(PortLine(7, 32400), TrailingLine, TestRule(7, 32400));
    ListingTail(PortLine(5, 8443), OpenLine, [PortLine(7, 32400)] + ([TrailingLine] + []), TestRule(5, 8443),
                TestRule(7, 32400));
  }

  lemma MiddleParses()
    ensures ParsedTable(MiddleLines())
         == Ok([TestRule(2, 222), TestRule(3, 80), TestRule(4, 443), TestRule(5, 8443), TestRule(7, 32400)])
  {
    TailParses();
    PortLineParses(2, 222);
    PortLineParses(3, 80);
    PortLineParses(4, 443);
    ListingMiddle(PortLine(2, 222), PortLine(3, 80), PortLine(4, 443), TailLines(), TestRule(2, 222), TestRule(3, 80),
                  TestRule(4, 443), TestRule(5, 8443), TestRule(7, 32400));
  }

  /** The test listing yields rules 2, 3, 4, 5 and 7, in that order. */
  lemma TestListingParses()
    ensures ParsedTable(TestListing())
         == Ok([TestRule(2, 222), TestRule(3, 80), TestRule(4, 443), TestRule(5, 8443), TestRule(7, 32400)])
  {
    MiddleParses();
    ChainLineSkipped();
    HeaderLineSkipped();
    StateLineSkipped();
    ListingHead(ChainLine, HeaderLine, StateLine, MiddleLines());
  }

  /** The test's process mock: every command prints the test listing. */
  function ListingOracle(lines: seq<string>): Oracle
  {
    (h: seq<Event>, argv: seq<string>) => Some(lines)
  }

  lemma ListCommandV4()
    ensures Command(4, ListArgs) == ["iptables", "-L", "input", "-n", "--line-number"]
  {
  }

  /** `test_existing`: rule 4 accepts tcp port 443, so adding it runs only
      the listing, one process. */
  lemma ExistingRuleRunsOneCommand()
    ensures var e := AddEntryEffect(ListingOracle(TestListing()), [], 4, "tcp", 443);
      e.events == [Ran(["iptables", "-L", "input", "-n", "--line-number"])] && e.report == Completed
  {
    var rules := [TestRule(2, 222), TestRule(3, 80), TestRule(4, 443), TestRule(5, 8443), TestRule(7, 32400)];
    TestRulesMatch();
    TestListingParses();
    ListedRuleRunsOneCommand(TestListing(), rules, "tcp", 443);
    ListCommandV4();
  }

  /** Rule 4 of the test listing is the first to accept tcp port 443. */
  lemma TestRulesMatch()
    ensures FirstMatch([TestRule(2, 222), TestRule(3, 80), TestRule(4, 443), TestRule(5, 8443), TestRule(7, 32400)],
                       "tcp", 443) == Some(2)
  {
  }

  /** A listing holding a matching rule makes adding run the listing only. */
  lemma ListedRuleRunsOneCommand(lines: seq<string>, rules: seq<Rule>, prot: string, port: int)
    requires ParsedTable(lines) == Ok(rules) && FirstMatch(rules, prot, port).Some?
    ensures AddEntryEffect(ListingOracle(lines), [], 4, prot, port) == Effect([Ran(Command(4, ListArgs))], Completed)
  {
    assert RunResult(ListingOracle(lines), [], Command(4, ListArgs)) == Ok(lines);
  }

  /** `test_new`: an empty listing has no match, so adding runs the listing
      and the append, two processes. */
  lemma NewRuleRunsTwoCommands()
    ensures var e := AddEntryEffect(ListingOracle([]), [], 4, "tcp", 443);
      && e.events == [Ran(["iptables", "-L", "input", "-n", "--line-number"]),
                      Ran(["iptables", "-A", "INPUT", "-p", "tcp", "--dport", IntToString(443), "-j", "ACCEPT"])]
      && e.report == Completed
  {
    ListCommandV4();
    assert Command(4, AppendArgs("tcp", 443))
        == ["iptables", "-A", "INPUT", "-p", "tcp", "--dport", IntToString(443), "-j", "ACCEPT"];
  }
}
