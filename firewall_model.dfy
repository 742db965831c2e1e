/** A reference model of the firewall tool the reconciler drives.  Each IP
    stack has an INPUT chain, a list of rows; `-L` prints the chain in the
    layout the reconciler parses, `-A` appends a row (keeping the protocol
    name in lower case, as the tool prints it), `-D` deletes one by
    its number, and any other command fails.  The model is the partner of
    the reconciler: it states what adding and removing an entry achieve. */
module FirewallModel {
  import opened Common
  import opened Text
  import opened Host
  import opened Iptables

  /** One row of a chain: its target, its protocol, and the destination
      port it is restricted to, if any. */
  datatype Row = Row(target: string, protocol: string, dport: Option<int>)

  /** The INPUT chains of the two IP stacks. */
  datatype Firewall = Firewall(v4: seq<Row>, v6: seq<Row>)

  /** A name the listing prints as one column. */
  predicate Name(s: string) { |s| > 0 && ' ' !in s }

  predicate WellFormed(t: seq<Row>)
  {
    forall i :: 0 <= i < |t| ==> Name(t[i].target) && Name(t[i].protocol)
  }

  predicate Good(fw: Firewall) { WellFormed(fw.v4) && WellFormed(fw.v6) }

  function TableOf(fw: Firewall, bin: string): seq<Row>
  {
    if bin == "ip6tables" then fw.v6 else fw.v4
  }

  function WithTable(fw: Firewall, bin: string, t: seq<Row>): Firewall
  {
    if bin == "ip6tables" then fw.(v6 := t) else fw.(v4 := t)
  }

  /** The columns of row number `n`; the port match adds the protocol and
      `dpt:<port>` at the end, as the tool prints it. */
  function RowCols(n: nat, row: Row): seq<string>
  {
    [NatToString(n), row.target, row.protocol] + ["--", "0.0.0.0/0", "0.0.0.0/0"]
      + (match row.dport case Some(p) => [row.protocol, "dpt:" + IntToString(p)] case None => [])
  }

  function RowLine(n: nat, row: Row): string
  {
    var cols := RowCols(n, row);
    Join(cols, seq(|cols| - 1, _ => 2))
  }

  /** The rows from number `n` on, one line each. */
  function RowLines(t: seq<Row>, n: nat): seq<string>
  {
    if t == [] then [] else [RowLine(n, t[0])] + RowLines(t[1..], n + 1)
  }

  /** `-L`: a chain line, a column header, then the rows. */
  function Listing(t: seq<Row>): seq<string>
  {
    [ChainLine] + ([HeaderLine] + RowLines(t, 1))
  }

  /** The rules the reconciler should find in rows numbered from `n`: one per
      row with a port match, carrying the row's number. */
  function Rules(t: seq<Row>, n: nat): seq<Rule>
  {
    if t == [] then []
    else
      var rest := Rules(t[1..], n + 1);
      match t[0].dport
      case Some(p) => [Rule(n, t[0].target, t[0].protocol, p)] + rest
      case None => rest
  }

  /** Columns that are names survive the two-space layout. */
  lemma EvenlySpaced(cols: seq<string>)
    requires |cols| >= 1 && forall i :: 0 <= i < |cols| ==> Name(cols[i])
    ensures SpaceSplit(Join(cols, seq(|cols| - 1, _ => 2))) == cols
  {
    SpaceSplitJoin(cols, seq(|cols| - 1, _ => 2));
  }

  /** The reconciler splits a listed row back into its columns. */
  lemma RowColsSplit(n: nat, row: Row)
    requires Name(row.target) && Name(row.protocol)
    ensures SpaceSplit(RowLine(n, row)) == RowCols(n, row)
  {
    var cols := RowCols(n, row);
    assert Name(NatToString(n)) && Name("--") && Name("0.0.0.0/0");
    match row.dport
    case Some(p) =>
      assert Name("dpt:" + IntToString(p));
      assert cols == [NatToString(n), row.target, row.protocol, "--", "0.0.0.0/0", "0.0.0.0/0", row.protocol, "dpt:" + IntToString(p)];
      EvenlySpaced(cols);
    case None =>
      assert cols == [NatToString(n), row.target, row.protocol, "--", "0.0.0.0/0", "0.0.0.0/0"];
      EvenlySpaced(cols);
  }

  lemma RowLineParses(n: nat, row: Row)
    requires Name(row.target) && Name(row.protocol)
    ensures ParseLine(RowLine(n, row))
         == match row.dport case Some(p) => Keep(Rule(n, row.target, row.protocol, p)) case None => Skip
  {
    RowColsSplit(n, row);
    match row.dport
    case Some(p) =>
      var mid := ["--", "0.0.0.0/0", "0.0.0.0/0", row.protocol];
      assert RowCols(n, row) == [NatToString(n), row.target, row.protocol] + mid + ["dpt:" + IntToString(p)];
      RuleColumns(n, row.target, row.protocol, mid, p);
    case None =>
      var cols := RowCols(n, row);
      assert 'd' !in "0.0.0.0/0" && cols[|cols| - 1] == "0.0.0.0/0";
      NoDportColumn(cols);
  }

  lemma {:induction false} RowLinesParse(t: seq<Row>, n: nat)
    requires WellFormed(t)
    ensures ParsedTable(RowLines(t, n)) == Ok(Rules(t, n))
    decreases |t|
  {
    if t != [] {
      RowLineParses(n, t[0]);
      RowLinesParse(t[1..], n + 1);
      match t[0].dport
      case Some(p) => KeptLine(RowLine(n, t[0]), RowLines(t[1..], n + 1), Rule(n, t[0].target, t[0].protocol, p));
      case None => SkippedLine(RowLine(n, t[0]), RowLines(t[1..], n + 1));
    }
  }

  /** The reconciler reads back exactly the port rules of a listed chain,
      numbered by their position. */
  lemma ListingRoundTrip(t: seq<Row>)
    requires WellFormed(t)
    ensures ParsedTable(Listing(t)) == Ok(Rules(t, 1))
  {
    RowLinesParse(t, 1);
    HeaderLineSkipped();
    ChainLineSkipped();
    SkippedLine(HeaderLine, RowLines(t, 1));
    SkippedLine(ChainLine, [HeaderLine] + RowLines(t, 1));
  }

  /** The row-level counterpart of `get_entry`'s test. */
  predicate RowMatches(row: Row, prot: string, port: int)
  {
    row.target == "ACCEPT" && row.dport == Some(port) && (row.protocol == "all" || row.protocol == Lower(prot))
  }

  /** Index of the first matching row, if any. */
  function FirstRow(t: seq<Row>, prot: string, port: int): (k: Option<nat>)
    ensures k.Some? ==> k.value < |t| && RowMatches(t[k.value], prot, port)
    ensures k.Some? ==> forall j :: 0 <= j < k.value ==> !RowMatches(t[j], prot, port)
    ensures k.None? <==> forall j :: 0 <= j < |t| ==> !RowMatches(t[j], prot, port)
  {
    if t == [] then None
    else if RowMatches(t[0], prot, port) then Some(0)
    else
      match FirstRow(t[1..], prot, port)
      case None => None
      case Some(k) => Some(k + 1)
  }

  /** The first matching rule of the listing is the first matching row, and
      its number is that row's position. */
  lemma {:induction false} FirstMatchIsFirstRow(t: seq<Row>, n: nat, prot: string, port: int)
    ensures var m := FirstMatch(Rules(t, n), prot, port);
      var k := FirstRow(t, prot, port);
      && (m.None? <==> k.None?)
      && (m.Some? ==> Rules(t, n)[m.value].num == n + k.value)
    decreases |t|
  {
    if t != [] {
      FirstMatchIsFirstRow(t[1..], n + 1, prot, port);
      var rest := Rules(t[1..], n + 1);
      match t[0].dport
      case Some(p) =>
        var r := Rule(n, t[0].target, t[0].protocol, p);
        assert Rules(t, n) == [r] + rest;
        assert ([r] + rest)[1..] == rest;
        assert Matches(r, prot, port) == RowMatches(t[0], prot, port);
      case None =>
        assert !RowMatches(t[0], prot, port);
    }
  }

  /** What the tool does with one command line: its output (None for a
      failure) and the new firewall. */
  function Run(fw: Firewall, argv: seq<string>): (Option<seq<string>>, Firewall)
  {
    if |argv| == 0 || (argv[0] != "iptables" && argv[0] != "ip6tables") then (None, fw)
    else
      var bin, args, t := argv[0], argv[1..], TableOf(fw, argv[0]);
      if args == ListArgs then (Some(Listing(t)), fw)
      else if |args| == 8 && args[0] == "-A" && args[1] == "INPUT" && args[2] == "-p" && args[4] == "--dport"
              && args[6] == "-j" && Name(args[3]) && Name(args[7]) && ParseInt(args[5]).Some? then
        (Some([]), WithTable(fw, bin, t + [Row(args[7], Lower(args[3]), ParseInt(args[5]))]))
      else if |args| == 3 && args[0] == "-D" && args[1] == "INPUT" && ParseInt(args[2]).Some?
              && 1 <= ParseInt(args[2]).value <= |t| then
        var k := ParseInt(args[2]).value - 1;
        (Some([]), WithTable(fw, bin, t[..k] + t[k + 1..]))
      else (None, fw)
  }

  function Apply(fw: Firewall, e: Event): Firewall
  {
    match e
    case Ran(argv) => Run(fw, argv).1
    case Launched(_) => fw
    case StopRequested(_) => fw
  }

  /** The firewall after everything done on the machine, starting from `fw0`. */
  function Replay(fw0: Firewall, h: seq<Event>): Firewall
  {
    if h == [] then fw0 else Apply(Replay(fw0, h[..|h| - 1]), h[|h| - 1])
  }

  /** The machine's answers when its firewall started as `fw0`. */
  function FirewallOracle(fw0: Firewall): Oracle
  {
    (h: seq<Event>, argv: seq<string>) => Run(Replay(fw0, h), argv).0
  }

  lemma ReplayStep(fw0: Firewall, h: seq<Event>, e: Event)
    ensures Replay(fw0, h + [e]) == Apply(Replay(fw0, h), e)
  {
    assert (h + [e])[..|h|] == h;
  }

  /** Appending a row with printable names keeps a chain well formed. */
  lemma AppendKeepsWellFormed(t: seq<Row>, row: Row)
    requires WellFormed(t) && Name(row.target) && Name(row.protocol)
    ensures WellFormed(t + [row])
  {
    var u := t + [row];
    assert forall i :: 0 <= i < |u| ==> u[i] == (if i < |t| then t[i] else row);
  }

  /** Deleting a row keeps a chain well formed. */
  lemma DeleteKeepsWellFormed(t: seq<Row>, k: nat)
    requires WellFormed(t) && k < |t|
    ensures WellFormed(t[..k] + t[k + 1..])
  {
    var u := t[..k] + t[k + 1..];
    assert forall i :: 0 <= i < |u| ==> u[i] == (if i < k then t[i] else t[i + 1]);
  }

  /** Every command keeps the chains well formed. */
  lemma RunKeepsGood(fw: Firewall, argv: seq<string>)
    requires Good(fw)
    ensures Good(Run(fw, argv).1)
  {
    if |argv| > 0 && (argv[0] == "iptables" || argv[0] == "ip6tables") {
      var bin, args, t := argv[0], argv[1..], TableOf(fw, argv[0]);
      assert WellFormed(t);
      if |args| == 8 && Name(args[3]) && Name(args[7]) && ParseInt(args[5]).Some? {
        LowerKeepsSpaces(args[3]);
        AppendKeepsWellFormed(t, Row(args[7], Lower(args[3]), ParseInt(args[5])));
      }
      if |args| == 3 && ParseInt(args[2]).Some? && 1 <= ParseInt(args[2]).value <= |t| {
        DeleteKeepsWellFormed(t, ParseInt(args[2]).value - 1);
      }
    }
  }

  lemma {:induction false} ReplayKeepsGood(fw0: Firewall, h: seq<Event>)
    requires Good(fw0)
    ensures Good(Replay(fw0, h))
    decreases |h|
  {
    if h != [] {
      ReplayKeepsGood(fw0, h[..|h| - 1]);
      var fw := Replay(fw0, h[..|h| - 1]);
      match h[|h| - 1]
      case Ran(argv) => RunKeepsGood(fw, argv);
      case Launched(_) =>
      case StopRequested(_) =>
    }
  }

  /** Listing the chain of a well-formed firewall finds the first matching
      row, and changes nothing. */
  lemma ListLookup(fw: Firewall, stack: int, prot: string, port: int)
    requires Good(fw)
    ensures var t := TableOf(fw, BinName(stack));
      var found := Lookup(Ok(Listing(t)), prot, port);
      && Run(fw, Command(stack, ListArgs)) == (Some(Listing(t)), fw)
      && found.Ok? && (found.value.None? <==> FirstRow(t, prot, port).None?)
      && (found.value.Some? ==> found.value.value.num == 1 + FirstRow(t, prot, port).value)
  {
    var t := TableOf(fw, BinName(stack));
    ListingRoundTrip(t);
    FirstMatchIsFirstRow(t, 1, prot, port);
  }

  /** Adding a matching row at the end makes it the first match only when
      no earlier row matched; otherwise the first match stays where it was. */
  lemma FirstRowAppend(t: seq<Row>, row: Row, prot: string, port: int)
    ensures FirstRow(t, prot, port).Some? ==> FirstRow(t + [row], prot, port) == FirstRow(t, prot, port)
    ensures FirstRow(t, prot, port).None? && RowMatches(row, prot, port) ==> FirstRow(t + [row], prot, port) == Some(|t|)
  {
    var u := t + [row];
    assert forall j :: 0 <= j < |t| ==> u[j] == t[j];
    assert u[|t|] == row;
  }

  lemma ReplayTwo(fw0: Firewall, h: seq<Event>, a: Event, b: Event)
    ensures Replay(fw0, h + [a, b]) == Apply(Apply(Replay(fw0, h), a), b)
  {
    assert h + [a, b] == (h + [a]) + [b];
    ReplayStep(fw0, h + [a], b);
    ReplayStep(fw0, h, a);
  }

  /** The listing run on a machine whose firewall started well formed: it
      prints the current chain and changes nothing. */
  lemma ListStep(fw0: Firewall, h: seq<Event>, stack: int)
    requires Good(fw0)
    ensures var fw := Replay(fw0, h); var list := Command(stack, ListArgs);
      && Good(fw)
      && RunResult(FirewallOracle(fw0), h, list) == Ok(Listing(TableOf(fw, BinName(stack))))
      && Replay(fw0, h + [Ran(list)]) == fw
  {
    var fw := Replay(fw0, h);
    var list := Command(stack, ListArgs);
    ReplayKeepsGood(fw0, h);
    assert list[0] == BinName(stack) && list[1..] == ListArgs;
    ReplayStep(fw0, h, Ran(list));
  }

  /** The append command adds the accepting row at the end of the chain of
      the stack, and leaves the other chain alone. */
  lemma AppendStep(fw: Firewall, stack: int, prot: string, port: int)
    requires Name(prot)
    ensures var bin := BinName(stack);
      Run(fw, Command(stack, AppendArgs(prot, port)))
        == (Some([]), WithTable(fw, bin, TableOf(fw, bin) + [Row("ACCEPT", Lower(prot), Some(port))]))
  {
    var args := AppendArgs(prot, port);
    IntToStringRoundTrip(port);
    assert args[3] == prot && args[5] == IntToString(port) && args[7] == "ACCEPT";
    assert Name("ACCEPT");
    assert args != ListArgs;
  }

  /** The delete command for row number `k + 1` removes row `k` of the chain
      of the stack, and leaves the other chain alone. */
  lemma DeleteStep(fw: Firewall, stack: int, k: nat)
    requires k < |TableOf(fw, BinName(stack))|
    ensures var bin := BinName(stack); var t := TableOf(fw, bin);
      Run(fw, Command(stack, DeleteArgs(k + 1))) == (Some([]), WithTable(fw, bin, t[..k] + t[k + 1..]))
  {
    var args := DeleteArgs(k + 1);
    IntToStringRoundTrip(k + 1);
    assert args[2] == IntToString(k + 1);
    assert args != ListArgs;
  }

  /** How a reconciling call ends once its listing has been looked up. */
  lemma EffectCases(oracle: Oracle, h: seq<Event>, stack: int, prot: string, port: int)
    ensures var list := Command(stack, ListArgs);
      var found := Lookup(RunResult(oracle, h, list), prot, port);
      var add := Command(stack, AppendArgs(prot, port));
      && (found.Ok? && found.value.Some? ==> AddEntryEffect(oracle, h, stack, prot, port) == Effect([Ran(list)], Completed))
      && (found == Ok(None) && RunResult(oracle, h + [Ran(list)], add).Ok? ==>
            AddEntryEffect(oracle, h, stack, prot, port) == Effect([Ran(list), Ran(add)], Completed))
      && (found == Ok(None) ==> RemoveEntryEffect(oracle, h, stack, prot, port) == Effect([Ran(list)], Completed))
  {
  }

  lemma RemoveFoundEffect(oracle: Oracle, h: seq<Event>, stack: int, prot: string, port: int, num: nat)
    requires var list := Command(stack, ListArgs);
      var found := Lookup(RunResult(oracle, h, list), prot, port);
      && found.Ok? && found.value.Some? && found.value.value.num == num
      && RunResult(oracle, h + [Ran(list)], Command(stack, DeleteArgs(num))).Ok?
    ensures RemoveEntryEffect(oracle, h, stack, prot, port)
         == Effect([Ran(Command(stack, ListArgs)), Ran(Command(stack, DeleteArgs(num)))], Completed)
  {
  }

  lemma AddWhenPresent(fw0: Firewall, h: seq<Event>, stack: int, prot: string, port: int)
    requires Good(fw0)
    requires FirstRow(TableOf(Replay(fw0, h), BinName(stack)), prot, port).Some?
    ensures AddEntryEffect(FirewallOracle(fw0), h, stack, prot, port) == Effect([Ran(Command(stack, ListArgs))], Completed)
    ensures Replay(fw0, h + [Ran(Command(stack, ListArgs))]) == Replay(fw0, h)
  {
    ListStep(fw0, h, stack);
    ListLookup(Replay(fw0, h), stack, prot, port);
    EffectCases(FirewallOracle(fw0), h, stack, prot, port);
  }

  lemma AddWhenAbsent(fw0: Firewall, h: seq<Event>, stack: int, prot: string, port: int)
    requires Good(fw0) && Name(prot)
    requires FirstRow(TableOf(Replay(fw0, h), BinName(stack)), prot, port).None?
    ensures var list := Command(stack, ListArgs); var add := Command(stack, AppendArgs(prot, port));
      var fw := Replay(fw0, h); var bin := BinName(stack);
      && AddEntryEffect(FirewallOracle(fw0), h, stack, prot, port) == Effect([Ran(list), Ran(add)], Completed)
      && Replay(fw0, h + [Ran(list), Ran(add)]) == WithTable(fw, bin, TableOf(fw, bin) + [Row("ACCEPT", Lower(prot), Some(port))])
  {
    var fw := Replay(fw0, h);
    var list := Command(stack, ListArgs);
    var add := Command(stack, AppendArgs(prot, port));
    var oracle := FirewallOracle(fw0);
    ListStep(fw0, h, stack);
    ListLookup(fw, stack, prot, port);
    AppendStep(fw, stack, prot, port);
    assert RunResult(oracle, h + [Ran(list)], add) == Ok([]);
    EffectCases(oracle, h, stack, prot, port);
    ReplayTwo(fw0, h, Ran(list), Ran(add));
  }

  /** `add_entry` against a well-formed firewall always completes and leaves
      a matching rule in the chain of its stack: the chain is untouched when
      one was already there, and gains one accepting row at the end
      otherwise. */
  lemma AddEntryEstablishes(fw0: Firewall, h: seq<Event>, stack: int, prot: string, port: int)
    requires Good(fw0) && Name(prot)
    ensures var fw := Replay(fw0, h); var bin := BinName(stack); var t := TableOf(fw, bin);
      var e := AddEntryEffect(FirewallOracle(fw0), h, stack, prot, port);
      var after := Replay(fw0, h + e.events);
      && e.report == Completed
      && Good(after)
      && FirstRow(TableOf(after, bin), prot, port).Some?
      && (FirstRow(t, prot, port).Some? ==> e.events == [Ran(Command(stack, ListArgs))] && after == fw)
      && (FirstRow(t, prot, port).None? ==>
            after == WithTable(fw, bin, t + [Row("ACCEPT", Lower(prot), Some(port))]))
  {
    var fw := Replay(fw0, h);
    var bin := BinName(stack);
    var t := TableOf(fw, bin);
    var e := AddEntryEffect(FirewallOracle(fw0), h, stack, prot, port);
    var list := Command(stack, ListArgs);
    if FirstRow(t, prot, port).Some? {
      AddWhenPresent(fw0, h, stack, prot, port);
      assert h + e.events == h + [Ran(list)];
    } else {
      AddWhenAbsent(fw0, h, stack, prot, port);
      assert h + e.events == h + [Ran(list), Ran(Command(stack, AppendArgs(prot, port)))];
      FirstRowAppend(t, Row("ACCEPT", Lower(prot), Some(port)), prot, port);
    }
    ReplayKeepsGood(fw0, h + e.events);
  }

  /** `add_entry` against a well-formed firewall completes. */
  lemma AddEntryCompletes(fw0: Firewall, h: seq<Event>, stack: int, prot: string, port: int)
    requires Good(fw0) && Name(prot)
    ensures AddEntryEffect(FirewallOracle(fw0), h, stack, prot, port).report == Completed
  {
    AddEntryEstablishes(fw0, h, stack, prot, port);
  }

  lemma RemoveWhenAbsent(fw0: Firewall, h: seq<Event>, stack: int, prot: string, port: int)
    requires Good(fw0)
    requires FirstRow(TableOf(Replay(fw0, h), BinName(stack)), prot, port).None?
    ensures RemoveEntryEffect(FirewallOracle(fw0), h, stack, prot, port) == Effect([Ran(Command(stack, ListArgs))], Completed)
    ensures Replay(fw0, h + [Ran(Command(stack, ListArgs))]) == Replay(fw0, h)
  {
    ListStep(fw0, h, stack);
    ListLookup(Replay(fw0, h), stack, prot, port);
    EffectCases(FirewallOracle(fw0), h, stack, prot, port);
  }

  lemma RemoveWhenPresent(fw0: Firewall, h: seq<Event>, stack: int, prot: string, port: int, k: nat)
    requires Good(fw0)
    requires FirstRow(TableOf(Replay(fw0, h), BinName(stack)), prot, port) == Some(k)
    ensures var list := Command(stack, ListArgs); var del := Command(stack, DeleteArgs(k + 1));
      var fw := Replay(fw0, h); var bin := BinName(stack); var t := TableOf(fw, bin);
      && RemoveEntryEffect(FirewallOracle(fw0), h, stack, prot, port) == Effect([Ran(list), Ran(del)], Completed)
      && Replay(fw0, h + [Ran(list), Ran(del)]) == WithTable(fw, bin, t[..k] + t[k + 1..])
  {
    RemovePresentReport(fw0, h, stack, prot, port, k);
    RemovePresentReplay(fw0, h, stack, k);
  }

  /** The commands `remove_entry` runs when the chain holds a matching row. */
  lemma RemovePresentReport(fw0: Firewall, h: seq<Event>, stack: int, prot: string, port: int, k: nat)
    requires Good(fw0)
    requires FirstRow(TableOf(Replay(fw0, h), BinName(stack)), prot, port) == Some(k)
    ensures RemoveEntryEffect(FirewallOracle(fw0), h, stack, prot, port)
         == Effect([Ran(Command(stack, ListArgs)), Ran(Command(stack, DeleteArgs(k + 1)))], Completed)
  {
    var fw := Replay(fw0, h);
    var t := TableOf(fw, BinName(stack));
    var list := Command(stack, ListArgs);
    var del := Command(stack, DeleteArgs(k + 1));
    var oracle := FirewallOracle(fw0);
    ListStep(fw0, h, stack);
    var found := Lookup(Ok(Listing(t)), prot, port);
    assert found.Ok? && found.value.Some? && found.value.value.num == k + 1 by {
      ListLookup(fw, stack, prot, port);
    }
    assert Run(fw, del).0 == Some([]) by {
      DeleteStep(fw, stack, k);
    }
    assert RunResult(oracle, h + [Ran(list)], del) == Ok([]);
    RemoveFoundEffect(oracle, h, stack, prot, port, k + 1);
  }

  /** Listing the chain and then deleting its row `k + 1` leaves the chain
      without that row. */
  lemma RemovePresentReplay(fw0: Firewall, h: seq<Event>, stack: int, k: nat)
    requires Good(fw0)
    requires k < |TableOf(Replay(fw0, h), BinName(stack))|
    ensures var fw := Replay(fw0, h); var bin := BinName(stack); var t := TableOf(fw, bin);
      Replay(fw0, h + [Ran(Command(stack, ListArgs)), Ran(Command(stack, DeleteArgs(k + 1)))])
        == WithTable(fw, bin, t[..k] + t[k + 1..])
  {
    var fw := Replay(fw0, h);
    var list := Command(stack, ListArgs);
    var del := Command(stack, DeleteArgs(k + 1));
    ListStep(fw0, h, stack);
    DeleteStep(fw, stack, k);
    ReplayTwo(fw0, h, Ran(list), Ran(del));
  }

  /** `remove_entry` against a well-formed firewall always completes: the
      first matching row of the chain of its stack is deleted, and nothing
      changes when there is none. */
  lemma RemoveEntryDeletes(fw0: Firewall, h: seq<Event>, stack: int, prot: string, port: int)
    requires Good(fw0)
    ensures var fw := Replay(fw0, h); var bin := BinName(stack); var t := TableOf(fw, bin);
      var e := RemoveEntryEffect(FirewallOracle(fw0), h, stack, prot, port);
      var after := Replay(fw0, h + e.events);
      var k := FirstRow(t, prot, port);
      && e.report == Completed
      && (k.None? ==> e.events == [Ran(Command(stack, ListArgs))] && after == fw)
      && (k.Some? ==> after == WithTable(fw, bin, t[..k.value] + t[k.value + 1..]))
  {
    var k := FirstRow(TableOf(Replay(fw0, h), BinName(stack)), prot, port);
    var e := RemoveEntryEffect(FirewallOracle(fw0), h, stack, prot, port);
    var list := Command(stack, ListArgs);
    if k.Some? {
      RemoveWhenPresent(fw0, h, stack, prot, port, k.value);
      assert h + e.events == h + [Ran(list), Ran(Command(stack, DeleteArgs(k.value + 1)))];
    } else {
      RemoveWhenAbsent(fw0, h, stack, prot, port);
      assert h + e.events == h + [Ran(list)];
    }
  }

  /** A second `add_entry` finds the rule the first one left and only lists. */
  lemma AddIsIdempotent(fw0: Firewall, h: seq<Event>, stack: int, prot: string, port: int)
    requires Good(fw0) && Name(prot)
    ensures var h1 := h + AddEntryEffect(FirewallOracle(fw0), h, stack, prot, port).events;
      var e2 := AddEntryEffect(FirewallOracle(fw0), h1, stack, prot, port);
      && e2.events == [Ran(Command(stack, ListArgs))]
      && Replay(fw0, h1 + e2.events) == Replay(fw0, h1)
  {
    var h1 := h + AddEntryEffect(FirewallOracle(fw0), h, stack, prot, port).events;
    AddEntryEstablishes(fw0, h, stack, prot, port);
    AddEntryEstablishes(fw0, h1, stack, prot, port);
  }

  /** Events that launch or stop programs and run no command. */
  predicate ProgramsOnly(mid: seq<Event>)
  {
    forall i :: 0 <= i < |mid| ==> !mid[i].Ran?
  }

  /** Two stretches of program events, one after the other. */
  lemma ProgramsOnlyAppend(h: seq<Event>, a: seq<Event>, b: seq<Event>)
    requires ProgramsOnly(a) && ProgramsOnly(b)
    ensures ProgramsOnly(a + b) && h + a + b == h + (a + b)
  {
    assert forall i :: 0 <= i < |a + b| ==> (a + b)[i] == if i < |a| then a[i] else b[i - |a|];
  }

  /** What a machine does besides running commands (launching and stopping
      programs) leaves the firewall alone. */
  lemma {:induction false} ReplayIgnoresPrograms(fw0: Firewall, h: seq<Event>, mid: seq<Event>)
    requires ProgramsOnly(mid)
    ensures Replay(fw0, h + mid) == Replay(fw0, h)
    decreases |mid|
  {
    if mid != [] {
      var m := mid[..|mid| - 1];
      ReplayIgnoresPrograms(fw0, h, m);
      assert h + mid == (h + m) + [mid[|mid| - 1]];
      ReplayStep(fw0, h + m, mid[|mid| - 1]);
    } else {
      assert h + mid == h;
    }
  }

  /** Adding an entry that was missing, launching and stopping programs, and
      then removing the entry gives back the firewall as it was. */
  lemma AddThenRemoveRestores(fw0: Firewall, h: seq<Event>, mid: seq<Event>, stack: int, prot: string, port: int)
    requires Good(fw0) && Name(prot)
    requires ProgramsOnly(mid)
    requires FirstRow(TableOf(Replay(fw0, h), BinName(stack)), prot, port).None?
    ensures var h1 := h + AddEntryEffect(FirewallOracle(fw0), h, stack, prot, port).events + mid;
      var h2 := h1 + RemoveEntryEffect(FirewallOracle(fw0), h1, stack, prot, port).events;
      Replay(fw0, h2) == Replay(fw0, h)
  {
    var fw := Replay(fw0, h);
    var bin := BinName(stack);
    var t := TableOf(fw, bin);
    var row := Row("ACCEPT", Lower(prot), Some(port));
    var list := Command(stack, ListArgs);
    var u := t + [row];
    assert u[..|t|] + u[|t| + 1..] == t;
    AddWhenAbsent(fw0, h, stack, prot, port);
    var h1 := h + [Ran(list), Ran(Command(stack, AppendArgs(prot, port)))];
    var fw1 := WithTable(fw, bin, u);
    assert Replay(fw0, h1) == fw1 && TableOf(fw1, bin) == u;
    ReplayIgnoresPrograms(fw0, h1, mid);
    FirstRowAppend(t, row, prot, port);
    RemoveWhenPresent(fw0, h1 + mid, stack, prot, port, |t|);
    assert WithTable(fw1, bin, t) == fw;
  }

  /** When a rule already matched, adding finds it, and the removal after the
      programs ran deletes that rule, although the add did not create it. */
  lemma AddThenRemoveDeletesFirst(fw0: Firewall, h: seq<Event>, mid: seq<Event>, stack: int, prot: string, port: int,
                                  k: nat)
    requires Good(fw0)
    requires ProgramsOnly(mid)
    requires FirstRow(TableOf(Replay(fw0, h), BinName(stack)), prot, port) == Some(k)
    ensures var h1 := h + AddEntryEffect(FirewallOracle(fw0), h, stack, prot, port).events + mid;
      var h2 := h1 + RemoveEntryEffect(FirewallOracle(fw0), h1, stack, prot, port).events;
      var fw := Replay(fw0, h); var bin := BinName(stack); var t := TableOf(fw, bin);
      Replay(fw0, h2) == WithTable(fw, bin, t[..k] + t[k + 1..])
  {
    var list := Command(stack, ListArgs);
    AddWhenPresent(fw0, h, stack, prot, port);
    var h1 := h + [Ran(list)];
    assert h + AddEntryEffect(FirewallOracle(fw0), h, stack, prot, port).events == h1;
    ReplayIgnoresPrograms(fw0, h1, mid);
    RemoveWhenPresent(fw0, h1 + mid, stack, prot, port, k);
  }

  /** Add, programs, then remove, in both cases. */
  lemma AddThenRemove(fw0: Firewall, oracle: Oracle, h: seq<Event>, mid: seq<Event>, stack: int, prot: string, port: int)
    requires Good(fw0) && oracle == FirewallOracle(fw0) && Name(prot) && ProgramsOnly(mid)
    ensures var h1 := h + AddEntryEffect(oracle, h, stack, prot, port).events + mid;
      var h2 := h1 + RemoveEntryEffect(oracle, h1, stack, prot, port).events;
      var fw := Replay(fw0, h); var bin := BinName(stack); var t := TableOf(fw, bin);
      var k := FirstRow(t, prot, port);
      && (k.None? ==> Replay(fw0, h2) == fw)
      && (k.Some? ==> Replay(fw0, h2) == WithTable(fw, bin, t[..k.value] + t[k.value + 1..]))
  {
    var k := FirstRow(TableOf(Replay(fw0, h), BinName(stack)), prot, port);
    if k.None? {
      AddThenRemoveRestores(fw0, h, mid, stack, prot, port);
    } else {
      AddThenRemoveDeletesFirst(fw0, h, mid, stack, prot, port, k.value);
    }
  }

  /** A chain of one port row lists as that row's rule, numbered 1. */
  lemma OneRowListing(row: Row, port: int)
    requires Name(row.target) && Name(row.protocol) && row.dport == Some(port)
    ensures ParsedTable(Listing([row])) == Ok([Rule(1, row.target, row.protocol, port)])
  {
    var t := [row];
    assert t[0] == row && t[1..] == [];
    assert Rules(t, 1) == [Rule(1, row.target, row.protocol, port)];
    assert WellFormed(t);
    ListingRoundTrip(t);
  }

  /** As written, `get_entry` misses the rule that adding a protocol name
      with an upper-case letter (at `i`) leaves in an empty chain: the tool
      keeps the name in lower case, which the verbatim comparison rejects,
      so every later add appends the rule again and no remove finds it.
      The lower-casing test finds it. */
  lemma MixedCaseRuleMissedAsWritten(fw: Firewall, stack: int, prot: string, port: int, i: nat)
    requires TableOf(fw, BinName(stack)) == [] && Name(prot) && Lower(prot) != "all"
    requires i < |prot| && 'A' <= prot[i] <= 'Z'
    ensures var t := TableOf(Run(fw, Command(stack, AppendArgs(prot, port))).1, BinName(stack));
      var rule := Rule(1, "ACCEPT", Lower(prot), port);
      && t == [Row("ACCEPT", Lower(prot), Some(port))]
      && ParsedTable(Listing(t)) == Ok([rule])
      && !MatchesAsWritten(rule, prot, port)
      && Matches(rule, prot, port)
  {
    var bin := BinName(stack);
    var row := Row("ACCEPT", Lower(prot), Some(port));
    AppendStep(fw, stack, prot, port);
    assert TableOf(fw, bin) + [row] == [row];
    LowerKeepsSpaces(prot);
    assert Name("ACCEPT");
    OneRowListing(row, port);
    assert Lower(prot)[i] != prot[i];
  }

  /** `TCP`, a name the forwarder accepts, is such a name. */
  lemma UpperCaseTcp()
    ensures Name("TCP") && 'A' <= "TCP"[0] <= 'Z' && Lower("TCP") == "tcp" && "tcp" != "all"
  {
    var lowered := Lower("TCP");
    assert lowered[0] == 't' && lowered[1] == 'c' && lowered[2] == 'p';
  }
}
