# DynNatTunnel core, modelled in Dafny

DynNatTunnel forwards ports on a machine toward a host known only by DNS
name. Each forward is a **tunnel**. A tunnel opens the source port in the
local firewall through `iptables` or `ip6tables`. It resolves the
destination name and launches `socat` from the source port to the address it
found. A **DNS watcher** polls every registered name. When a name's answer no
longer holds the address last seen, the watcher notifies the tunnels that
forward to it. Each of those tunnels then stops its `socat` and starts a new
one toward the new address. A small **event hook** keeps an ordered list of
handlers.

The model has one module per core file, plus three support modules:

- `DnsWatcher` (`dns_watcher.dfy`):
  - the detection rule of an entry watch, as functions (`Observe`, `Next`,
    `Notifications`);
  - the classes `EntryWatch` and `DnsWatcher`, whose methods update their
    fields as the source does;
  - the polling loop, driven by an explicit schedule of resolver answers.
- `Iptables` (`iptables.dfy`):
  - the listing parser (`ParseLine`, `ParsedTable`) and the rule lookup
    (`FirstMatch`, `Lookup`);
  - the commands the reconciler runs;
  - the class `Iptables`, whose methods run commands on the machine.
  - The effect of `add_entry` and `remove_entry` on the machine's history is
    also given as functions, `AddEntryEffect` and `RemoveEntryEffect`.
- `FirewallModel` (`firewall_model.dfy`): a reference model of the firewall
  tool.
  - It holds an INPUT chain per stack and says how `-L`, `-A` and `-D` act on
    it.
  - Its lemmas state what the reconciler achieves against it: the listing
    round-trips through the parser, adding establishes a matching rule,
    adding twice is adding once, and removing undoes adding.
  - At the tunnel level, `start()` then `stop()` give back the firewall as it
    was when no rule opened the port before. When one did, `stop()` deletes
    the first such rule, although the tunnel did not add it: the source keeps
    no record of which rule it added.
- `Socat` (`socat.dfy`):
  - the argument strings of a forwarder, with decoders proved to be their
    inverses;
  - the builder's validation;
  - the classes `Socat` and `SocatBuilder`.
- `Tunnel` (`tunnel.dfy`): the class `Tunnel`.
  - Each of its methods is tied to the machine's history and to the
    forwarder it holds.
  - `Planned` states in one place what the builder chain accepts.
- `Events` (`events.dfy`): the class `EventHook`.
- Support modules:
  - `Host` (`host.dfy`): the machine the programs run on. It records every
    run, launch and stop request in a log. The output of a synchronous run
    comes from an oracle on that log, so external programs are inputs.
  - `Text` (`text.dfy`): the Python string built-ins the core relies on:
    `str(int)`, `int(str)`, `isdigit`, `re.split(" +")`, `split(':', 2)`,
    `in` and `lower`.
  - `Common` (`common.dfy`): shared datatypes. `Option` stands for `None`;
    `Result` and `Outcome` carry a Python exception.

Exceptions are values. `Raise(e)` or `Raised(e)` stands for an exception that
escapes the Python function. A caught `SubprocessError` becomes a warning
report.

## Model

| member | source | states |
|---|---|---|
| Text.NatToStringValue | util/Iptables.py:80-82 | the digits printed for a line number read back as the same number, so `int(num)` recovers it |
| Text.IntToStringRoundTrip | util/Iptables.py:89-90 | `int(str(port))` gives back every integer, negative ones included |
| Text.SpaceSplitJoin | util/Iptables.py:78 | splitting on runs of spaces gives back the columns that were joined with non-empty gaps |
| Text.LowerIdempotent | util/Socat.py:80 | lower-casing twice is lower-casing once |
| Host.Machine.Run | util/Iptables.py:69-73 | a synchronous run appends exactly one `Ran` event; it returns the printed lines, or `SubprocessError` when the program fails |
| Host.Machine.Launch | util/Socat.py:54-56 | a background start appends one `Launched` event and names the program by that event's position |
| Host.Machine.Terminate | util/Socat.py:62 | a stop request appends one `StopRequested` event for that program |
| Events.FirstIndex | util/Events.py:21-23 | the position `list.remove` deletes at holds the handler, and no earlier position does |
| Events.RemovedOnce | util/Events.py:21-23 | removing deletes exactly one copy of the handler (as multisets, the result plus that handler is the old list) and keeps the order of the others |
| Events.EventHook.constructor | util/Events.py:11-15 | a new hook has no handlers |
| Events.EventHook.Add | util/Events.py:17-19 | `+=` appends the handler at the end |
| Events.EventHook.Remove | util/Events.py:21-23 | `-=` deletes the first occurrence; an unregistered handler raises ValueError and leaves the list unchanged |
| Events.EventHook.AddTop | util/Events.py:25-31 | `add_top` puts the handler before all others |
| Events.EventHook.Fire | util/Events.py:33-41 | firing calls every handler once, in list order, with the same arguments |
| DnsWatcher.FirstCheckIsSilent | util/DnsWatcher.py:31-34 | the first non-empty answer records its first IP and notifies nobody |
| DnsWatcher.PresentIsUnchanged | util/DnsWatcher.py:31-36 | an answer that holds the stored IP at any position changes nothing and notifies nobody |
| DnsWatcher.AbsentIsChange | util/DnsWatcher.py:30-43 | an answer without the stored IP stores the answer's last IP and notifies every listener once, in order, with it |
| DnsWatcher.EmptyAnswerClears | util/DnsWatcher.py:30-43 | an empty answer clears the stored IP and notifies every listener with None |
| DnsWatcher.RepeatIsSilent | util/DnsWatcher.py:24-43 | checking the same non-empty answer a second time is always silent |
| DnsWatcher.KeySeparatesPairs | util/DnsWatcher.py:85 | for stacks 4 and 6, two registrations share a key exactly when their address and stack are equal |
| DnsWatcher.EntryWatch.constructor | util/DnsWatcher.py:16-22 | a new watch maps stack 6 to AF_INET6 and anything else to AF_INET, with no listeners and no stored IP |
| DnsWatcher.EntryWatch.Check | util/DnsWatcher.py:24-43 | the scanning loop stores `Next` of the stored IP and the answer, and makes exactly the listener calls `Observe` decides |
| DnsWatcher.EntryWatch.AddListener | util/DnsWatcher.py:45-46 | the callback goes last |
| DnsWatcher.EntryWatch.Resolve | util/DnsWatcher.py:48-50 | gives the answer's first IP; IndexError on an empty answer |
| DnsWatcher.CheckEach | util/DnsWatcher.py:100-101 | checking distinct watches in order updates each one by `Next` and collects their calls in order |
| DnsWatcher.DnsWatcher.Watches | util/DnsWatcher.py:100 | `_addrs.values()` lists each watch once, in insertion order of its key |
| DnsWatcher.DnsWatcher.constructor | util/DnsWatcher.py:71-76 | a new watcher is not running and holds no watches |
| DnsWatcher.RegistryInsert | util/DnsWatcher.py:91-93 | a new watch stored under its own key keeps each key listed once, each watch under the key of its address and stack, and each watch resolving with the family of its stack (AF_INET6 for stack 6, util/DnsWatcher.py:19) |
| DnsWatcher.DnsWatcher.Add | util/DnsWatcher.py:78-94 | a known key gets the callback appended to its existing watch, with nothing else changed; a new key gets a fresh watch for the address and stack, resolving with AF_INET6 for stack 6 and AF_INET otherwise, with exactly that listener, added last |
| DnsWatcher.DnsWatcher.Check | util/DnsWatcher.py:96-101 | every watch is checked once, in registration order; listeners stay as they were |
| DnsWatcher.DnsWatcher.Stop | util/DnsWatcher.py:103-104 | the loop flag is cleared |
| DnsWatcher.DnsWatcher.Poll | util/DnsWatcher.py:112-114 | one loop pass checks every watch and then takes note of a stop request |
| DnsWatcher.DnsWatcher.WaitForChanges | util/DnsWatcher.py:106-114 | the loop runs until the tick after a stop request; after `n` ticks each stored IP is the `n`-fold `Next` of the answers; the registrations are unchanged |
| DnsWatcher.WatchOne | test/EntryWatchTest.py:16-17 | a new watcher with one registration holds exactly one fresh watch, with the family of its stack and that one listener |
| DnsWatcher.CheckSingle | test/EntryWatchTest.py:18-30 | each `watcher.check()` on that watcher makes exactly the listener calls of its single watch |
| DnsWatcher.EntryWatchScenario | test/EntryWatchTest.py:7-30 | the callback counts after the four checks are 0, 0, 1, 1 |
| Iptables.ParsedTableAppend | util/Iptables.py:75-92 | lines are parsed independently, so the rules of two listings appended are the rules of each, appended |
| Iptables.SkippedLine | util/Iptables.py:78-87 | a line whose first column is not digits, or one with at least three columns whose last column lacks `dpt`, adds no rule (a numbered line with fewer columns raises IndexError instead) |
| Iptables.KeptLine | util/Iptables.py:78-91 | a rule line adds its rule in front of the rules of the lines after it |
| Iptables.RuleColumns | util/Iptables.py:78-91 | columns with a number, target, protocol and a `dpt:<port>` last column parse to exactly that rule |
| Iptables.DportColumn | util/Iptables.py:86-90 | a `dpt:<p>` column contains `dpt` and splits at `:` into `dpt` and `p` |
| Iptables.NoDportColumn | util/Iptables.py:85-87 | a last column without `d` is skipped |
| Iptables.FirstMatch | util/Iptables.py:30-39 | gives the first ACCEPT rule on the port whose protocol is `all` or the asked one in lower case, or None exactly when no rule matches |
| Iptables.MatchesLowerCase | util/Iptables.py:35 | for a protocol already in lower case, the lower-casing comparison agrees with the verbatim one of the source |
| Iptables.Command | util/Iptables.py:65-67 | the program is `ip6tables` for stack 6 and `iptables` otherwise, followed by the arguments |
| Iptables.ReconcileShape | util/Iptables.py:41-63 | adding and removing always list first; add runs the append only when no rule matched; remove runs the delete, with the found rule's number, only when one did; a SubprocessError never escapes |
| Iptables.Iptables.constructor | util/Iptables.py:22-24 | the reconciler keeps its stack |
| Iptables.Iptables.Execute | util/Iptables.py:65-73 | runs the binary with the arguments, once, and gives the output lines or SubprocessError |
| Iptables.Iptables.ParseTable | util/Iptables.py:75-92 | the parsing loop computes `ParsedTable`, including the ValueError of a port column that is not an integer |
| Iptables.Iptables.FindRule | util/Iptables.py:30-39 | the loop returns the first rule that is ACCEPT, on the port, and for `all` or the asked protocol in lower case, or None when there is none (`FirstMatch`) |
| Iptables.Iptables.GetEntry | util/Iptables.py:26-39 | one listing command, then the first matching rule of its parsed output, the protocol compared in lower case |
| Iptables.Iptables.AddEntry | util/Iptables.py:41-52 | the commands run and the report are those of `AddEntryEffect` |
| Iptables.Iptables.RemoveEntry | util/Iptables.py:54-63 | the commands run and the report are those of `RemoveEntryEffect` |
| Iptables.TestListingParses | test/IptablesTest.py:10-19 | the test's listing parses to the rules 2, 3, 4, 5 and 7, with ports 222, 80, 443, 8443 and 32400 |
| Iptables.ListCommandV4 | util/Iptables.py:27 | the IPv4 listing command is `iptables -L input -n --line-number` |
| Iptables.ExistingRuleRunsOneCommand | test/IptablesTest.py:9-29 | with the test's listing, adding tcp 443 runs one command only |
| Iptables.NewRuleRunsTwoCommands | test/IptablesTest.py:31-41 | with an empty listing, adding tcp 443 runs the listing and then the append |
| FirewallModel.RowLineParses | util/Iptables.py:78-91 | a row printed by `-L` parses back to its rule, or is skipped when it has no port |
| FirewallModel.RowLinesParse | util/Iptables.py:75-92 | the printed rows, numbered from `n`, parse back to their rules |
| FirewallModel.ListingRoundTrip | util/Iptables.py:75-92 | a whole `-L` listing parses back to the chain's rules, numbered from 1 |
| FirewallModel.FirstRow | util/Iptables.py:30-39 | the first row that opens the port for the protocol, or None exactly when no row does |
| FirewallModel.FirstMatchIsFirstRow | util/Iptables.py:30-39 | the rule lookup on the parsed listing finds the first matching row, and its number is its position plus the first number |
| FirewallModel.ReplayKeepsGood | util/Iptables.py:65-73 | no command sequence run against the firewall breaks its well-formedness |
| FirewallModel.ListLookup | util/Iptables.py:26-39 | listing changes nothing, and the lookup finds a rule exactly when a row matches, under the row's line number |
| FirewallModel.AddEntryEstablishes | util/Iptables.py:41-52 | after adding, a matching rule exists; an existing one leaves the firewall as it was, otherwise exactly one ACCEPT row is appended |
| FirewallModel.RemoveEntryDeletes | util/Iptables.py:54-63 | removing deletes exactly the first matching row, or changes nothing when none matches |
| FirewallModel.AddEntryCompletes | util/Iptables.py:41-52 | against the reference firewall, adding always completes without a warning |
| FirewallModel.AddIsIdempotent | util/Iptables.py:41-52 | a second add runs only the listing and changes nothing, whatever the case of the protocol name |
| FirewallModel.ReplayIgnoresPrograms | util/Tunnel.py:22-33 | launching and stopping programs leaves the firewall as it was |
| FirewallModel.AddThenRemoveRestores | util/Iptables.py:41-63 | when no rule matched, adding, then any launches and stops, then removing gives back the firewall as it was |
| FirewallModel.AddThenRemoveDeletesFirst | util/Iptables.py:41-63 | when a rule already matched, adding changes nothing and the later removal deletes that first matching row |
| FirewallModel.AddThenRemove | util/Iptables.py:41-63 | adding then removing, with launches and stops between, restores the firewall when no rule matched and otherwise deletes the first matching row |
| FirewallModel.OneRowListing | util/Iptables.py:75-92 | the listing of a chain of one ACCEPT row parses to that one rule, numbered 1 |
| FirewallModel.MixedCaseRuleMissedAsWritten | util/Iptables.py:35 | after appending a rule for a protocol with an upper-case letter, the listed rule carries the lower-case name, the verbatim comparison misses it and the lower-casing one finds it |
| FirewallModel.UpperCaseTcp | util/Socat.py:80 | `TCP` is a name with an upper-case letter that lower-cases to `tcp`, not `all` |
| Socat.PortText | util/Socat.py:40 | a port prints without `:` or `,`; an unset port prints as None |
| Socat.PortTextRoundTrip | util/Socat.py:40-51 | the printed port reads back as the same port |
| Socat.HostPortDecodes | util/Socat.py:45-51 | the destination host, bracketed for stack 6, followed by `:` and the port, reads back as the address and the port, even when the address holds colons |
| Socat.Arguments | util/Socat.py:31-52 | the command line is `socat`, listen and target, and it is a TypeError exactly when the address is unset |
| Socat.ListenArgDecodes | util/Socat.py:38-41 | the listen argument gives back its protocol, stack and port |
| Socat.TargetArgDecodes | util/Socat.py:43-52 | the target argument gives back its protocol, stack, address and port, for any address |
| Socat.PortCheck | util/Socat.py:112-116 | accepts exactly `0 < port < 65535`; otherwise raises ValueError with the tag and the port |
| Socat.StackCheck | util/Socat.py:106-110 | accepts exactly stacks 4 and 6; otherwise raises ValueError with the tag and the stack |
| Socat.ProtocolCode | util/Socat.py:79-85 | accepts exactly `tcp` and `udp` in any case, maps `tcp` to PROT_TCP, and otherwise raises ValueError naming the lower-cased protocol |
| Socat.ProtocolCaseInsensitive | util/Socat.py:80 | the protocol's case never matters |
| Socat.KnownProtocols | util/Socat.py:79-85 | tcp, TCP, udp and Udp are known; sctp is not |
| Socat.Socat.constructor | util/Socat.py:20-28 | keeps the settings, with no process |
| Socat.Socat.Start | util/Socat.py:30-56 | launches exactly the `Arguments` command line and holds that process; with an unset address it raises TypeError and launches nothing |
| Socat.Socat.Stop | util/Socat.py:58-63 | a running process gets one stop request and is forgotten; without one nothing happens |
| Socat.StopTwice | util/Socat.py:58-63 | stopping twice sends at most one stop request |
| Socat.SocatBuilder.constructor | util/Socat.py:70-77 | the defaults are TCP, source stack 4, destination stack 6 and no ports or address |
| Socat.SocatBuilder.Protocol | util/Socat.py:79-85 | sets the code of a known protocol; an unknown one raises and changes nothing |
| Socat.SocatBuilder.FromAddress | util/Socat.py:87-92 | a bad port raises before anything is stored; a good port is stored even when the stack is then rejected |
| Socat.SocatBuilder.ToAddress | util/Socat.py:94-100 | as above for the destination; the address is stored only when both checks pass |
| Socat.SocatBuilder.Build | util/Socat.py:102-104 | a fresh forwarder with the builder's settings and no process |
| Tunnel.Planned | util/Tunnel.py:35-39 | the builder chain succeeds exactly for a valid forward, with its settings; otherwise it raises the first ValueError |
| Tunnel.RetargetKeepsSettings | util/Tunnel.py:50-53 | a new destination IP changes only the forwarder's address, never whether it is accepted |
| Tunnel.ForwarderArguments | util/Tunnel.py:35-41 | for a valid forward toward an IP, socat listens on the source stack and port and connects to that IP on the destination stack and port, with the configured protocol |
| Tunnel.Tunnel.constructor | util/Tunnel.py:14-20 | the tunnel holds a firewall for the source stack and no forwarder, and joins the watch of its destination key as that watch's last listener, reusing a watch that already existed; the watcher's keys, running flag and other watches are as `add` leaves them, and only the watcher and that watch are changed |
| Tunnel.Tunnel.Register | util/Tunnel.py:19 | the watch held is the watcher's entry for the destination key, with the tunnel appended to the listeners it had before and its stored IP kept; a new key is appended to the watcher's keys and no other watch changes |
| Tunnel.RegisterOne | util/Tunnel.py:14-20 | a tunnel built on an empty watcher is the single listener of the single watch, under its destination key, which resolves with the family of the destination stack |
| Tunnel.RegisterTwo | util/DnsWatcher.py:78-94 | two tunnels toward different keys get two watches, in creation order, each with its tunnel as only listener |
| Tunnel.Tunnel.StartTunnel | util/Tunnel.py:35-41 | a rejected setting changes nothing; otherwise a fresh forwarder with the planned settings is held and launched, unless the address is unset |
| Tunnel.Tunnel.StopTunnel | util/Tunnel.py:43-48 | the held forwarder, if it runs, gets one stop request, and none is held afterwards |
| Tunnel.Tunnel.Start | util/Tunnel.py:22-29 | opens the firewall first; an escaping error or an empty DNS answer stops there; otherwise a forwarder starts toward the first IP; the forwarder held afterwards is the old one or a new one |
| Tunnel.Tunnel.StartedLaunches | util/Tunnel.py:22-29 | after the firewall commands, `start()` adds at most launch events to the log |
| Tunnel.StartPrograms | util/Tunnel.py:22-29 | when adding completes, the log after `start()` is the add's commands followed by launches only |
| Tunnel.StopPrograms | util/Tunnel.py:31-33 | the log after `stop()` is stop requests only, followed by the removal's commands |
| Tunnel.StartStopLog | util/Tunnel.py:22-33 | `start()` then `stop()` log the add's commands, launches and stop requests, then the removal's commands computed on that log |
| Tunnel.StartThenStop | util/Tunnel.py:22-33 | against the reference firewall, `start()` then `stop()` leave the firewall as it was when no rule opened the port, and otherwise delete the first rule that did |
| Tunnel.Tunnel.Stop | util/Tunnel.py:31-33 | stops the forwarder, then always runs the firewall removal; only a non-SubprocessError escapes |
| Tunnel.Tunnel.DnsChanged | util/Tunnel.py:50-53 | the old forwarder is stopped before a new one starts toward the new IP |
| Tunnel.StopTwice | util/Tunnel.py:31-33 | a second stop sends no stop request and only runs the firewall removal again |

## Left out

- Process control (util/Process.py) is reduced to its contract in `Host`: a run gives output lines or SubprocessError, a launch starts a program, a stop asks it to end. Pipes, reader threads, output decoding and `print_args` are not modelled.
- `socket.getaddrinfo` is the `Resolver` input. It yields the list of IPs directly. Resolution errors (`gaierror`) and their log line are not modelled.
- The `sleep(60)` between polls is dropped. The polling loop is modelled over a finite schedule of ticks. Where the real loop would wait for more, the model stops when the schedule runs out.
- The thread that `Socat.start` spawns is one `Launched` event. Concurrency between it and the rest is not modelled.
- `EventHook.clear_object_handlers` is not modelled. It reads `im_self`, an attribute that Python 3 bound methods do not have, and it removes while iterating.
- Logging (`Loggable`, `log.warning`, `log.error`) is not modelled. A caught SubprocessError becomes a `Warned` report carrying its message.
- `DnsWatcher._addrs` is a class attribute in the source, shared by all instances (`_check` is set per instance). The model gives each watcher its own map.
- Listener callbacks are not called. A check returns them as `Notify(listener, ip)` values, in call order. In the tunnel, `Notify(t, ip)` stands for `t.DnsChanged(ip)`.
- The entry-watch test's callback takes no argument, and its mocked resolver reply has no socket-address tuple. The scenario uses one-argument listeners and a resolver that gives the IPs directly.
- The command-line program (`tunnel.py`: arguments, JSON configuration, signal handling, thread start-up) and `config/Config.py` are not part of this model. The configuration types appear as the datatypes `PortConfig` and `ForwardConfig`.
- `isdigit`, `int` and `lower` are modelled for ASCII only. `int()` is modelled with an optional `+` or `-` sign; the leading and trailing whitespace and the underscores it also accepts in a port column are not modelled.
- FirewallModel lists its INPUT chain for the listing command exactly as the reconciler issues it (`-L input`, lower case). Whether the real tool accepts the lower-case chain name is outside the model. The firewall model knows no other chain or table.
- Default parameters (`stack = STACK_IPV_4`) are passed explicitly. The core always passes them.
- Tunnel.Tunnel.Valid does not tie the held watch to the destination address. Keys built from a stack that is neither 4 nor 6 can collide (stack 1 with address "2x", stack 12 with "x"), so for such stacks a tunnel can share another pair's watch.
- DnsWatcher.DnsWatcher.WaitForChanges: does not model the calls the listeners make, since notifications are returned rather than run; only the stored IPs and the stop flag are stated.
- DnsWatcher.EntryWatch.Check: a listener that raises (as `Tunnel._dns_changed(None)` does after an empty answer, when the forwarder's command line is built from None) would abort the remaining listener calls; the model returns every call the loop would make.
- DnsWatcher.DnsWatcher.Check: an exception from one watch's listeners would leave the later watches unchecked; the model checks them all.
- DnsWatcher.DnsWatcher.WaitForChanges: such an exception would also end the polling loop; the model keeps polling until the stop request or the end of the schedule.
- FirewallModel prints a rule's port only as `dpt:<port>`. Rows with a port range (`dpts:<a>:<b>`, which the parser reads as port `a`) and rules in other chains are not represented.
- FirewallModel keeps protocol names in lower case, as the tool prints them whatever case `-p` was given.

## Findings

| source | as written | input that shows it | evidently intended | confidence | as-written member | corrected member |
|---|---|---|---|---|---|---|
| util/Iptables.py:35 | `get_entry` compares the listed protocol with the configured one verbatim, while the tool lists protocols in lower case and the forwarder builder accepts any case | a forward configured with protocol `TCP` on a port with no rule: `add_entry` appends `-p TCP`, the tool lists it as `tcp`, so the next `add_entry` appends the rule again and `remove_entry` does not find it | compare with the lower-cased protocol, as the builder does | not executed | FirewallModel.MixedCaseRuleMissedAsWritten | Iptables.Iptables.FindRule |
