/** One tunnel: a firewall opening for the source port, and a forwarder from
    that port to the current address of the destination host, restarted
    whenever the destination's DNS answer changes.  The tunnel registers
    itself as the listener of its DNS watch; a notification `Notify(t, ip)`
    produced by a check stands for calling `t.DnsChanged(ip)`. */
module Tunnel {
  import opened Common
  import opened Text
  import opened Host
  import opened DnsWatcher
  import opened Iptables
  import opened Socat
  import opened FirewallModel

  /** One end of a forward: an IP stack and a port. */
  datatype PortConfig = PortConfig(stack: int, port: int)

  /** One forward of the configuration: protocol name, source and destination. */
  datatype ForwardConfig = ForwardConfig(prot: string, src: PortConfig, dest: PortConfig)

  /** The settings a forwarder is built with. */
  datatype Settings = Settings(prot: int, srcStack: int, srcPort: int, dstStack: int, dstPort: int,
                               dstAddress: Option<string>)

  /** A forward the builder accepts. */
  predicate ValidConfig(config: ForwardConfig)
  {
    && ProtocolCode(config.prot).Ok?
    && 0 < config.src.port < 65535 && (config.src.stack == STACK_IPV_4 || config.src.stack == STACK_IPV_6)
    && 0 < config.dest.port < 65535 && (config.dest.stack == STACK_IPV_4 || config.dest.stack == STACK_IPV_6)
  }

  /** What `_start_tunnel(ip)` hands the builder, as a result: the
      protocol is checked first, then the source port and stack, then the
      destination port and stack, and the first failure is raised. */
  function Planned(config: ForwardConfig, ip: Option<string>): (r: Result<Settings>)
    ensures r.Ok? <==> ValidConfig(config)
    ensures r.Ok? ==> r.value == Settings(ProtocolCode(config.prot).value, config.src.stack, config.src.port,
                                          config.dest.stack, config.dest.port, ip)
    ensures r.Raise? ==> r.exc.ValueError?
  {
    var code := ProtocolCode(config.prot);
    if code.Raise? then Raise(code.exc)
    else if PortCheck("src", config.src.port).Raised? then Raise(PortCheck("src", config.src.port).exc)
    else if StackCheck("src", config.src.stack).Raised? then Raise(StackCheck("src", config.src.stack).exc)
    else if PortCheck("dst", config.dest.port).Raised? then Raise(PortCheck("dst", config.dest.port).exc)
    else if StackCheck("dst", config.dest.stack).Raised? then Raise(StackCheck("dst", config.dest.stack).exc)
    else Ok(Settings(code.value, config.src.stack, config.src.port, config.dest.stack, config.dest.port, ip))
  }

  /** The command line of a forwarder with these settings. */
  function LaunchArgs(s: Settings): Result<seq<string>>
  {
    Arguments(s.prot, s.srcStack, Some(s.srcPort), s.dstStack, Some(s.dstPort), s.dstAddress)
  }

  /** A forwarder holds exactly these settings. */
  predicate Holds(f: Socat, s: Settings)
  {
    && f.prot == s.prot && f.srcStack == s.srcStack && f.srcPort == Some(s.srcPort)
    && f.dstStack == s.dstStack && f.dstPort == Some(s.dstPort) && f.dstAddress == s.dstAddress
  }

  /** Retargeting a forward changes only the destination address. */
  lemma RetargetKeepsSettings(config: ForwardConfig, ip1: Option<string>, ip2: Option<string>)
    ensures Planned(config, ip1).Ok? <==> Planned(config, ip2).Ok?
    ensures Planned(config, ip1).Ok? ==> Planned(config, ip2) == Ok(Planned(config, ip1).value.(dstAddress := ip2))
    ensures Planned(config, ip1).Raise? ==> Planned(config, ip2) == Planned(config, ip1)
  {
    match ProtocolCode(config.prot)
    case Raise(e) =>
    case Ok(code) =>
  }

  /** For an accepted forward toward a known address, socat listens on the
      source stack and port with the protocol named in the configuration,
      and connects to that address on the destination stack and port. */
  lemma ForwarderArguments(config: ForwardConfig, ip: string)
    requires ValidConfig(config)
    ensures var args := LaunchArgs(Planned(config, Some(ip)).value);
      var p := if Lower(config.prot) == "tcp" then "TCP" else "UDP";
      && args.Ok? && |args.value| == 3 && args.value[0] == "socat"
      && DecodeListen(args.value[1]) == Some((p, config.src.stack, Some(config.src.port)))
      && DecodeTarget(args.value[2]) == Some((p, config.dest.stack, ip, Some(config.dest.port)))
  {
    var code := ProtocolCode(config.prot).value;
    var src, dst := config.src, config.dest;
    var plan := Planned(config, Some(ip));
    assert plan == Ok(Settings(code, src.stack, src.port, dst.stack, dst.port, Some(ip)));
    var listen := ListenArg(code, src.stack, Some(src.port));
    var target := TargetArg(code, dst.stack, ip, Some(dst.port));
    assert LaunchArgs(plan.value) == Ok(["socat", listen, target]);
    assert ProtocolName(code) == if Lower(config.prot) == "tcp" then "TCP" else "UDP";
    ListenArgDecodes(code, src.stack, Some(src.port));
    TargetArgDecodes(code, dst.stack, ip, Some(dst.port));
  }

  /** The stop request `stop()` sends for a held forwarder, if it runs. */
  function StopEvents(f: Socat?): seq<Event>
    reads f
  {
    if f != null && f.proc.Some? then [StopRequested(f.proc.value)] else []
  }

  /** The listeners of the watch under `key`, if there is one. */
  ghost function Listeners<L>(watcher: DnsWatcher<L>, key: string): seq<L>
    reads watcher, watcher.addrs.Values
  {
    if key in watcher.addrs then watcher.addrs[key].listener else []
  }

  /** The IP the watch under `key` last saw, if there is one. */
  ghost function LastIpOf<L>(watcher: DnsWatcher<L>, key: string): Option<string>
    reads watcher, watcher.addrs.Values
  {
    if key in watcher.addrs then watcher.addrs[key].lastIp else None
  }

  /** The objects `add` may change for this key: the registry, and the watch
      already kept under the key. */
  ghost function AddFrame<L>(watcher: DnsWatcher<L>, key: string): set<object>
    reads watcher
  {
    {watcher as object} + if key in watcher.addrs then {watcher.addrs[key] as object} else {}
  }

  class Tunnel {
    const config: ForwardConfig
    const destAddr: string
    const host: Machine
    const iptables: Iptables
    /** The watch of the destination host this tunnel listens to. */
    var dnsEntry: EntryWatch?<Tunnel>
    /** The forwarder currently held, if any. */
    var socat: Socat?

    ghost predicate Valid()
      reads this
    {
      && iptables.host == host && iptables.stack == config.src.stack
      && dnsEntry != null
      && (socat != null ==> socat.host == host)
    }

    /** Where `_start_tunnel(ip)` leaves the tunnel, given the forwarder held
        and the machine's history before it: nothing changes when a setting
        is rejected; otherwise the new forwarder is held, and it runs unless
        the address is unset. */
    ghost predicate StartedFrom(ip: Option<string>, socat0: Socat?, log0: seq<Event>, r: Outcome)
      reads this, socat, host
    {
      var plan := Planned(config, ip);
      && (plan.Raise? ==> r == Raised(plan.exc) && socat == socat0 && host.log == log0)
      && (plan.Ok? ==>
            && socat != null && Holds(socat, plan.value)
            && var args := LaunchArgs(plan.value);
            && (args.Raise? ==> r == Raised(args.exc) && socat.proc == None && host.log == log0)
            && (args.Ok? ==> r == Done && socat.proc == Some(|log0|) && host.log == log0 + [Launched(args.value)]))
    }

    /** What `_start_tunnel` adds to the history: at most the forwarder's launch. */
    lemma StartedLaunches(ip: Option<string>, socat0: Socat?, log0: seq<Event>, r: Outcome) returns (mid: seq<Event>)
      requires StartedFrom(ip, socat0, log0, r)
      ensures host.log == log0 + mid && forall i :: 0 <= i < |mid| ==> mid[i].Launched?
    {
      var plan := Planned(config, ip);
      if plan.Raise? || LaunchArgs(plan.value).Raise? {
        mid := [];
      } else {
        mid := [Launched(LaunchArgs(plan.value).value)];
      }
    }

    /** Registers `DnsChanged` with the watcher under the destination address
        and stack, and keeps a firewall for the source stack. */
    constructor (config: ForwardConfig, destAddr: string, watcher: DnsWatcher<Tunnel>, host: Machine)
      requires watcher.Valid()
      modifies AddFrame(watcher, Key(config.dest.stack, destAddr))
      ensures Valid() && this.config == config && this.destAddr == destAddr && this.host == host && socat == null
      ensures var key := Key(config.dest.stack, destAddr);
        Registered(watcher, old(watcher.running), old(watcher.keys), old(watcher.addrs),
                   old(Listeners(watcher, key)), old(LastIpOf(watcher, key)))
      ensures Key(config.dest.stack, destAddr) !in old(watcher.addrs) ==> fresh(dnsEntry)
    {
      this.config := config;
      this.destAddr := destAddr;
      this.host := host;
      iptables := new Iptables(config.src.stack, host);
      new;
      Register(watcher);
      socat := null;
    }

    /** The registry after this tunnel registered with it, given the state
        before: the tunnel holds the watch of its destination key, which is
        the one kept there before or else a new one at the end of the
        registry; its listeners gained this tunnel at the end and its last
        IP is unchanged (none, for a new watch). */
    ghost predicate Registered(watcher: DnsWatcher<Tunnel>, running0: bool, keys0: seq<string>,
                               addrs0: map<string, EntryWatch<Tunnel>>, listeners0: seq<Tunnel>,
                               last0: Option<string>)
      reads this, watcher, dnsEntry
    {
      var key := Key(config.dest.stack, destAddr);
      && watcher.Valid() && watcher.running == running0
      && dnsEntry != null
      && watcher.addrs == addrs0[key := dnsEntry]
      && watcher.keys == keys0 + (if key in addrs0 then [] else [key])
      && (key in addrs0 ==> dnsEntry == addrs0[key])
      && (key !in addrs0 ==> dnsEntry.address == destAddr && dnsEntry.stack == config.dest.stack && dnsEntry.family == FamilyOf(config.dest.stack))
      && dnsEntry.listener == listeners0 + [this]
      && dnsEntry.lastIp == last0
    }

    /** `dns_watcher.add(dest_addr, dest.stack, self._dns_changed)`. */
    method Register(watcher: DnsWatcher<Tunnel>)
      requires watcher.Valid()
      modifies this`dnsEntry, AddFrame(watcher, Key(config.dest.stack, destAddr))
      ensures var key := Key(config.dest.stack, destAddr);
        Registered(watcher, old(watcher.running), old(watcher.keys), old(watcher.addrs),
                   old(Listeners(watcher, key)), old(LastIpOf(watcher, key)))
      ensures Key(config.dest.stack, destAddr) !in old(watcher.addrs) ==> fresh(dnsEntry)
    {
      dnsEntry := watcher.Add(destAddr, config.dest.stack, this);
    }

    /** `_start_tunnel(ip)`: build a forwarder toward `ip` and start it. */
    method StartTunnel(ip: Option<string>) returns (r: Outcome)
      requires Valid()
      modifies this`socat, host
      ensures Valid() && dnsEntry == old(dnsEntry)
      ensures StartedFrom(ip, old(socat), old(host.log), r)
      ensures Planned(config, ip).Ok? ==> fresh(socat)
    {
      var builder := new SocatBuilder();
      r := builder.Protocol(config.prot);
      if r != Done {
        assert Planned(config, ip) == Raise(r.exc);
        return;
      }
      r := builder.FromAddress(config.src.port, config.src.stack);
      if r != Done {
        assert Planned(config, ip) == Raise(r.exc);
        return;
      }
      r := builder.ToAddress(ip, config.dest.port, config.dest.stack);
      if r != Done {
        assert Planned(config, ip) == Raise(r.exc);
        return;
      }
      assert Planned(config, ip) == Ok(Settings(builder.prot, config.src.stack, config.src.port,
                                                config.dest.stack, config.dest.port, ip));
      var s := builder.Build(host);
      socat := s;
      r := s.Start();
    }

    /** `_stop_tunnel()`: stop the held forwarder, if it runs, and hold none. */
    method StopTunnel()
      requires Valid()
      modifies this`socat, socat, host
      ensures Valid() && socat == null && dnsEntry == old(dnsEntry)
      ensures host.log == old(host.log) + old(StopEvents(socat))
    {
      if socat == null {
        return;
      }
      socat.Stop();
      socat := null;
    }

    /** `start()`: open the firewall, resolve the destination, and start a
        forwarder toward its first address.  A failing firewall command is
        only a warning; any other exception, and an empty DNS answer, ends
        `start` before a forwarder is built. */
    method Start(resolve: Resolver) returns (r: Outcome)
      requires Valid()
      modifies this`socat, host
      ensures Valid() && (socat == old(socat) || fresh(socat))
      ensures var e := AddEntryEffect(host.oracle, old(host.log), config.src.stack, config.prot, config.src.port);
        var log1 := old(host.log) + e.events;
        var answer := dnsEntry.Answer(resolve);
        && (e.report.Propagated? ==> r == Raised(e.report.exc) && socat == old(socat) && host.log == log1)
        && (!e.report.Propagated? && answer == [] ==> r == Raised(IndexError) && socat == old(socat) && host.log == log1)
        && (!e.report.Propagated? && answer != [] ==> StartedFrom(Some(answer[0]), old(socat), log1, r))
    {
      var report := iptables.AddEntry(config.prot, config.src.port);
      if report.Propagated? {
        return Raised(report.exc);
      }
      var ip := dnsEntry.Resolve(resolve);
      if ip.Raise? {
        return Raised(ip.exc);
      }
      r := StartTunnel(Some(ip.value));
    }

    /** `stop()`: stop the forwarder, then always close the firewall; only
        an exception other than a failing command escapes. */
    method Stop() returns (r: Outcome)
      requires Valid()
      modifies this`socat, socat, host
      ensures Valid() && socat == null
      ensures var log1 := old(host.log) + old(StopEvents(socat));
        var e := RemoveEntryEffect(host.oracle, log1, config.src.stack, config.prot, config.src.port);
        && host.log == log1 + e.events
        && r == (if e.report.Propagated? then Raised(e.report.exc) else Done)
    {
      StopTunnel();
      var report := iptables.RemoveEntry(config.prot, config.src.port);
      r := if report.Propagated? then Raised(report.exc) else Done;
    }

    /** `_dns_changed(ip)`: stop the forwarder and start one toward the new
        address, with the same protocol, ports and stacks. */
    method DnsChanged(ip: Option<string>) returns (r: Outcome)
      requires Valid()
      modifies this`socat, socat, host
      ensures Valid()
      ensures StartedFrom(ip, null, old(host.log) + old(StopEvents(socat)), r)
    {
      StopTunnel();
      r := StartTunnel(ip);
    }
  }

  /** The first tunnel registered on a new watcher gets the only watch. */
  method RegisterOne(c: ForwardConfig, a: string, host: Machine) returns (w: DnsWatcher<Tunnel>, t: Tunnel)
    ensures fresh(w) && fresh(t.dnsEntry) && w.Valid() && w.keys == [Key(c.dest.stack, a)]
    ensures Key(c.dest.stack, a) in w.addrs && t.dnsEntry == w.addrs[Key(c.dest.stack, a)]
    ensures t.config == c && t.destAddr == a && t.dnsEntry.listener == [t] && t.dnsEntry.family == FamilyOf(c.dest.stack)
  {
    w := new DnsWatcher();
    t := new Tunnel(c, a, w, host);
  }

  /** Two tunnels toward different destination keys, registered on a new
      watcher, get one watch each, in registration order, and each watch is
      listened to by its own tunnel only. */
  method RegisterTwo(c1: ForwardConfig, a1: string, c2: ForwardConfig, a2: string, host: Machine)
    returns (w: DnsWatcher<Tunnel>, t1: Tunnel, t2: Tunnel)
    requires c1.dest.stack == STACK_IPV_4 || c1.dest.stack == STACK_IPV_6
    requires c2.dest.stack == STACK_IPV_4 || c2.dest.stack == STACK_IPV_6
    requires c1.dest.stack != c2.dest.stack || a1 != a2
    ensures w.Valid() && w.keys == [Key(c1.dest.stack, a1), Key(c2.dest.stack, a2)]
    ensures t1.dnsEntry == w.addrs[Key(c1.dest.stack, a1)] && t2.dnsEntry == w.addrs[Key(c2.dest.stack, a2)]
    ensures t1.dnsEntry.listener == [t1] && t2.dnsEntry.listener == [t2]
  {
    ghost var k1, k2 := Key(c1.dest.stack, a1), Key(c2.dest.stack, a2);
    KeySeparatesPairs(c1.dest.stack, a1, c2.dest.stack, a2);
    w, t1 := RegisterOne(c1, a1, host);
    assert k2 !in w.addrs;
    t2 := new Tunnel(c2, a2, w, host);
  }

  /** When the reconciler's add completes, `start()` at most launches the
      forwarder after it. */
  method StartPrograms(t: Tunnel, resolve: Resolver) returns (r: Outcome, ghost mid: seq<Event>)
    requires t.Valid()
    requires AddEntryEffect(t.host.oracle, t.host.log, t.config.src.stack, t.config.prot, t.config.src.port).report == Completed
    modifies t`socat, t.host
    ensures t.Valid() && (t.socat == old(t.socat) || fresh(t.socat))
    ensures t.host.log == old(t.host.log)
      + AddEntryEffect(t.host.oracle, old(t.host.log), t.config.src.stack, t.config.prot, t.config.src.port).events + mid
    ensures ProgramsOnly(mid)
  {
    ghost var h, s0 := t.host.log, t.socat;
    ghost var log1 := h + AddEntryEffect(t.host.oracle, h, t.config.src.stack, t.config.prot, t.config.src.port).events;
    r := t.Start(resolve);
    ghost var answer := t.dnsEntry.Answer(resolve);
    if answer == [] {
      mid := [];
    } else {
      mid := t.StartedLaunches(Some(answer[0]), s0, log1, r);
    }
  }

  /** `stop()` at most stops the forwarder before the reconciler's remove. */
  method StopPrograms(t: Tunnel) returns (r: Outcome, ghost mid: seq<Event>)
    requires t.Valid()
    modifies t`socat, t.socat, t.host
    ensures t.host.log == old(t.host.log) + mid
      + RemoveEntryEffect(t.host.oracle, old(t.host.log) + mid, t.config.src.stack, t.config.prot, t.config.src.port).events
    ensures ProgramsOnly(mid)
  {
    mid := StopEvents(t.socat);
    r := t.Stop();
  }

  /** `start()` then `stop()` on a machine whose firewall is the reference
      one: when no rule accepted the tunnel's port before, the firewall ends
      as it was, whatever became of the forwarder; when one did, the first
      such rule is deleted, although the tunnel did not add it. */
  method StartThenStop(t: Tunnel, resolve: Resolver, ghost fw0: Firewall) returns (r1: Outcome, r2: Outcome)
    requires t.Valid() && t.host.oracle == FirewallOracle(fw0) && Good(fw0) && Name(t.config.prot)
    modifies t`socat, t.socat, t.host
    ensures var fw := old(Replay(fw0, t.host.log)); var bin := BinName(t.config.src.stack);
      var tb := TableOf(fw, bin); var k := FirstRow(tb, t.config.prot, t.config.src.port);
      && (k.None? ==> Replay(fw0, t.host.log) == fw)
      && (k.Some? ==> Replay(fw0, t.host.log) == WithTable(fw, bin, tb[..k.value] + tb[k.value + 1..]))
  {
    ghost var h := t.host.log;
    ghost var mid: seq<Event>;
    AddEntryCompletes(fw0, h, t.config.src.stack, t.config.prot, t.config.src.port);
    r1, r2, mid := StartStopLog(t, resolve);
    AddThenRemove(fw0, t.host.oracle, h, mid, t.config.src.stack, t.config.prot, t.config.src.port);
  }

  /** The log `start()` then `stop()` leave: the additions of `add_entry`,
      programs launched and stopped, then the removals of `remove_entry`. */
  method StartStopLog(t: Tunnel, resolve: Resolver) returns (r1: Outcome, r2: Outcome, ghost mid: seq<Event>)
    requires t.Valid()
    requires AddEntryEffect(t.host.oracle, t.host.log, t.config.src.stack, t.config.prot, t.config.src.port).report == Completed
    modifies t`socat, t.socat, t.host
    ensures var log1 := old(t.host.log)
        + AddEntryEffect(t.host.oracle, old(t.host.log), t.config.src.stack, t.config.prot, t.config.src.port).events + mid;
      t.host.log == log1 + RemoveEntryEffect(t.host.oracle, log1, t.config.src.stack, t.config.prot, t.config.src.port).events
    ensures ProgramsOnly(mid)
  {
    ghost var h := t.host.log;
    ghost var log1 := h + AddEntryEffect(t.host.oracle, h, t.config.src.stack, t.config.prot, t.config.src.port).events;
    ghost var mid1: seq<Event>, mid2: seq<Event>;
    r1, mid1 := StartPrograms(t, resolve);
    r2, mid2 := StopPrograms(t);
    ProgramsOnlyAppend(log1, mid1, mid2);
    mid := mid1 + mid2;
  }

  /** A second `stop()` finds no forwarder and only closes the firewall
      again. */
  method StopTwice(t: Tunnel) returns (r1: Outcome, r2: Outcome)
    requires t.Valid()
    modifies t, t.socat, t.host
    ensures t.Valid() && t.socat == null
    ensures var log1 := old(t.host.log) + old(StopEvents(t.socat));
      var e1 := RemoveEntryEffect(t.host.oracle, log1, t.config.src.stack, t.config.prot, t.config.src.port);
      var log2 := log1 + e1.events;
      var e2 := RemoveEntryEffect(t.host.oracle, log2, t.config.src.stack, t.config.prot, t.config.src.port);
      t.host.log == log2 + e2.events
  {
    ghost var log1 := t.host.log + StopEvents(t.socat);
    r1 := t.Stop();
    ghost var log2 := t.host.log;
    assert log2 + StopEvents(t.socat) == log2;
    r2 := t.Stop();
  }
}
