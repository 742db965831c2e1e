/** The forwarder: a `socat` process listening on a local port and relaying
    to a destination address, and the builder that validates its settings.
    Ports and the address are unset (None) until the builder is told them;
    `str` of an unset port prints `None`, and an unset address cannot be
    concatenated into the arguments. */
module Socat {
  import opened Common
  import opened Text
  import opened Host

  const PROT_TCP: int := 0
  const PROT_UDP: int := 1
  const STACK_IPV_4: int := 4
  const STACK_IPV_6: int := 6

  /** The protocol prefix of both socat addresses. */
  function ProtocolName(prot: int): (p: string)
    ensures |p| == 3 && ':' !in p
  {
    if prot == PROT_TCP then "TCP" else "UDP"
  }

  /** `str(port)` for a port that may be unset. */
  function PortText(port: Option<int>): (s: string)
    ensures ':' !in s && ',' !in s
  {
    match port
    case Some(p) => IntToString(p)
    case None => "None"
  }

  /** `int(str(port))` gives the port back; the text of an unset port is no
      integer. */
  lemma PortTextRoundTrip(port: Option<int>)
    ensures ParseInt(PortText(port)) == port
  {
    match port
    case Some(p) => IntToStringRoundTrip(p);
    case None => assert !IsDigit("None"[0]);
  }

  /** The first address: listen on the source port of the source stack and
      fork a child running as `nobody` per connection. */
  function ListenArg(prot: int, stack: int, port: Option<int>): string
  {
    ProtocolName(prot) + (IntToString(stack) + "-LISTEN" + [':'] + (PortText(port) + ",fork,su=nobody"))
  }

  /** An IPv6 address is written in brackets, any other as it is. */
  function HostText(stack: int, addr: string): string
  {
    if stack == STACK_IPV_6 then "[" + addr + "]" else addr
  }

  /** The second address: connect to the destination. */
  function TargetArg(prot: int, stack: int, addr: string, port: Option<int>): string
  {
    ProtocolName(prot) + (IntToString(stack) + [':'] + (HostText(stack, addr) + [':'] + PortText(port)))
  }

  /** Appending the pieces one after another gives the listen address. */
  lemma ListenLayout(p: string, s: string, t: string)
    ensures p + s + "-LISTEN" + ":" + t + ",fork,su=nobody" == p + (s + "-LISTEN" + [':'] + (t + ",fork,su=nobody"))
  {
  }

  /** Appending the pieces one after another gives the connect address. */
  lemma TargetLayout(p: string, s: string, h: string, t: string)
    ensures p + s + ":" + h + ":" + t == p + (s + [':'] + (h + [':'] + t))
  {
  }

  /** The whole command line `start` runs; an unset address makes the string
      concatenation raise TypeError. */
  function Arguments(prot: int, srcStack: int, srcPort: Option<int>, dstStack: int, dstPort: Option<int>,
                     dstAddress: Option<string>): (r: Result<seq<string>>)
    ensures r.Raise? <==> dstAddress.None?
    ensures r.Raise? ==> r.exc == TypeError
    ensures r.Ok? ==> |r.value| == 3 && r.value[0] == "socat"
  {
    match dstAddress
    case None => Raise(TypeError)
    case Some(addr) => Ok(["socat", ListenArg(prot, srcStack, srcPort), TargetArg(prot, dstStack, addr, dstPort)])
  }

  /** Reads the protocol, stack and port back out of a listen address; the
      stack ends at the first colon. */
  function DecodeListen(arg: string): Option<(string, int, Option<int>)>
  {
    if |arg| < 3 then None
    else
      var rest := arg[3..];
      var i := IndexOf(rest, ':');
      if i == |rest| then None
      else
        match (ListenStack(rest[..i]), ListenPort(rest[i + 1..]))
        case (Some(stack), Some(port)) => Some((arg[..3], stack, port))
        case _ => None
  }

  /** The stack in front of `-LISTEN`. */
  function ListenStack(head: string): Option<int>
  {
    if |head| >= 7 && head[|head| - 7..] == "-LISTEN" then ParseInt(head[..|head| - 7]) else None
  }

  /** The port in front of the listen options. */
  function ListenPort(tail: string): Option<Option<int>>
  {
    var j := IndexOf(tail, ',');
    if tail[j..] == ",fork,su=nobody" then Some(ParseInt(tail[..j])) else None
  }

  /** Reads the protocol, stack, host and port back out of a connect address.
      The stack ends at the first colon. */
  function DecodeTarget(arg: string): Option<(string, int, string, Option<int>)>
  {
    if |arg| < 3 then None
    else
      var rest := arg[3..];
      var i := IndexOf(rest, ':');
      if i == |rest| then None
      else
        match ParseInt(rest[..i])
        case None => None
        case Some(stack) =>
          match DecodeHostPort(stack == STACK_IPV_6, rest[i + 1..])
          case None => None
          case Some((h, port)) => Some((arg[..3], stack, h, port))
  }

  /** Reads the host and the port out of the tail of a connect address.  The
      port starts after the last colon, so the colons inside an IPv6 host do
      not get in the way; an IPv6 host loses its brackets. */
  function DecodeHostPort(v6: bool, body: string): Option<(string, Option<int>)>
  {
    match LastIndexOf(body, ':')
    case None => None
    case Some(j) =>
      var h := body[..j];
      if !v6 then Some((h, ParseInt(body[j + 1..])))
      else if |h| >= 2 && h[0] == '[' && h[|h| - 1] == ']' then Some((h[1..|h| - 1], ParseInt(body[j + 1..])))
      else None
  }

  /** The listen address names exactly the protocol, stack and port it was
      built from. */
  lemma ListenStackDecodes(stack: int)
    ensures ListenStack(IntToString(stack) + "-LISTEN") == Some(stack)
  {
    var head := IntToString(stack) + "-LISTEN";
    assert head[..|head| - 7] == IntToString(stack);
    IntToStringRoundTrip(stack);
  }

  lemma ListenPortDecodes(port: Option<int>)
    ensures ListenPort(PortText(port) + ",fork,su=nobody") == Some(port)
  {
    var t := PortText(port);
    assert t + ",fork,su=nobody" == t + [','] + "fork,su=nobody";
    FirstSeparator(t, ',', "fork,su=nobody");
    PortTextRoundTrip(port);
  }

  /** The listen address names exactly the protocol, stack and port it was
      built from. */
  lemma ListenArgDecodes(prot: int, stack: int, port: Option<int>)
    ensures DecodeListen(ListenArg(prot, stack, port)) == Some((ProtocolName(prot), stack, port))
  {
    var head, tail := IntToString(stack) + "-LISTEN", PortText(port) + ",fork,su=nobody";
    assert ':' !in "-LISTEN";
    FirstSeparator(head, ':', tail);
    ListenStackDecodes(stack);
    ListenPortDecodes(port);
  }

  lemma HostPortDecodes(stack: int, addr: string, port: Option<int>)
    ensures DecodeHostPort(stack == STACK_IPV_6, HostText(stack, addr) + [':'] + PortText(port)) == Some((addr, port))
  {
    var h, t := HostText(stack, addr), PortText(port);
    var body := h + [':'] + t;
    LastIndexOfIs(h, ':', t);
    assert body[..|h|] == h && body[|h| + 1..] == t;
    PortTextRoundTrip(port);
    if stack == STACK_IPV_6 {
      assert h[1..|h| - 1] == addr;
    }
  }

  /** The connect address names exactly the protocol, stack, host and port it
      was built from, whatever colons the host contains. */
  lemma TargetArgDecodes(prot: int, stack: int, addr: string, port: Option<int>)
    ensures DecodeTarget(TargetArg(prot, stack, addr, port)) == Some((ProtocolName(prot), stack, addr, port))
  {
    var p, s := ProtocolName(prot), IntToString(stack);
    var body := HostText(stack, addr) + [':'] + PortText(port);
    FirstSeparator(s, ':', body);
    IntToStringRoundTrip(stack);
    HostPortDecodes(stack, addr, port);
  }

  /** `_validate_port`: ports 1 to 65534 pass; 0 and 65535 do not. */
  function PortCheck(tag: string, port: int): (r: Outcome)
    ensures r == Done <==> 0 < port < 65535
    ensures r != Done ==> r == Raised(ValueError("Invalid " + tag + " port: " + IntToString(port)))
  {
    if 0 < port < 65535 then Done else Raised(ValueError("Invalid " + tag + " port: " + IntToString(port)))
  }

  /** `_validate_stack`: only IPv4 and IPv6. */
  function StackCheck(tag: string, stack: int): (r: Outcome)
    ensures r == Done <==> stack == STACK_IPV_4 || stack == STACK_IPV_6
    ensures r != Done ==> r == Raised(ValueError("Invalid " + tag + " stack: " + IntToString(stack)))
  {
    if stack == STACK_IPV_6 || stack == STACK_IPV_4 then Done
    else Raised(ValueError("Invalid " + tag + " stack: " + IntToString(stack)))
  }

  /** The protocol code for a protocol name, compared after lower-casing. */
  function ProtocolCode(protocol: string): (r: Result<int>)
    ensures r.Ok? <==> Lower(protocol) == "tcp" || Lower(protocol) == "udp"
    ensures r.Ok? ==> (r.value == PROT_TCP <==> Lower(protocol) == "tcp")
    ensures r.Ok? ==> r.value == PROT_TCP || r.value == PROT_UDP
    ensures r.Raise? ==> r.exc == ValueError("Unknown protocol: " + Lower(protocol))
  {
    var lowered := Lower(protocol);
    if lowered != "tcp" && lowered != "udp" then Raise(ValueError("Unknown protocol: " + lowered))
    else Ok(if lowered == "tcp" then PROT_TCP else PROT_UDP)
  }

  /** The protocol name does not depend on letter case. */
  lemma ProtocolCaseInsensitive(protocol: string)
    ensures ProtocolCode(Lower(protocol)) == ProtocolCode(protocol)
  {
    LowerIdempotent(protocol);
  }

  /** The names a configuration usually carries. */
  lemma KnownProtocols()
    ensures ProtocolCode("tcp") == ProtocolCode("TCP") == Ok(PROT_TCP)
    ensures ProtocolCode("udp") == ProtocolCode("Udp") == Ok(PROT_UDP)
    ensures ProtocolCode("sctp").Raise?
  {
    assert Lower("TCP") == "tcp";
    assert Lower("Udp") == "udp";
    assert Lower("sctp") == "sctp";
  }

  class Socat {
    const prot: int
    const srcStack: int
    const srcPort: Option<int>
    const dstStack: int
    const dstPort: Option<int>
    const dstAddress: Option<string>
    const host: Machine
    /** The running forwarder, known by its launch on the machine. */
    var proc: Option<nat>

    constructor (host: Machine, prot: int, srcStack: int, srcPort: Option<int>, dstStack: int, dstPort: Option<int>,
                 dstAddress: Option<string>)
      ensures this.host == host && this.prot == prot && this.srcStack == srcStack && this.srcPort == srcPort
      ensures this.dstStack == dstStack && this.dstPort == dstPort && this.dstAddress == dstAddress
      ensures proc == None
    {
      this.host := host;
      this.prot := prot;
      this.srcStack := srcStack;
      this.srcPort := srcPort;
      this.dstStack := dstStack;
      this.dstPort := dstPort;
      this.dstAddress := dstAddress;
      proc := None;
    }

    /** `start`: assemble the two addresses and launch socat on its own
        thread.  A forwarder already held is replaced, not stopped. */
    method Start() returns (r: Outcome)
      modifies this, host
      ensures var args := Arguments(prot, srcStack, srcPort, dstStack, dstPort, dstAddress);
        && (args.Raise? ==> r == Raised(args.exc) && proc == old(proc) && host.log == old(host.log))
        && (args.Ok? ==> r == Done && proc == Some(|old(host.log)|)
                         && host.log == old(host.log) + [Launched(args.value)])
    {
      var p := if prot == PROT_TCP then "TCP" else "UDP";
      var src := p;
      src := src + IntToString(srcStack) + "-LISTEN";
      src := src + ":" + PortText(srcPort) + ",fork,su=nobody";
      ListenLayout(p, IntToString(srcStack), PortText(srcPort));
      if dstAddress.None? {
        return Raised(TypeError);
      }
      var dst := p;
      dst := dst + IntToString(dstStack) + ":";
      ghost var front := dst;
      if dstStack == STACK_IPV_6 {
        dst := dst + "[";
      }
      dst := dst + dstAddress.value;
      if dstStack == STACK_IPV_6 {
        dst := dst + "]";
      }
      assert dst == front + HostText(dstStack, dstAddress.value);
      dst := dst + ":" + PortText(dstPort);
      TargetLayout(p, IntToString(dstStack), HostText(dstStack, dstAddress.value), PortText(dstPort));
      var args := ["socat", src, dst];
      var pid := host.Launch(args);
      proc := Some(pid);
      r := Done;
    }

    /** `stop`: end the forwarder if one runs and forget it. */
    method Stop()
      modifies this, host
      ensures proc == None
      ensures old(proc).None? ==> host.log == old(host.log)
      ensures old(proc).Some? ==> host.log == old(host.log) + [StopRequested(old(proc).value)]
    {
      if proc.None? {
        return;
      }
      host.Terminate(proc.value);
      proc := None;
    }
  }

  /** Stopping twice stops the forwarder once. */
  method StopTwice(s: Socat)
    modifies s, s.host
    ensures s.proc == None
    ensures s.host.log == old(s.host.log) + (if old(s.proc).Some? then [StopRequested(old(s.proc).value)] else [])
  {
    s.Stop();
    s.Stop();
  }

  class SocatBuilder {
    var prot: int
    var srcStack: int
    var srcPort: Option<int>
    var dstStack: int
    var dstPort: Option<int>
    var dstAddress: Option<string>

    /** TCP from IPv4 to IPv6, with the ports and the address unset. */
    constructor ()
      ensures prot == PROT_TCP && srcStack == STACK_IPV_4 && dstStack == STACK_IPV_6
      ensures srcPort == None && dstPort == None && dstAddress == None
    {
      prot := PROT_TCP;
      srcStack := STACK_IPV_4;
      srcPort := None;
      dstStack := STACK_IPV_6;
      dstPort := None;
      dstAddress := None;
    }

    /** `protocol(name)`: only tcp and udp, in any letter case; a rejected
        name leaves the protocol as it was. */
    method Protocol(protocol: string) returns (r: Outcome)
      modifies this`prot
      ensures var code := ProtocolCode(protocol);
        && (code.Ok? ==> r == Done && prot == code.value)
        && (code.Raise? ==> r == Raised(code.exc) && prot == old(prot))
    {
      var lowered := Lower(protocol);
      if lowered != "tcp" && lowered != "udp" {
        return Raised(ValueError("Unknown protocol: " + lowered));
      }
      prot := if lowered == "tcp" then PROT_TCP else PROT_UDP;
      r := Done;
    }

    /** `from_address(port, stack)`: the port is checked and stored before the
        stack is checked, so a bad stack leaves the new port in place. */
    method FromAddress(port: int, stack: int) returns (r: Outcome)
      modifies this`srcPort, this`srcStack
      ensures PortCheck("src", port).Raised? ==> r == PortCheck("src", port) && srcPort == old(srcPort) && srcStack == old(srcStack)
      ensures PortCheck("src", port) == Done ==> r == StackCheck("src", stack) && srcPort == Some(port)
      ensures PortCheck("src", port) == Done && r == Done ==> srcStack == stack
      ensures r != Done ==> srcStack == old(srcStack)
    {
      r := PortCheck("src", port);
      if r != Done {
        return;
      }
      srcPort := Some(port);
      r := StackCheck("src", stack);
      if r != Done {
        return;
      }
      srcStack := stack;
    }

    /** `to_address(ip, port, stack)`: as `from_address`, and the address is
        stored only once both checks pass.  The address is not checked: it
        is None when the tunnel restarts after an empty DNS answer. */
    method ToAddress(ip: Option<string>, port: int, stack: int) returns (r: Outcome)
      modifies this`dstPort, this`dstStack, this`dstAddress
      ensures PortCheck("dst", port).Raised? ==> r == PortCheck("dst", port) && dstPort == old(dstPort)
      ensures PortCheck("dst", port) == Done ==> r == StackCheck("dst", stack) && dstPort == Some(port)
      ensures r == Done ==> dstStack == stack && dstAddress == ip
      ensures r != Done ==> dstStack == old(dstStack) && dstAddress == old(dstAddress)
    {
      r := PortCheck("dst", port);
      if r != Done {
        return;
      }
      dstPort := Some(port);
      r := StackCheck("dst", stack);
      if r != Done {
        return;
      }
      dstStack := stack;
      dstAddress := ip;
    }

    /** `build()`: a forwarder with exactly the settings gathered so far, not
        yet running. */
    method Build(host: Machine) returns (s: Socat)
      ensures fresh(s) && s.host == host && s.proc == None
      ensures s.prot == prot && s.srcStack == srcStack && s.srcPort == srcPort
      ensures s.dstStack == dstStack && s.dstPort == dstPort && s.dstAddress == dstAddress
    {
      s := new Socat(host, prot, srcStack, srcPort, dstStack, dstPort, dstAddress);
    }
  }
}
