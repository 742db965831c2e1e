/** DNS change detection.  An entry watch remembers the last IP it saw for one
    (address, IP stack) pair and tells its listeners when the resolver's
    answer no longer contains it; the watcher keeps one entry watch per pair
    and checks them all on every tick of its polling loop.

    The resolver is an input: a function from address and family to the
    ordered answer.  Listeners are external callbacks; a check returns the
    calls it makes, in order, as notifications. */
module DnsWatcher {
  import opened Common
  import opened Text

  datatype AddressFamily = AF_INET | AF_INET6

  /** The family a watch resolves with: IPv6 for stack 6, IPv4 for any other. */
  function FamilyOf(stack: int): AddressFamily
  {
    if stack == 6 then AF_INET6 else AF_INET
  }

  /** `socket.getaddrinfo(address, None, family)`, reduced to the IPs. */
  type Resolver = (string, AddressFamily) -> seq<string>

  /** A listener called with an IP (None when the answer was empty). */
  datatype Notification<L> = Notify(listener: L, ip: Option<string>)

  /** What one check concludes. */
  datatype Verdict =
    | Baseline(first: string)     // nothing stored yet: remember the first answer
    | Unchanged                   // the stored IP is still in the answer
    | Changed(newIp: Option<string>) // replace it and tell every listener

  /** The detection rule: a first answer sets the baseline, an answer that
      still holds the stored IP anywhere is no change, any other answer is a
      change to its last element.  An empty answer leaves nothing to compare
      with and counts as a change to None. */
  function Observe(last: Option<string>, ips: seq<string>): Verdict
  {
    if ips == [] then Changed(None)
    else if last.None? then Baseline(ips[0])
    else if last.value in ips then Unchanged
    else Changed(Some(ips[|ips| - 1]))
  }

  /** The stored IP after a check. */
  function Next(last: Option<string>, ips: seq<string>): Option<string>
  {
    match Observe(last, ips)
    case Baseline(ip) => Some(ip)
    case Unchanged => last
    case Changed(ip) => ip
  }

  /** The listener calls a verdict causes: none, or each listener once, in
      order, with the new IP. */
  function Notifications<L>(listeners: seq<L>, v: Verdict): (calls: seq<Notification<L>>)
  {
    if v.Changed? then seq(|listeners|, i requires 0 <= i < |listeners| => Notify(listeners[i], v.newIp))
    else []
  }

  /** A first check with a non-empty answer records its first IP and calls nobody. */
  lemma FirstCheckIsSilent<L>(ips: seq<string>, listeners: seq<L>)
    requires ips != []
    ensures Next(None, ips) == Some(ips[0])
    ensures Notifications(listeners, Observe(None, ips)) == []
  {
  }

  /** An answer holding the stored IP, in any position, changes nothing. */
  lemma PresentIsUnchanged<L>(ip: string, ips: seq<string>, listeners: seq<L>)
    requires ip in ips
    ensures Next(Some(ip), ips) == Some(ip)
    ensures Notifications(listeners, Observe(Some(ip), ips)) == []
  {
  }

  /** An answer without the stored IP moves to its last element and calls
      every listener once, in order, with it. */
  lemma AbsentIsChange<L>(ip: string, ips: seq<string>, listeners: seq<L>)
    requires ips != [] && ip !in ips
    ensures Next(Some(ip), ips) == Some(ips[|ips| - 1])
    ensures var calls := Notifications(listeners, Observe(Some(ip), ips));
      |calls| == |listeners| &&
      forall i :: 0 <= i < |listeners| ==> calls[i] == Notify(listeners[i], Some(ips[|ips| - 1]))
  {
  }

  /** An empty answer clears the stored IP and calls every listener with None. */
  lemma EmptyAnswerClears<L>(last: Option<string>, listeners: seq<L>)
    ensures Next(last, []) == None
    ensures var calls := Notifications(listeners, Observe(last, []));
      |calls| == |listeners| && forall i :: 0 <= i < |listeners| ==> calls[i] == Notify(listeners[i], None)
  {
  }

  /** Checking the same non-empty answer again, after any check, is silent. */
  lemma RepeatIsSilent(last: Option<string>, ips: seq<string>)
    requires ips != []
    ensures Observe(Next(last, ips), ips) == Unchanged
  {
    assert ips[0] in ips && ips[|ips| - 1] in ips;
  }

  /** `str(stack) + addr`, the watcher's key for an (address, stack) pair. */
  function Key(stack: int, addr: string): string
  {
    IntToString(stack) + addr
  }

  /** For the two IP stacks the key tells pairs apart, so two registrations
      share an entry watch exactly when they name the same address and stack. */
  lemma KeySeparatesPairs(s1: int, a1: string, s2: int, a2: string)
    requires s1 == 4 || s1 == 6
    requires s2 == 4 || s2 == 6
    ensures Key(s1, a1) == Key(s2, a2) <==> s1 == s2 && a1 == a2
  {
    assert IntToString(s1) == [DigitChar(s1)] && IntToString(s2) == [DigitChar(s2)];
    if Key(s1, a1) == Key(s2, a2) {
      assert Key(s1, a1)[0] == DigitChar(s1) && Key(s2, a2)[0] == DigitChar(s2);
      assert a1 == Key(s1, a1)[1..] && a2 == Key(s2, a2)[1..];
    }
  }

  class EntryWatch<L> {
    const address: string
    const stack: int
    const family: AddressFamily
    var listener: seq<L>
    var lastIp: Option<string>

    /** A new watch has no listeners and has not seen an IP. */
    constructor (address: string, stack: int)
      ensures this.address == address && this.stack == stack
      ensures family == FamilyOf(stack)
      ensures listener == [] && lastIp == None
    {
      this.address := address;
      this.stack := stack;
      family := FamilyOf(stack);
      listener := [];
      lastIp := None;
    }

    /** `resolve_ips()`: this entry's answer. */
    function Answer(resolve: Resolver): seq<string>
    {
      resolve(address, family)
    }

    /** `check()`: the loop scans the answer for the stored IP, remembering
        the last element it passed, then notifies every listener. */
    method Check(resolve: Resolver) returns (calls: seq<Notification<L>>)
      modifies this`lastIp
      ensures lastIp == Next(old(lastIp), Answer(resolve))
      ensures calls == Notifications(listener, Observe(old(lastIp), Answer(resolve)))
    {
      var ips := resolve(address, family);
      calls := [];
      var seen: Option<string> := None;
      for i := 0 to |ips|
        invariant lastIp == old(lastIp)
        invariant i == 0 ==> seen == None
        invariant i > 0 ==> lastIp.Some? && seen == Some(ips[i - 1])
        invariant lastIp.Some? ==> lastIp.value !in ips[..i]
      {
        if lastIp.None? {
          lastIp := Some(ips[i]);
          return;
        }
        if lastIp.value == ips[i] {
          return;
        }
        seen := Some(ips[i]);
      }
      assert ips[..|ips|] == ips;
      lastIp := seen;
      for j := 0 to |listener|
        invariant |calls| == j
        invariant forall k :: 0 <= k < j ==> calls[k] == Notify(listener[k], seen)
      {
        calls := calls + [Notify(listener[j], seen)];
      }
    }

    /** `add_listener(callback)`: the callback goes last. */
    method AddListener(callback: L)
      modifies this`listener
      ensures listener == old(listener) + [callback]
    {
      listener := listener + [callback];
    }

    /** `resolve()`: the first IP of the answer; an empty answer is an IndexError. */
    method Resolve(resolve: Resolver) returns (r: Result<string>)
      ensures Answer(resolve) != [] ==> r == Ok(Answer(resolve)[0])
      ensures Answer(resolve) == [] ==> r == Raise(IndexError)
    {
      var ips := resolve(address, family);
      if |ips| == 0 {
        return Raise(IndexError);
      }
      r := Ok(ips[0]);
    }
  }

  /** The listener calls that checking `ws` in order makes, from the state
      the watches are in before the first check. */
  ghost function Pending<L>(ws: seq<EntryWatch<L>>, resolve: Resolver): seq<Notification<L>>
    reads ws
  {
    if ws == [] then []
    else
      var w := ws[|ws| - 1];
      Pending(ws[..|ws| - 1], resolve) + Notifications(w.listener, Observe(w.lastIp, w.Answer(resolve)))
  }

  /** The stored IP of watch `w` after the first `n` ticks of `schedule`,
      starting from `last`. */
  ghost function LastAfter<L>(w: EntryWatch<L>, last: Option<string>, schedule: seq<Tick>, n: nat): Option<string>
    requires n <= |schedule|
  {
    if n == 0 then last else Next(LastAfter(w, last, schedule, n - 1), w.Answer(schedule[n - 1].resolve))
  }

  /** Whether none of the first `n` ticks of `schedule` saw a stop request. */
  function NoStopIn(schedule: seq<Tick>, n: nat): bool
    requires n <= |schedule|
  {
    n == 0 || (NoStopIn(schedule, n - 1) && !schedule[n - 1].stopRequested)
  }

  lemma {:induction false} NoStopInAll(schedule: seq<Tick>, n: nat)
    requires n <= |schedule|
    ensures NoStopIn(schedule, n) <==> forall t :: 0 <= t < n ==> !schedule[t].stopRequested
    decreases n
  {
    if n > 0 {
      NoStopInAll(schedule, n - 1);
    }
  }

  /** Check each of a list of distinct watches once, in order. */
  method CheckEach<L>(ws: seq<EntryWatch<L>>, resolve: Resolver) returns (calls: seq<Notification<L>>)
    requires forall a, b :: 0 <= a < b < |ws| ==> ws[a] != ws[b]
    modifies set w | w in ws
    ensures forall j :: 0 <= j < |ws| ==> ws[j].listener == old(ws[j].listener)
    ensures forall j :: 0 <= j < |ws| ==> ws[j].lastIp == Next(old(ws[j].lastIp), ws[j].Answer(resolve))
    ensures calls == old(Pending(ws, resolve))
  {
    calls := [];
    for i := 0 to |ws|
      invariant forall j :: 0 <= j < |ws| ==> ws[j].listener == old(ws[j].listener)
      invariant forall j :: 0 <= j < |ws| ==>
        ws[j].lastIp == if j < i then Next(old(ws[j].lastIp), ws[j].Answer(resolve)) else old(ws[j].lastIp)
      invariant calls == old(Pending(ws[..i], resolve))
    {
      assert ws[..i + 1][..i] == ws[..i];
      var c := ws[i].Check(resolve);
      calls := calls + c;
    }
    assert ws[..|ws|] == ws;
  }

  /** One tick of the polling loop: the resolver it sees, and whether `stop()`
      was called while it ran. */
  datatype Tick = Tick(resolve: Resolver, stopRequested: bool)

  /** The keys list each key of the map once, every watch sits under the key
      of its own address and stack, and resolves with the family of its stack. */
  ghost predicate Registry<L>(keys: seq<string>, addrs: map<string, EntryWatch<L>>)
  {
    && (forall k :: k in addrs <==> k in keys)
    && (forall i, j :: 0 <= i < j < |keys| ==> keys[i] != keys[j])
    && (forall k :: k in addrs ==> Key(addrs[k].stack, addrs[k].address) == k)
    && (forall w :: w in addrs.Values ==> w.family == FamilyOf(w.stack))
  }

  /** A watch registered under a new key, its own, keeps the registry sound. */
  lemma RegistryInsert<L>(keys: seq<string>, addrs: map<string, EntryWatch<L>>, w: EntryWatch<L>)
    requires Registry(keys, addrs)
    requires Key(w.stack, w.address) !in addrs && w.family == FamilyOf(w.stack)
    ensures Registry(keys + [Key(w.stack, w.address)], addrs[Key(w.stack, w.address) := w])
  {
    var key := Key(w.stack, w.address);
    var addrs1 := addrs[key := w];
    forall v | v in addrs1.Values
      ensures v.family == FamilyOf(v.stack)
    {
      var k :| k in addrs1 && addrs1[k] == v;
      if k != key {
        assert addrs[k] in addrs.Values;
      }
    }
  }

  class DnsWatcher<L> {
    /** `_check`: whether the polling loop is to go on. */
    var running: bool
    /** The keys of `_addrs` in insertion order, the order `values()` yields them. */
    var keys: seq<string>
    var addrs: map<string, EntryWatch<L>>

    ghost predicate Valid()
      reads this
    {
      Registry(keys, addrs)
    }

    /** The entry watches in registration order, as `_addrs.values()` yields them. */
    function Watches(): (ws: seq<EntryWatch<L>>)
      requires Valid()
      reads this
      ensures |ws| == |keys| && forall j :: 0 <= j < |keys| ==> ws[j] == addrs[keys[j]]
      ensures forall a, b :: 0 <= a < b < |ws| ==> ws[a] != ws[b]
    {
      var ws := seq(|keys|, j requires 0 <= j < |keys| && keys[j] in addrs reads this => addrs[keys[j]]);
      assert forall a, b :: 0 <= a < b < |ws| ==> ws[a] != ws[b] by {
        forall a, b | 0 <= a < b < |ws| ensures ws[a] != ws[b] {
          assert Key(ws[a].stack, ws[a].address) == keys[a];
        }
      }
      ws
    }

    constructor ()
      ensures Valid() && !running && keys == [] && addrs == map[]
    {
      running := false;
      keys := [];
      addrs := map[];
    }

    /** `add(addr, stack, callback)`: the callback joins the entry watch of
        its key, which is created, empty, on first use. */
    method Add(addr: string, stack: int, callback: L) returns (watch: EntryWatch<L>)
      requires Valid()
      modifies this, if Key(stack, addr) in addrs then {addrs[Key(stack, addr)]} else {}
      ensures Valid() && running == old(running)
      ensures Key(stack, addr) in addrs && watch == addrs[Key(stack, addr)]
      ensures watch.listener == old(if Key(stack, addr) in addrs then addrs[Key(stack, addr)].listener else []) + [callback]
      ensures Key(stack, addr) in old(addrs) ==>
        && watch == old(addrs[Key(stack, addr)])
        && addrs == old(addrs) && keys == old(keys)
        && watch.lastIp == old(watch.lastIp)
      ensures Key(stack, addr) !in old(addrs) ==>
        && fresh(watch) && watch.address == addr && watch.stack == stack && watch.lastIp == None
        && watch.family == FamilyOf(stack)
        && addrs == old(addrs)[Key(stack, addr) := watch] && keys == old(keys) + [Key(stack, addr)]
        && |addrs| == |old(addrs)| + 1
    {
      var key := Key(stack, addr);
      if key in addrs {
        watch := addrs[key];
        watch.AddListener(callback);
        return;
      }
      watch := new EntryWatch(addr, stack);
      watch.AddListener(callback);
      RegistryInsert(keys, addrs, watch);
      addrs := addrs[key := watch];
      keys := keys + [key];
    }

    /** `check()`: every entry watch once, in registration order. */
    method Check(resolve: Resolver) returns (calls: seq<Notification<L>>)
      requires Valid()
      modifies addrs.Values
      ensures Valid()
      ensures forall k :: k in addrs ==> addrs[k].listener == old(addrs[k].listener)
      ensures forall k :: k in addrs ==> addrs[k].lastIp == Next(old(addrs[k].lastIp), addrs[k].Answer(resolve))
      ensures calls == old(Pending(Watches(), resolve))
    {
      var ws := Watches();
      calls := CheckEach(ws, resolve);
      forall k | k in addrs
        ensures addrs[k].listener == old(addrs[k].listener)
        ensures addrs[k].lastIp == Next(old(addrs[k].lastIp), addrs[k].Answer(resolve))
      {
        var j :| 0 <= j < |keys| && keys[j] == k;
        assert ws[j] == addrs[k];
      }
    }

    /** `stop()`: the loop ends after the tick in progress. */
    method Stop()
      modifies this`running
      ensures !running
    {
      running := false;
    }

    /** One pass of the polling loop's body: check every entry, then take
        note of a `stop()` that came in meanwhile. */
    method Poll(tick: Tick)
      requires Valid()
      modifies this`running, addrs.Values
      ensures Valid()
      ensures forall k :: k in addrs ==> addrs[k].listener == old(addrs[k].listener)
      ensures forall k :: k in addrs ==> addrs[k].lastIp == Next(old(addrs[k].lastIp), addrs[k].Answer(tick.resolve))
      ensures running == (old(running) && !tick.stopRequested)
    {
      var _ := Check(tick.resolve);
      if tick.stopRequested {
        Stop();
      }
    }

    /** Tick `ticks` of the loop, where every stored IP is that of the
        ticks before it, from the stored IPs `start`. */
    method PollAt(schedule: seq<Tick>, ticks: nat, ghost start: map<string, Option<string>>)
      requires Valid() && ticks < |schedule| && start.Keys == addrs.Keys
      requires forall k :: k in addrs ==> addrs[k].lastIp == LastAfter(addrs[k], start[k], schedule, ticks)
      modifies this`running, addrs.Values
      ensures forall k :: k in addrs ==> addrs[k].listener == old(addrs[k].listener)
      ensures forall k :: k in addrs ==> addrs[k].lastIp == LastAfter(addrs[k], start[k], schedule, ticks + 1)
      ensures running == (old(running) && !schedule[ticks].stopRequested)
    {
      Poll(schedule[ticks]);
    }

    /** `wait_for_changes()`: check, then wait, for as long as `stop()` has
        not been called.  Tick `t` sees `schedule[t]`; the model ends when
        the schedule does, where the real loop would go on. */
    method WaitForChanges(schedule: seq<Tick>) returns (ticks: nat)
      requires Valid()
      modifies this`running, addrs.Values
      ensures Valid() && keys == old(keys) && addrs == old(addrs)
      ensures forall k :: k in addrs ==> addrs[k].listener == old(addrs[k].listener)
      ensures ticks <= |schedule|
      ensures forall k :: k in addrs ==> addrs[k].lastIp == LastAfter(addrs[k], old(addrs[k].lastIp), schedule, ticks)
      ensures forall t :: 0 <= t < ticks - 1 ==> !schedule[t].stopRequested
      ensures ticks < |schedule| ==> ticks > 0 && schedule[ticks - 1].stopRequested
      ensures running == (forall t :: 0 <= t < ticks ==> !schedule[t].stopRequested)
    {
      ghost var start := map k | k in addrs :: addrs[k].lastIp;
      running := true;
      ticks := 0;
      while running && ticks < |schedule|
        invariant keys == old(keys) && addrs == old(addrs)
        invariant forall k :: k in addrs ==> addrs[k].listener == old(addrs[k].listener)
        invariant ticks <= |schedule|
        invariant forall k :: k in addrs ==> addrs[k].lastIp == LastAfter(addrs[k], start[k], schedule, ticks)
        invariant ticks > 0 ==> NoStopIn(schedule, ticks - 1)
        invariant running == NoStopIn(schedule, ticks)
        decreases |schedule| - ticks
      {
        PollAt(schedule, ticks, start);
        ticks := ticks + 1;
      }
      NoStopInAll(schedule, ticks);
      if ticks > 0 {
        NoStopInAll(schedule, ticks - 1);
      }
    }
  }

  /** The scenario of the entry-watch test: one listener on one address; the
      answer stays 1.1.1.1 for two checks, then turns to 1.1.1.2 for two.
      The result is the number of listener calls after each check. */
  method EntryWatchScenario() returns (counts: seq<nat>)
    ensures counts == [0, 0, 1, 1]
  {
    var watcher, w := WatchOne("google.com", 4, 0);
    var first: Resolver := (a, f) => ["1.1.1.1"];
    var second: Resolver := (a, f) => ["1.1.1.2"];
    var n1 := CheckSingle(watcher, w, first);
    assert w.lastIp == Some("1.1.1.1");
    var n2 := CheckSingle(watcher, w, first);
    assert "1.1.1.1" !in second("google.com", AF_INET);
    var n3 := CheckSingle(watcher, w, second);
    var n4 := CheckSingle(watcher, w, second);
    counts := [n1, n1 + n2, n1 + n2 + n3, n1 + n2 + n3 + n4];
  }

  /** A new watcher with `callback` registered for one address. */
  method WatchOne<L>(addr: string, stack: int, callback: L) returns (watcher: DnsWatcher<L>, w: EntryWatch<L>)
    ensures fresh(watcher) && fresh(w)
    ensures watcher.Valid() && watcher.Watches() == [w] && watcher.addrs.Values == {w}
    ensures w.address == addr && w.stack == stack && w.family == FamilyOf(stack)
    ensures w.listener == [callback] && w.lastIp == None
  {
    watcher := new DnsWatcher<L>();
    w := watcher.Add(addr, stack, callback);
    assert watcher.addrs == map[Key(stack, addr) := w];
  }

  /** `watcher.check()` on a watcher holding the single watch `w`, with the
      number of listener calls it makes. */
  method CheckSingle<L>(watcher: DnsWatcher<L>, w: EntryWatch<L>, resolve: Resolver) returns (n: nat)
    requires watcher.Valid() && watcher.Watches() == [w] && watcher.addrs.Values == {w}
    modifies w
    ensures watcher.Valid() && watcher.Watches() == [w] && watcher.addrs.Values == {w}
    ensures w.listener == old(w.listener) && w.lastIp == Next(old(w.lastIp), w.Answer(resolve))
    ensures n == |Notifications(w.listener, Observe(old(w.lastIp), w.Answer(resolve)))|
  {
    var calls := watcher.Check(resolve);
    assert w in watcher.addrs.Values;
    n := |calls|;
  }
}
