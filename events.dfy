/** An event hook: an ordered list of handlers that firing the event calls
    one after another.  Handlers are external code; calling one is recorded
    as a `Call` of the handler with the arguments the event was fired with. */
module Events {
  import opened Common

  /** One handler invocation. */
  datatype Call<H, A> = Call(handler: H, args: A)

  /** Position of the first `h` in `s` (where `list.remove` deletes). */
  function FirstIndex<H(==)>(s: seq<H>, h: H): (i: nat)
    requires h in s
    ensures i < |s| && s[i] == h && h !in s[..i]
  {
    if s[0] == h then 0
    else
      var j := FirstIndex(s[1..], h);
      assert s[..j + 1] == [s[0]] + s[1..][..j];
      j + 1
  }

  /** Taking `h` out from between `a` and `b` loses one `h` and nothing else. */
  lemma SpliceMultiset<H>(a: seq<H>, h: H, b: seq<H>)
    ensures multiset(a + b) + multiset{h} == multiset(a + [h] + b)
  {
    assert a + [h] + b == a + ([h] + b);
  }

  /** Deleting the first occurrence of `h` removes exactly one `h` and keeps
      every other handler, in order, with the ones after it shifted down. */
  lemma RemovedOnce<H>(s: seq<H>, h: H)
    requires h in s
    ensures var i := FirstIndex(s, h); multiset(s[..i] + s[i + 1..]) + multiset{h} == multiset(s)
    ensures var i := FirstIndex(s, h); var r := s[..i] + s[i + 1..];
      && |r| == |s| - 1
      && (forall k :: 0 <= k < i ==> r[k] == s[k])
      && (forall k :: i < k < |s| ==> r[k - 1] == s[k])
  {
    var i := FirstIndex(s, h);
    assert s == s[..i] + [h] + s[i + 1..];
    SpliceMultiset(s[..i], h, s[i + 1..]);
  }

  class EventHook<H(==)> {
    var handlers: seq<H>

    /** A new hook has no handlers. */
    constructor ()
      ensures handlers == []
    {
      handlers := [];
    }

    /** `hook += handler`: the handler goes last. */
    method Add(h: H)
      modifies this
      ensures handlers == old(handlers) + [h]
    {
      handlers := handlers + [h];
    }

    /** `hook -= handler`: delete its first occurrence; `list.remove` raises
        ValueError when the handler is not registered. */
    method Remove(h: H) returns (r: Outcome)
      modifies this
      ensures h in old(handlers) ==>
        var i := FirstIndex(old(handlers), h);
        r == Done && handlers == old(handlers)[..i] + old(handlers)[i + 1..]
      ensures h !in old(handlers) ==>
        r == Raised(ValueError("list.remove(x): x not in list")) && handlers == old(handlers)
    {
      if h !in handlers {
        return Raised(ValueError("list.remove(x): x not in list"));
      }
      var i := FirstIndex(handlers, h);
      handlers := handlers[..i] + handlers[i + 1..];
      r := Done;
    }

    /** `add_top(handler)`: the handler goes first and is called first. */
    method AddTop(h: H)
      modifies this
      ensures handlers == [h] + old(handlers)
    {
      handlers := [h] + handlers;
    }

    /** `fire(*args)`: every handler once, in list order, with the same
        arguments; the list itself is left as it is. */
    method Fire<A>(args: A) returns (calls: seq<Call<H, A>>)
      ensures |calls| == |handlers|
      ensures forall i :: 0 <= i < |handlers| ==> calls[i] == Call(handlers[i], args)
    {
      calls := [];
      for i := 0 to |handlers|
        invariant |calls| == i
        invariant forall k :: 0 <= k < i ==> calls[k] == Call(handlers[k], args)
      {
        calls := calls + [Call(handlers[i], args)];
      }
    }
  }
}
