/** `EventDispatcher<T>` (src/event.dispatcher.ts, bundled in dist/waveaudio.js:55-69). */
module Events {

  /** `handlers.filter(h => h !== handler)`: every registration of `handler` dropped. */
  function Without<H(==)>(handlers: seq<H>, handler: H): seq<H>
  {
    if handlers == [] then []
    else (if handlers[0] == handler then [] else [handlers[0]]) + Without(handlers[1..], handler)
  }

  /** `off` leaves no registration of the handler behind and keeps every other one. */
  lemma {:induction false} WithoutCounts<H>(handlers: seq<H>, handler: H, other: H)
    ensures multiset(Without(handlers, handler))[handler] == 0
    ensures other != handler ==> multiset(Without(handlers, handler))[other] == multiset(handlers)[other]
  {
    if handlers != [] {
      WithoutCounts(handlers[1..], handler, other);
      assert handlers == [handlers[0]] + handlers[1..];
    }
  }

  /** The remaining handlers keep their relative order: filtering distributes over concatenation. */
  lemma {:induction false} WithoutAppend<H>(a: seq<H>, b: seq<H>, handler: H)
    ensures Without(a + b, handler) == Without(a, handler) + Without(b, handler)
  {
    if a == [] {
      assert a + b == b;
    } else {
      assert (a + b)[1..] == a[1..] + b;
      WithoutAppend(a[1..], b, handler);
    }
  }

  /** `off` of a handler that is not registered changes nothing. */
  lemma {:induction false} WithoutAbsent<H>(handlers: seq<H>, handler: H)
    requires handler !in handlers
    ensures Without(handlers, handler) == handlers
  {
    if handlers != [] {
      WithoutAbsent(handlers[1..], handler);
      assert handlers == [handlers[0]] + handlers[1..];
    }
  }

  /** What a handler does to the dispatcher it is called from. */
  datatype Reaction<H> = Nothing | Subscribe(added: H) | Unsubscribe(removed: H)

  function React<H(==)>(handlers: seq<H>, reaction: Reaction<H>): seq<H>
  {
    match reaction
    case Nothing => handlers
    case Subscribe(h) => handlers + [h]
    case Unsubscribe(h) => Without(handlers, h)
  }

  /** The handler list after one handler call's `on`/`off` calls, applied in the order made. */
  function ReactSeq<H(==)>(handlers: seq<H>, reactions: seq<Reaction<H>>): seq<H>
  {
    if reactions == [] then handlers
    else React(ReactSeq(handlers, reactions[..|reactions| - 1]), reactions[|reactions| - 1])
  }

  /**
   * The handler list after the handlers of `called` have run, in that order; the `k`-th call
   * makes the `on`/`off` calls `reaction(k, called[k])`.
   */
  function ReactAll<H(==)>(handlers: seq<H>, called: seq<H>, reaction: (nat, H) -> seq<Reaction<H>>): seq<H>
  {
    if called == [] then handlers
    else
      var k := |called| - 1;
      ReactSeq(ReactAll(handlers, called[..k], reaction), reaction(k, called[k]))
  }

  /** Handlers that call neither `on` nor `off` leave the list as it was. */
  lemma {:induction false} ReactAllQuiet<H>(handlers: seq<H>, called: seq<H>, reaction: (nat, H) -> seq<Reaction<H>>)
    requires forall k :: 0 <= k < |called| ==> reaction(k, called[k]) == []
    ensures ReactAll(handlers, called, reaction) == handlers
  {
    if called != [] {
      var k := |called| - 1;
      assert reaction(k, called[k]) == [];
      ReactAllQuiet(handlers, called[..k], reaction);
    }
  }

  /** A handler that is never subscribed during the round and is `off`ed by a call is gone afterwards. */
  lemma {:induction false} ReactSeqDrops<H>(handlers: seq<H>, reactions: seq<Reaction<H>>, h: H)
    requires Unsubscribe(h) in reactions && Subscribe(h) !in reactions
    ensures h !in ReactSeq(handlers, reactions)
  {
    var init := reactions[..|reactions| - 1];
    var last := reactions[|reactions| - 1];
    assert reactions == init + [last];
    if last == Unsubscribe(h) {
      WithoutCounts(ReactSeq(handlers, init), h, h);
    } else {
      assert Unsubscribe(h) in init && Subscribe(h) !in init;
      ReactSeqDrops(handlers, init, h);
      assert last != Subscribe(h);
      if last.Unsubscribe? {
        WithoutCounts(ReactSeq(handlers, init), last.removed, h);
      }
    }
  }

  class EventDispatcher<H(==)> {
    /** Registered handlers, in registration order. */
    var handlers: seq<H>

    constructor ()
      ensures handlers == []
    {
      handlers := [];
    }

    /** `on`: registers the handler at the end; a handler may be registered more than once. */
    method On(handler: H)
      modifies this
      ensures handlers == old(handlers) + [handler]
    {
      handlers := handlers + [handler];
    }

    /** `off`: replaces the list by the one without any registration of `handler`. */
    method Off(handler: H)
      modifies this
      ensures handlers == Without(old(handlers), handler)
    {
      handlers := Without(handlers, handler);
    }

    /**
     * `trigger`: calls every handler of a snapshot taken before the first call, once per
     * registration and in registration order. `reaction(k, h)` lists the `on` and `off` calls
     * the `k`-th call, to `h`, makes on this dispatcher while it runs; those changes apply to the
     * live list only, never to who is called in this round. `called` lists the calls made.
     */
    method Trigger(reaction: (nat, H) -> seq<Reaction<H>>) returns (called: seq<H>)
      modifies this
      ensures called == old(handlers)
      ensures handlers == ReactAll(old(handlers), called, reaction)
    {
      var snapshot := handlers;
      called := [];
      var i := 0;
      while i < |snapshot|
        invariant 0 <= i <= |snapshot|
        invariant called == snapshot[..i]
        invariant handlers == ReactAll(snapshot, called, reaction)
      {
        var h := snapshot[i];
        called := called + [h];
        assert called[..|called| - 1] == snapshot[..i];
        handlers := ReactSeq(handlers, reaction(i, h));
        i := i + 1;
      }
      assert snapshot[..i] == snapshot;
    }
  }
}
