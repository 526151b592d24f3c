/** The SDK's event emitter: for every event name, the listeners registered
    for it, kept in registration order without repetition (a JavaScript `Set`),
    with event names kept in the order they were first given a listener (a
    JavaScript `Map`). An event with no listeners has no entry. */
module Events {
  import opened JsValue
  import opened Types

  predicate NoDups<T(==)>(s: seq<T>) {
    forall i, j :: 0 <= i < j < |s| ==> s[i] != s[j]
  }

  /** `s` with every occurrence of `x` taken out, the rest in order. */
  function Without<T(==)>(s: seq<T>, x: T): (r: seq<T>)
    ensures forall i :: 0 <= i < |r| ==> r[i] in s && r[i] != x
    ensures forall i :: 0 <= i < |s| && s[i] != x ==> s[i] in r
    ensures |r| <= |s|
    ensures x !in s ==> r == s
  {
    if s == [] then []
    else
      var rest := Without(s[1..], x);
      if s[0] == x then rest else [s[0]] + rest
  }

  /** Taking an element out of a list without repetitions leaves one. */
  lemma {:induction false} WithoutKeepsNoDups<T>(s: seq<T>, x: T)
    requires NoDups(s)
    ensures NoDups(Without(s, x))
  {
    if s != [] {
      assert NoDups(s[1..]);
      WithoutKeepsNoDups(s[1..], x);
      if s[0] != x {
        var rest := Without(s[1..], x);
        assert s[0] !in rest;
        assert Without(s, x) == [s[0]] + rest;
      }
    }
  }

  /** The emitter's state as a value: the event order of the `Map` and each
      event's listener `Set`. */
  datatype Registry<L(==)> = Registry(names: seq<GBEvent>, sets: map<GBEvent, seq<L>>) {
    /** No empty set is kept, sets hold no listener twice, and the key order
        lists exactly the keys, once each. */
    ghost predicate Valid() {
      NoDups(names)
      && (forall e :: e in sets <==> e in names)
      && (forall e :: e in sets ==> sets[e] != [] && NoDups(sets[e]))
    }

    /** The listeners of `e` in registration order ([] when it has none). */
    function Listeners(e: GBEvent): seq<L> {
      if e in sets then sets[e] else []
    }

    /** `listenerCount(e)` */
    function Count(e: GBEvent): nat {
      |Listeners(e)|
    }

    /** `on(e, l)` */
    function On(e: GBEvent, l: L): Registry<L> {
      if e !in sets then Registry(names + [e], sets[e := [l]])
      else if l in sets[e] then this
      else Registry(names, sets[e := sets[e] + [l]])
    }

    /** `off(e, l)`: an emptied set loses its key. */
    function Off(e: GBEvent, l: L): Registry<L> {
      if e !in sets then this
      else
        var rest := Without(sets[e], l);
        if rest == [] then Registry(Without(names, e), sets - {e})
        else Registry(names, sets[e := rest])
    }

    /** `removeAllListeners(e?)` */
    function RemoveAll(e: Option<GBEvent>): Registry<L> {
      match e
      case Some(ev) => Registry(Without(names, ev), sets - {ev})
      case None => Registry([], map[])
    }
  }

  function EmptyRegistry<L(==)>(): (r: Registry<L>)
    ensures r.Valid()
  {
    Registry([], map[])
  }

  /** What a listener does to the emitter while it runs: `on`, `off` or
      `removeAllListeners` calls. */
  datatype Edit<L> = AddListener(event: GBEvent, listener: L) | RemoveListener(event: GBEvent, listener: L) | Clear(which: Option<GBEvent>)

  /** One listener call: its calls back into the emitter, and whether it then throws. */
  datatype Reaction<L> = Reaction(edits: seq<Edit<L>>, throws: bool)

  function ApplyEdit<L(==)>(r: Registry<L>, ed: Edit<L>): Registry<L> {
    match ed
    case AddListener(e, l) => r.On(e, l)
    case RemoveListener(e, l) => r.Off(e, l)
    case Clear(which) => r.RemoveAll(which)
  }

  function ApplyEdits<L(==)>(r: Registry<L>, eds: seq<Edit<L>>): Registry<L>
    decreases |eds|
  {
    if eds == [] then r else ApplyEdit(ApplyEdits(r, eds[..|eds| - 1]), eds[|eds| - 1])
  }

  /** The state after the listeners `called` have run in order, the listener at
      position `i` reacting with `react(called[i], i)`. */
  function AfterListeners<L(==)>(r: Registry<L>, called: seq<L>, react: (L, nat) -> Reaction<L>): Registry<L>
    decreases |called|
  {
    if called == [] then r
    else
      var n := |called| - 1;
      ApplyEdits(AfterListeners(r, called[..n], react), react(called[n], n).edits)
  }

  /** One listener invocation: who was called and with what. */
  datatype Delivery<L> = Delivery(listener: L, data: Option<Json>)

  class EventEmitter<L(==)> {
    var names: seq<GBEvent>
    var listeners: map<GBEvent, seq<L>>

    ghost function Reg(): Registry<L>
      reads this
    {
      Registry(names, listeners)
    }

    ghost predicate Valid()
      reads this
    {
      Reg().Valid()
    }

    constructor ()
      ensures Valid() && Reg() == EmptyRegistry()
    {
      names := [];
      listeners := map[];
    }

    method On(e: GBEvent, l: L)
      requires Valid()
      modifies this
      ensures Valid()
      ensures Reg() == old(Reg()).On(e, l)
    {
      OnKeepsValid(Reg(), e, l);
      if e !in listeners {
        names := names + [e];
        listeners := listeners[e := [l]];
      } else if l !in listeners[e] {
        listeners := listeners[e := listeners[e] + [l]];
      }
    }

    method Off(e: GBEvent, l: L)
      requires Valid()
      modifies this
      ensures Valid()
      ensures Reg() == old(Reg()).Off(e, l)
    {
      OffKeepsValid(Reg(), e, l);
      if e in listeners {
        var remaining := Without(listeners[e], l);
        if remaining == [] {
          listeners := listeners - {e};
          names := Without(names, e);
        } else {
          listeners := listeners[e := remaining];
        }
      }
    }

    method RemoveAllListeners(e: Option<GBEvent>)
      requires Valid()
      modifies this
      ensures Valid()
      ensures Reg() == old(Reg()).RemoveAll(e)
    {
      RemoveAllKeepsValid(Reg(), e);
      if e.Some? {
        listeners := listeners - {e.value};
        names := Without(names, e.value);
      } else {
        listeners := map[];
        names := [];
      }
    }

    /** The calls one listener makes back into the emitter, in order. */
    method ApplyReaction(edits: seq<Edit<L>>)
      requires Valid()
      modifies this
      ensures Valid()
      ensures Reg() == ApplyEdits(old(Reg()), edits)
    {
      ghost var start := Reg();
      var j := 0;
      while j < |edits|
        invariant 0 <= j <= |edits|
        invariant Valid()
        invariant Reg() == ApplyEdits(start, edits[..j])
      {
        assert edits[..j + 1][..j] == edits[..j];
        ghost var before := Reg();
        match edits[j] {
          case AddListener(ev, l) => On(ev, l);
          case RemoveListener(ev, l) => Off(ev, l);
          case Clear(which) => RemoveAllListeners(which);
        }
        assert Reg() == ApplyEdit(before, edits[j]);
        assert ApplyEdits(start, edits[..j + 1]) == ApplyEdit(ApplyEdits(start, edits[..j]), edits[j]);
        j := j + 1;
      }
      assert edits[..j] == edits;
    }

    /** `emit(e, data)`: every listener registered when the call starts is
        called once, in registration order, with `data`, whatever the listeners
        do to the registrations meanwhile and whether or not they throw; the
        registrations end as the listeners' own calls left them. */
    method Emit(e: GBEvent, data: Option<Json>, react: (L, nat) -> Reaction<L>) returns (delivered: seq<Delivery<L>>)
      requires Valid()
      modifies this
      ensures Valid()
      ensures |delivered| == old(Reg()).Count(e)
      ensures forall i :: 0 <= i < |delivered| ==> delivered[i] == Delivery(old(Reg()).Listeners(e)[i], data)
      ensures Reg() == AfterListeners(old(Reg()), old(Reg()).Listeners(e), react)
    {
      ghost var start := Reg();
      var snapshot := if e in listeners then listeners[e] else [];
      delivered := [];
      var i := 0;
      while i < |snapshot|
        invariant 0 <= i <= |snapshot|
        invariant Valid()
        invariant |delivered| == i
        invariant forall k :: 0 <= k < i ==> delivered[k] == Delivery(snapshot[k], data)
        invariant Reg() == AfterListeners(start, snapshot[..i], react)
      {
        var reaction := react(snapshot[i], i);
        delivered := delivered + [Delivery(snapshot[i], data)];
        ApplyReaction(reaction.edits);
        assert snapshot[..i + 1][..i] == snapshot[..i];
        i := i + 1;
      }
      assert snapshot[..i] == snapshot;
    }

    /** `listenerCount(e)` */
    function ListenerCount(e: GBEvent): (n: nat)
      requires Valid()
      reads this
      ensures n == 0 <==> e !in names
      ensures n == Reg().Count(e)
    {
      if e in listeners then |listeners[e]| else 0
    }

    /** `hasListeners(e)` */
    function HasListeners(e: GBEvent): (r: bool)
      requires Valid()
      reads this
      ensures r <==> ListenerCount(e) > 0
    {
      ListenerCount(e) > 0
    }

    /** `eventNames()`: the events that have listeners, each once, in the
        order they were (last) given their first listener. */
    function EventNames(): (r: seq<GBEvent>)
      requires Valid()
      reads this
      ensures NoDups(r)
      ensures forall e :: e in r <==> ListenerCount(e) > 0
    {
      names
    }
  }

  lemma OnKeepsValid<L>(r: Registry<L>, e: GBEvent, l: L)
    requires r.Valid()
    ensures r.On(e, l).Valid()
  {
  }

  lemma OffKeepsValid<L>(r: Registry<L>, e: GBEvent, l: L)
    requires r.Valid()
    ensures r.Off(e, l).Valid()
  {
    if e in r.sets {
      WithoutKeepsNoDups(r.sets[e], l);
      WithoutKeepsNoDups(r.names, e);
    }
  }

  lemma RemoveAllKeepsValid<L>(r: Registry<L>, e: Option<GBEvent>)
    requires r.Valid()
    ensures r.RemoveAll(e).Valid()
  {
    if e.Some? {
      WithoutKeepsNoDups(r.names, e.value);
    }
  }

  /** `on` has set semantics: registering the same listener again changes
      nothing, and the count grows by one only for a new listener. */
  lemma OnIsIdempotent<L>(r: Registry<L>, e: GBEvent, l: L)
    requires r.Valid()
    ensures r.On(e, l).On(e, l) == r.On(e, l)
    ensures r.On(e, l).Count(e) == r.Count(e) + (if l in r.Listeners(e) then 0 else 1)
    ensures l in r.On(e, l).Listeners(e)
    ensures forall e' :: e' != e ==> r.On(e, l).Listeners(e') == r.Listeners(e')
  {
  }

  /** `off` takes out exactly the given listener of the given event, keeping
      the others in order, and does nothing for a listener that is not there. */
  lemma OffRemovesOnlyThatListener<L>(r: Registry<L>, e: GBEvent, l: L)
    requires r.Valid()
    ensures r.Off(e, l).Listeners(e) == Without(r.Listeners(e), l)
    ensures r.Off(e, l).Count(e) == r.Count(e) - (if l in r.Listeners(e) then 1 else 0)
    ensures forall e' :: e' != e ==> r.Off(e, l).Listeners(e') == r.Listeners(e')
    ensures l !in r.Listeners(e) ==> r.Off(e, l) == r
  {
    if e in r.sets && l in r.sets[e] {
      WithoutOneLess(r.sets[e], l);
    }
    if e in r.sets && l !in r.sets[e] {
      assert Without(r.sets[e], l) == r.sets[e];
      assert r.sets[e := r.sets[e]] == r.sets;
    }
  }

  /** Taking out a listener that is there, from a set without repetition,
      shortens the set by exactly one. */
  lemma {:induction false} WithoutOneLess<T>(s: seq<T>, x: T)
    requires NoDups(s) && x in s
    ensures |Without(s, x)| == |s| - 1
  {
    if s[0] == x {
      assert x !in s[1..];
    } else {
      assert NoDups(s[1..]);
      WithoutOneLess(s[1..], x);
    }
  }

  /** Removing a listener just added for an event that did not have it gives
      back the registrations as they were, key order included. */
  lemma OffUndoesOn<L>(r: Registry<L>, e: GBEvent, l: L)
    requires r.Valid() && l !in r.Listeners(e)
    ensures r.On(e, l).Off(e, l) == r
  {
    if e in r.sets {
      var s := r.sets[e];
      WithoutAppended(s, l);
      assert r.sets[e := s] == r.sets;
    } else {
      WithoutAppended(r.names, e);
      assert Without([l], l) == [];
      assert r.sets[e := [l]] - {e} == r.sets;
    }
  }

  lemma {:induction false} WithoutAppended<T>(s: seq<T>, x: T)
    requires x !in s
    ensures Without(s + [x], x) == s
  {
    if s != [] {
      assert (s + [x])[1..] == s[1..] + [x];
      WithoutAppended(s[1..], x);
    }
  }

  /** `removeAllListeners(e)` clears `e` and keeps every other event;
      `removeAllListeners()` clears every event. */
  lemma RemoveAllScope<L>(r: Registry<L>, e: GBEvent)
    requires r.Valid()
    ensures r.RemoveAll(Some(e)).Count(e) == 0
    ensures forall e' :: e' != e ==> r.RemoveAll(Some(e)).Listeners(e') == r.Listeners(e')
    ensures forall e' :: r.RemoveAll(None).Count(e') == 0
  {
  }

  /** The key order names exactly the events with at least one listener. */
  lemma NamesAreNonEmptyEvents<L>(r: Registry<L>)
    requires r.Valid()
    ensures forall e :: e in r.names <==> r.Count(e) > 0
  {
  }

  /** Listeners that do not call back into the emitter leave it unchanged,
      whether or not they throw. */
  lemma {:induction false} PassiveListenersChangeNothing<L>(r: Registry<L>, called: seq<L>, react: (L, nat) -> Reaction<L>)
    requires forall i :: 0 <= i < |called| ==> react(called[i], i).edits == []
    ensures AfterListeners(r, called, react) == r
  {
    if called != [] {
      var n := |called| - 1;
      PassiveListenersChangeNothing(r, called[..n], react);
    }
  }
}
