/**
 * The global event emitter: a dictionary from event name to the list of
 * callbacks registered for it. `on` appends, `off` takes a callback out and
 * `emit` calls every callback of the event, in registration order, with all
 * of its arguments.
 *
 * Callbacks are values of a type parameter compared by identity (`==`).
 * Calling a callback is not modelled as running it: `emit` returns the
 * sequence of calls it makes, each a callback paired with its arguments.
 */
module Events {

  /** One call made by `emit`: the callback and the arguments it receives. */
  datatype Call<C, A> = Call(callback: C, args: seq<A>)

  /** `off` keeps every callback other than `c`, in order. */
  function Without<C(==)>(cbs: seq<C>, c: C): (r: seq<C>)
    ensures c !in r
    ensures forall i :: 0 <= i < |r| ==> r[i] in cbs
    ensures forall i :: 0 <= i < |cbs| && cbs[i] != c ==> cbs[i] in r
    ensures |r| <= |cbs|
  {
    if cbs == [] then []
    else if cbs[0] == c then Without(cbs[1..], c)
    else [cbs[0]] + Without(cbs[1..], c)
  }

  /** The callbacks of `event`, none when nothing was registered. */
  function Registered<C>(callbacks: map<string, seq<C>>, event: string): seq<C>
  {
    if event in callbacks then callbacks[event] else []
  }

  /** A callback that was not registered leaves the list as it was. */
  lemma {:induction false} WithoutAbsent<C>(cbs: seq<C>, c: C)
    requires c !in cbs
    ensures Without(cbs, c) == cbs
  {
    if cbs != [] {
      assert cbs[0] != c;
      assert c !in cbs[1..];
      WithoutAbsent(cbs[1..], c);
      assert [cbs[0]] + cbs[1..] == cbs;
    }
  }

  /** Removal distributes over concatenation. */
  lemma {:induction false} WithoutAppend<C>(xs: seq<C>, ys: seq<C>, c: C)
    ensures Without(xs + ys, c) == Without(xs, c) + Without(ys, c)
  {
    if xs == [] {
      assert xs + ys == ys;
    } else {
      assert (xs + ys)[1..] == xs[1..] + ys;
      WithoutAppend(xs[1..], ys, c);
    }
  }

  /**
   * `off` undoes an `on`: registering a new callback and removing it again
   * gives back the list as it was.
   */
  lemma OnThenOff<C>(cbs: seq<C>, c: C)
    requires c !in cbs
    ensures Without(cbs + [c], c) == cbs
  {
    WithoutAppend(cbs, [c], c);
    WithoutAbsent(cbs, c);
    assert Without([c], c) == [];
  }

  /** Removing one callback keeps the others in their relative order. */
  lemma OffKeepsOthers<C>(f: C, g: C, h: C)
    requires f != g && f != h
    ensures Without([f, g, h], f) == [g, h]
  {
    assert [f, g, h][1..] == [g, h];
    assert [g, h][1..] == [h];
    assert [h][1..] == [];
    assert Without([h], f) == [h] + Without([], f) == [h];
    assert Without([g, h], f) == [g] + Without([h], f);
  }

  class Emitter<C(==), A> {
    var callbacks: map<string, seq<C>>

    constructor ()
      ensures callbacks == map[]
    {
      callbacks := map[];
    }

    /** Appends `c` to the callbacks of `event`, creating the list when needed. */
    method On(event: string, c: C)
      modifies this
      ensures callbacks == old(callbacks)[event := Registered(old(callbacks), event) + [c]]
    {
      callbacks := callbacks[event := Registered(callbacks, event) + [c]];
    }

    /**
     * Takes `c` out of the callbacks of `event`. An unknown callback or an
     * unknown event is no error.
     */
    method Off(event: string, c: C)
      modifies this
      ensures callbacks == old(callbacks)[event := Without(Registered(old(callbacks), event), c)]
      ensures Registered(callbacks, event) == Without(Registered(old(callbacks), event), c)
      ensures forall e :: e != event ==> Registered(callbacks, e) == Registered(old(callbacks), e)
    {
      callbacks := callbacks[event := Without(Registered(callbacks, event), c)];
    }

    /**
     * Calls every callback of `event` in registration order with all of
     * `args`; an event that was never registered makes no call.
     */
    method Emit(event: string, args: seq<A>) returns (calls: seq<Call<C, A>>)
      ensures |calls| == |Registered(callbacks, event)|
      ensures forall i :: 0 <= i < |calls| ==>
                calls[i].callback == Registered(callbacks, event)[i] && calls[i].args == args
      ensures event !in callbacks ==> calls == []
    {
      var cbs := Registered(callbacks, event);
      calls := [];
      var i := 0;
      while i < |cbs|
        invariant 0 <= i <= |cbs|
        invariant |calls| == i
        invariant forall j :: 0 <= j < i ==> calls[j] == Call(cbs[j], args)
      {
        calls := calls + [Call(cbs[i], args)];
        i := i + 1;
      }
    }
  }

  /** Two `on`s and one `off`: the remaining callbacks keep their order. */
  method OnOffExample<A>(f: int, g: int, h: int)
    requires f != g && f != h
  {
    var e := new Emitter<int, A>();
    e.On("foo", f);
    e.On("foo", g);
    e.On("foo", h);
    assert e.callbacks["foo"] == [f, g, h];
    e.Off("foo", f);
    OffKeepsOthers(f, g, h);
    assert e.callbacks["foo"] == [g, h];
    e.Off("myEvent", f);
    assert e.callbacks["foo"] == [g, h];
  }
}
