/** The socket's listener registry, shared by every view: `on` appends a
    listener under an event name, and `off(name)` with no listener argument
    drops every listener registered under that name. */
module Registry {
  import opened Events

  type Registry = map<string, seq<Listener>>

  /** One `socket.on(name, listener)` call. */
  type Registration = (string, Listener)

  /** The listeners registered under `name`, in registration order. */
  function Listeners(h: Registry, name: string): seq<Listener> {
    if name in h then h[name] else []
  }

  /** Every listener sits under a name it was written for. */
  ghost predicate WellKeyed(h: Registry) {
    forall n, l | n in h && l in h[n] :: Handles(l, n)
  }

  /** `socket.on(name, l)`. */
  function On(h: Registry, name: string, l: Listener): Registry {
    h[name := Listeners(h, name) + [l]]
  }

  /** `on` appends `l` after the listeners already under `name`, adds
      `name` if it was missing, and leaves every other name alone. */
  lemma OnEffect(h: Registry, name: string, l: Listener, m: string)
    ensures Listeners(On(h, name, l), m) == Listeners(h, m) + (if m == name then [l] else [])
    ensures m in On(h, name, l) <==> m in h || m == name
  {
  }

  /** `socket.off(name)`: removes all listeners of `name`, and only those. */
  function Off(h: Registry, name: string): Registry {
    h - {name}
  }

  /** `off(name)` empties `name` and leaves every other name alone. */
  lemma OffEffect(h: Registry, name: string, m: string)
    ensures Listeners(Off(h, name), m) == if m == name then [] else Listeners(h, m)
    ensures m in Off(h, name) <==> m in h && m != name
  {
  }

  /** The event names of a run of registrations, in order. */
  function NamesOf(regs: seq<Registration>): seq<string> {
    seq(|regs|, i requires 0 <= i < |regs| => regs[i].0)
  }

  /** The listeners a run of registrations puts under `name`, in order. */
  function Registered(regs: seq<Registration>, name: string): seq<Listener> {
    if regs == [] then []
    else
      var last := regs[|regs| - 1];
      Registered(regs[..|regs| - 1], name) + (if last.0 == name then [last.1] else [])
  }

  /** A run of `socket.on` calls, applied in order. */
  function OnAll(h: Registry, regs: seq<Registration>): Registry {
    if regs == [] then h
    else
      var last := regs[|regs| - 1];
      On(OnAll(h, regs[..|regs| - 1]), last.0, last.1)
  }

  /** A listener is registered under `name` by a run only if the run holds
      that very registration; a name the run never mentions gets nothing. */
  lemma {:induction false} RegisteredComesFromRun(regs: seq<Registration>, name: string, l: Listener)
    ensures l in Registered(regs, name) ==> (name, l) in regs
  {
    if regs != [] {
      RegisteredComesFromRun(regs[..|regs| - 1], name, l);
    }
  }

  /** A name the run never mentions gets no listener from it. */
  lemma {:induction false} UnmentionedNameGetsNothing(regs: seq<Registration>, name: string)
    requires name !in NamesOf(regs)
    ensures Registered(regs, name) == []
  {
    if regs != [] {
      var init := regs[..|regs| - 1];
      assert NamesOf(regs) == NamesOf(init) + [regs[|regs| - 1].0];
      UnmentionedNameGetsNothing(init, name);
    }
  }

  /** Extending a run of `on` calls by its next registration. */
  lemma OnAllExtend(h: Registry, regs: seq<Registration>, k: nat)
    requires k < |regs|
    ensures OnAll(h, regs[..k + 1]) == On(OnAll(h, regs[..k]), regs[k].0, regs[k].1)
  {
    assert regs[..k + 1][..k] == regs[..k];
  }

  /** Extending a run of `off` calls by its next name. */
  lemma OffAllExtend(h: Registry, names: seq<string>, k: nat)
    requires k < |names|
    ensures OffAll(h, names[..k + 1]) == Off(OffAll(h, names[..k]), names[k])
  {
    assert names[..k + 1][..k] == names[..k];
  }

  /** After a run of `on` calls, each name holds its earlier listeners
      followed by the run's listeners for it, in order. */
  lemma {:induction false} OnAllListeners(h: Registry, regs: seq<Registration>, name: string)
    ensures Listeners(OnAll(h, regs), name) == Listeners(h, name) + Registered(regs, name)
  {
    if regs != [] {
      var init, last := regs[..|regs| - 1], regs[|regs| - 1];
      var prev := OnAll(h, init);
      OnAllListeners(h, init, name);
      OnEffect(prev, last.0, last.1, name);
      var extra := if last.0 == name then [last.1] else [];
      calc {
        Listeners(OnAll(h, regs), name);
        Listeners(prev, name) + extra;
        (Listeners(h, name) + Registered(init, name)) + extra;
        Listeners(h, name) + (Registered(init, name) + extra);
        Listeners(h, name) + Registered(regs, name);
      }
    }
  }

  /** A run of `on` calls adds exactly the names it mentions. */
  lemma {:induction false} OnAllNames(h: Registry, regs: seq<Registration>, name: string)
    ensures name in OnAll(h, regs) <==> name in h || name in NamesOf(regs)
  {
    if regs != [] {
      var init := regs[..|regs| - 1];
      OnAllNames(h, init, name);
      OnEffect(OnAll(h, init), regs[|regs| - 1].0, regs[|regs| - 1].1, name);
      assert NamesOf(regs) == NamesOf(init) + [regs[|regs| - 1].0];
    }
  }

  /** A run of `socket.off` calls, applied in order. */
  function OffAll(h: Registry, names: seq<string>): (r: Registry)
    ensures forall m :: m in names ==> Listeners(r, m) == []
    ensures forall m :: m !in names ==> Listeners(r, m) == Listeners(h, m)
    ensures forall m :: m in r <==> m in h && m !in names
  {
    if names == [] then h
    else
      var init := names[..|names| - 1];
      var prev := OffAll(h, init);
      assert forall m :: m in names <==> m in init || m == names[|names| - 1];
      assert forall m {:trigger Listeners(Off(prev, names[|names| - 1]), m)} ::
        Listeners(Off(prev, names[|names| - 1]), m) == if m == names[|names| - 1] then [] else Listeners(prev, m)
        by { forall m { OffEffect(prev, names[|names| - 1], m); } }
      Off(prev, names[|names| - 1])
  }

  /** Deregistering every name a run of registrations used undoes that run:
      the registry is as if the names had been dropped without registering. */
  lemma OffUndoesOn(h: Registry, regs: seq<Registration>, names: seq<string>)
    requires forall i :: 0 <= i < |regs| ==> regs[i].0 in names
    ensures OffAll(OnAll(h, regs), names) == OffAll(h, names)
  {
    var a, b := OffAll(OnAll(h, regs), names), OffAll(h, names);
    forall m ensures m in a <==> m in b {
      OnAllNames(h, regs, m);
    }
    forall m | m in a ensures a[m] == b[m] {
      OnAllListeners(h, regs, m);
      assert m !in names;
      assert m !in NamesOf(regs) by {
        assert forall i :: 0 <= i < |regs| ==> NamesOf(regs)[i] == regs[i].0;
      }
      UnmentionedNameGetsNothing(regs, m);
      assert Listeners(a, m) == Listeners(b, m);
    }
  }

  /** Registering listeners that each sit under a name they handle keeps the
      registry well keyed. */
  lemma OnAllWellKeyed(h: Registry, regs: seq<Registration>)
    requires WellKeyed(h)
    requires forall i :: 0 <= i < |regs| ==> Handles(regs[i].1, regs[i].0)
    ensures WellKeyed(OnAll(h, regs))
  {
    var r := OnAll(h, regs);
    forall n, l | n in r && l in r[n] ensures Handles(l, n) {
      OnAllListeners(h, regs, n);
      assert Listeners(r, n) == r[n];
      if l !in Listeners(h, n) {
        RegisteredComesFromRun(regs, n, l);
      }
    }
  }

  /** Deregistering keeps the registry well keyed. */
  lemma OffAllWellKeyed(h: Registry, names: seq<string>)
    requires WellKeyed(h)
    ensures WellKeyed(OffAll(h, names))
  {
    var r := OffAll(h, names);
    forall n, l | n in r && l in r[n] ensures Handles(l, n) {
      assert Listeners(r, n) == Listeners(h, n);
    }
  }
}
