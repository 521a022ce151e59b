/**
 * The server's method registry (server/server.go): a map from method name to
 * handler, filled by `RegisterFunc` and `RegisterObject` before serving.
 *
 * A panic during registration is modelled as a returned message (`fault`);
 * the registry is left as it stood when the panic was raised.
 */
module ServerRegistry {
  import opened Wrappers
  import opened Proto
  import opened ServerHandler

  /** A value handed to `RegisterFunc`: a function, or something that is not one. */
  datatype Callable = NotAFunc(typeName: string) | AFunc(f: Func)

  /** One method of an object, as reflection lists it; `pkgPath` is empty for exported methods. */
  datatype MethodInfo = MethodInfo(name: string, pkgPath: string, fn: Func)

  /** One `addHandler` call: a method name and the value to register under it. */
  datatype Entry = Entry(methodName: string, value: Callable)

  /** The handler table after a registration step, and the panic it raised, if any. */
  datatype Registry = Registry(handlers: map<string, Handler>, fault: Option<string>)

  function DuplicatePanic(methodName: string): string
  {
    "Method '" + methodName + "' is exists"
  }

  function NotAFuncPanic(typeName: string): string
  {
    "reflect: NumIn of non-func type " + typeName
  }

  /** The prototype of an interface-typed parameter is a pointer to an interface, which is not `Params`. */
  function InterfacePrototypePanic(typeName: string): string
  {
    "interface conversion: *" + typeName + " is not jsonrpc2.Params: missing method IsValid"
  }

  /** Every registered handler has the handler shape; registration only ever adds such handlers. */
  predicate HandlersConform(handlers: map<string, Handler>)
  {
    forall m :: m in handlers ==> Conforms(handlers[m].fn.sig)
  }

  /** The handler a conforming function is registered as. */
  function HandlerFor(f: Func): Handler
    requires Conforms(f.sig)
  {
    Handler(f, ParamsType(f.sig.ins[0].name))
  }

  /**
   * `addHandler`. A name already present panics whatever is offered, before
   * anything else is looked at; a function without the handler shape is
   * silently skipped; otherwise exactly one entry is added.
   */
  function Register(handlers: map<string, Handler>, methodName: string, value: Callable): (r: Registry)
    ensures methodName in handlers ==> r == Registry(handlers, Some(DuplicatePanic(methodName)))
    ensures r.fault.Some? ==> r.handlers == handlers
    ensures r.handlers.Keys <= handlers.Keys + {methodName}
    ensures forall k :: k in handlers ==> k in r.handlers && r.handlers[k] == handlers[k]
    ensures value.AFunc? && !Conforms(value.f.sig) && methodName !in handlers ==> r == Registry(handlers, None)
    ensures methodName in r.handlers - handlers.Keys <==>
      methodName !in handlers && value.AFunc? && Conforms(value.f.sig) && !value.f.sig.ins[0].kind.Interface?
    ensures methodName in r.handlers - handlers.Keys ==> r.handlers[methodName] == HandlerFor(value.f) && r.fault.None?
    ensures HandlersConform(handlers) ==> HandlersConform(r.handlers)
  {
    if methodName in handlers then Registry(handlers, Some(DuplicatePanic(methodName)))
    else match value
      case NotAFunc(t) => Registry(handlers, Some(NotAFuncPanic(t)))
      case AFunc(f) =>
        if !Conforms(f.sig) then Registry(handlers, None)
        else if f.sig.ins[0].kind.Interface? then Registry(handlers, Some(InterfacePrototypePanic(f.sig.ins[0].name)))
        else Registry(handlers[methodName := HandlerFor(f)], None)
  }

  /** Successive `addHandler` calls; the first panic ends the sequence. */
  function RegisterAll(handlers: map<string, Handler>, entries: seq<Entry>): (r: Registry)
    ensures handlers.Keys <= r.handlers.Keys
    ensures HandlersConform(handlers) ==> HandlersConform(r.handlers)
  {
    if |entries| == 0 then Registry(handlers, None)
    else
      var before := RegisterAll(handlers, entries[..|entries| - 1]);
      if before.fault.Some? then before
      else Register(before.handlers, entries[|entries| - 1].methodName, entries[|entries| - 1].value)
  }

  /** The entry of one method, as `RegisterObject` builds it. */
  function EntryOf(name: string, m: MethodInfo): Entry
  {
    Entry(name + "." + m.name, AFunc(m.fn))
  }

  /** The `addHandler` calls `RegisterObject` makes: exported methods only, under `name.Method`. */
  function ObjectEntries(name: string, methods: seq<MethodInfo>): (r: seq<Entry>)
    ensures |r| <= |methods|
  {
    if |methods| == 0 then []
    else
      var m := methods[|methods| - 1];
      var init := ObjectEntries(name, methods[..|methods| - 1]);
      if m.pkgPath != "" then init else init + [EntryOf(name, m)]
  }

  /** Exactly the exported methods are offered, each under its qualified name. */
  lemma {:induction false} ObjectEntriesExported(name: string, methods: seq<MethodInfo>)
    ensures forall e :: e in ObjectEntries(name, methods) ==>
      exists m :: m in methods && m.pkgPath == "" && e == EntryOf(name, m)
    ensures forall m :: m in methods && m.pkgPath == "" ==> EntryOf(name, m) in ObjectEntries(name, methods)
  {
    if |methods| > 0 {
      var init := methods[..|methods| - 1];
      var last := methods[|methods| - 1];
      ObjectEntriesExported(name, init);
      assert methods == init + [last];
      forall e | e in ObjectEntries(name, methods)
        ensures exists m :: m in methods && m.pkgPath == "" && e == EntryOf(name, m)
      {
        if e !in ObjectEntries(name, init) {
          assert e == EntryOf(name, last) && last in methods;
        } else {
          var m :| m in init && m.pkgPath == "" && e == EntryOf(name, m);
          assert m in methods;
        }
      }
      forall m | m in methods && m.pkgPath == ""
        ensures EntryOf(name, m) in ObjectEntries(name, methods)
      {
        if m != last {
          assert m in init;
        }
      }
    }
  }

  /** Two entries never share a method name. */
  ghost predicate DistinctNames(entries: seq<Entry>)
  {
    forall i, j :: 0 <= i < j < |entries| ==> entries[i].methodName != entries[j].methodName
  }

  /** A function whose handler shape, if it has one, takes a non-interface parameter. */
  predicate PlainParameter(f: Func)
  {
    Conforms(f.sig) ==> !f.sig.ins[0].kind.Interface?
  }

  /** Every entry is a function whose parameter type, if it is a handler, is not an interface. */
  ghost predicate PlainFunctions(entries: seq<Entry>)
  {
    forall i :: 0 <= i < |entries| ==> entries[i].value.AFunc? && PlainParameter(entries[i].value.f)
  }

  /** The names among `entries` whose function has the handler shape. */
  ghost function ConformingNames(entries: seq<Entry>): set<string>
  {
    if |entries| == 0 then {}
    else
      var last := entries[|entries| - 1];
      ConformingNames(entries[..|entries| - 1]) + if last.value.AFunc? && Conforms(last.value.f.sig) then {last.methodName} else {}
  }

  /** One fresh function: no panic, and it is added exactly when it has the handler shape. */
  lemma RegisterFreshStep(handlers: map<string, Handler>, e: Entry)
    requires e.value.AFunc? && PlainParameter(e.value.f) && e.methodName !in handlers
    ensures Register(handlers, e.methodName, e.value).fault.None?
    ensures Register(handlers, e.methodName, e.value).handlers.Keys ==
      handlers.Keys + if Conforms(e.value.f.sig) then {e.methodName} else {}
    ensures Conforms(e.value.f.sig) ==> |Register(handlers, e.methodName, e.value).handlers| == |handlers| + 1
  {
  }

  lemma {:induction false} ConformingNamesIn(entries: seq<Entry>, x: string)
    requires x in ConformingNames(entries)
    ensures exists i :: 0 <= i < |entries| && entries[i].methodName == x
  {
    var last := entries[|entries| - 1];
    if x != last.methodName {
      var init := entries[..|entries| - 1];
      ConformingNamesIn(init, x);
      var i :| 0 <= i < |init| && init[i].methodName == x;
      assert entries[i] == init[i];
    }
  }

  /** Names that are fresh for a table and for each other. */
  ghost predicate FreshFunctions(handlers: map<string, Handler>, entries: seq<Entry>)
  {
    && DistinctNames(entries)
    && PlainFunctions(entries)
    && forall i :: 0 <= i < |entries| ==> entries[i].methodName !in handlers
  }

  lemma FreshFunctionsSplit(handlers: map<string, Handler>, entries: seq<Entry>)
    requires FreshFunctions(handlers, entries) && |entries| > 0
    ensures FreshFunctions(handlers, entries[..|entries| - 1])
    ensures var last := entries[|entries| - 1];
      last.value.AFunc? && PlainParameter(last.value.f) && last.methodName !in handlers &&
      last.methodName !in ConformingNames(entries[..|entries| - 1])
  {
    var init, last := entries[..|entries| - 1], entries[|entries| - 1];
    assert forall i | 0 <= i < |init| :: init[i] == entries[i];
    if last.methodName in ConformingNames(init) {
      ConformingNamesIn(init, last.methodName);
      assert false;
    }
  }

  /** The inductive step of `RegisterFresh`: the last entry is fresh, so it is added exactly when it conforms. */
  lemma RegisterFreshLast(handlers: map<string, Handler>, entries: seq<Entry>)
    requires FreshFunctions(handlers, entries) && |entries| > 0
    requires RegisterAll(handlers, entries[..|entries| - 1]).fault.None?
    requires RegisterAll(handlers, entries[..|entries| - 1]).handlers.Keys ==
      handlers.Keys + ConformingNames(entries[..|entries| - 1])
    ensures RegisterAll(handlers, entries).fault.None?
    ensures RegisterAll(handlers, entries).handlers.Keys == handlers.Keys + ConformingNames(entries)
  {
    var init, last := entries[..|entries| - 1], entries[|entries| - 1];
    var before := RegisterAll(handlers, init);
    var added := if Conforms(last.value.f.sig) then {last.methodName} else {};
    var after := Register(before.handlers, last.methodName, last.value);
    assert after.fault.None? && after.handlers.Keys == before.handlers.Keys + added by {
      FreshFunctionsSplit(handlers, entries);
      RegisterFreshStep(before.handlers, last);
    }
    assert RegisterAll(handlers, entries) == after;
    assert ConformingNames(entries) == ConformingNames(init) + added;
  }

  /**
   * Registering functions under fresh, distinct names never panics and adds
   * exactly the conforming ones.
   */
  lemma {:induction false} RegisterFresh(handlers: map<string, Handler>, entries: seq<Entry>)
    requires FreshFunctions(handlers, entries)
    ensures RegisterAll(handlers, entries).fault.None?
    ensures RegisterAll(handlers, entries).handlers.Keys == handlers.Keys + ConformingNames(entries)
  {
    if |entries| > 0 {
      FreshFunctionsSplit(handlers, entries);
      RegisterFresh(handlers, entries[..|entries| - 1]);
      RegisterFreshLast(handlers, entries);
    }
  }

  /** Registration never replaces or removes a handler, whatever is offered. */
  lemma {:induction false} RegisterAllKeeps(handlers: map<string, Handler>, entries: seq<Entry>)
    ensures forall k :: k in handlers ==> RegisterAll(handlers, entries).handlers[k] == handlers[k]
  {
    if |entries| > 0 {
      var init, last := entries[..|entries| - 1], entries[|entries| - 1];
      RegisterAllKeeps(handlers, init);
    }
  }

  /** When every fresh, distinctly named function has the handler shape, the table grows by their number. */
  lemma {:induction false} RegisterFreshCount(handlers: map<string, Handler>, entries: seq<Entry>)
    requires FreshFunctions(handlers, entries)
    requires forall i :: 0 <= i < |entries| ==> Conforms(entries[i].value.f.sig)
    ensures |RegisterAll(handlers, entries).handlers| == |handlers| + |entries|
  {
    if |entries| > 0 {
      var init, last := entries[..|entries| - 1], entries[|entries| - 1];
      FreshFunctionsSplit(handlers, entries);
      assert forall i | 0 <= i < |init| :: init[i] == entries[i];
      RegisterFreshCount(handlers, init);
      RegisterFresh(handlers, init);
      RegisterFreshStep(RegisterAll(handlers, init).handlers, last);
    }
  }

  /** The type of a handler's first result plays no part in registration. */
  lemma ResultTypeUnconstrained(handlers: map<string, Handler>, methodName: string, f: Func, result: TypeFacts)
    requires |f.sig.outs| == 2
    ensures var g := Func(Signature(f.sig.ins, [result, f.sig.outs[1]]), f.body);
      Register(handlers, methodName, AFunc(g)).fault == Register(handlers, methodName, AFunc(f)).fault &&
      Register(handlers, methodName, AFunc(g)).handlers.Keys == Register(handlers, methodName, AFunc(f)).handlers.Keys
  {
  }

  /** Offering one more entry is one more `addHandler` call, unless an earlier one panicked. */
  lemma RegisterAllSnoc(handlers: map<string, Handler>, entries: seq<Entry>, e: Entry)
    ensures RegisterAll(handlers, entries + [e]) ==
      var before := RegisterAll(handlers, entries);
      if before.fault.Some? then before else Register(before.handlers, e.methodName, e.value)
  {
    assert (entries + [e])[..|entries|] == entries;
  }

  /** Once a registration panics, later calls are never made. */
  lemma {:induction false} FaultStops(handlers: map<string, Handler>, entries: seq<Entry>, more: seq<Entry>)
    requires RegisterAll(handlers, entries).fault.Some?
    ensures RegisterAll(handlers, entries + more) == RegisterAll(handlers, entries)
  {
    if |more| == 0 {
      assert entries + more == entries;
    } else {
      var init, last := more[..|more| - 1], more[|more| - 1];
      FaultStops(handlers, entries, init);
      assert entries + more == (entries + init) + [last];
      RegisterAllSnoc(handlers, entries + init, last);
    }
  }

  /** The entries of a list of methods are those of its prefix followed by those of the rest. */
  lemma {:induction false} ObjectEntriesSplit(name: string, methods: seq<MethodInfo>, i: nat)
    requires i <= |methods|
    ensures ObjectEntries(name, methods) == ObjectEntries(name, methods[..i]) + ObjectEntries(name, methods[i..])
  {
    if i < |methods| {
      var n := |methods|;
      ObjectEntriesSplit(name, methods[..n - 1], i);
      assert methods[..n - 1][..i] == methods[..i];
      assert methods[i..][..n - 1 - i] == methods[..n - 1][i..];
      assert methods[i..][n - 1 - i] == methods[n - 1];
    } else {
      assert methods[..i] == methods;
    }
  }

  class Server {
    var handlers: map<string, Handler>

    /** `New`: an empty handler table. */
    constructor ()
      ensures handlers == map[]
    {
      handlers := map[];
    }

    /** `addHandler` on the live table. */
    method AddHandler(methodName: string, value: Callable) returns (fault: Option<string>)
      modifies this
      ensures Registry(handlers, fault) == Register(old(handlers), methodName, value)
    {
      fault := None;
      if methodName in handlers {
        fault := Some(DuplicatePanic(methodName));
        return;
      }
      match value
      case NotAFunc(t) =>
        fault := Some(NotAFuncPanic(t));
      case AFunc(f) =>
        if |f.sig.ins| != 1 || |f.sig.outs| != 2 || !f.sig.ins[0].implementsParams {
          return;
        }
        if !f.sig.outs[1].implementsError {
          return;
        }
        var params := f.sig.ins[0];
        if params.kind.Interface? {
          fault := Some(InterfacePrototypePanic(params.name));
          return;
        }
        handlers := handlers[methodName := Handler(f, ParamsType(params.name))];
    }

    /** `RegisterFunc`. */
    method RegisterFunc(methodName: string, value: Callable) returns (fault: Option<string>)
      modifies this
      ensures Registry(handlers, fault) == Register(old(handlers), methodName, value)
    {
      fault := AddHandler(methodName, value);
    }

    /**
     * `RegisterObject`: each exported method, in order, under `name.Method`;
     * a panic stops the loop with the earlier methods registered.
     */
    method RegisterObject(name: string, methods: seq<MethodInfo>) returns (fault: Option<string>)
      modifies this
      ensures Registry(handlers, fault) == RegisterAll(old(handlers), ObjectEntries(name, methods))
    {
      fault := None;
      var i := 0;
      while i < |methods|
        invariant i <= |methods|
        invariant fault.None?
        invariant Registry(handlers, fault) == RegisterAll(old(handlers), ObjectEntries(name, methods[..i]))
      {
        var m := methods[i];
        assert methods[..i + 1][..i] == methods[..i];
        assert methods[..i + 1][i] == m;
        if m.pkgPath != "" {
          assert ObjectEntries(name, methods[..i + 1]) == ObjectEntries(name, methods[..i]);
          i := i + 1;
          continue;
        }
        ghost var done := ObjectEntries(name, methods[..i]);
        assert ObjectEntries(name, methods[..i + 1]) == done + [EntryOf(name, m)];
        RegisterAllSnoc(old(handlers), done, EntryOf(name, m));
        fault := AddHandler(name + "." + m.name, AFunc(m.fn));
        if fault.Some? {
          ObjectEntriesSplit(name, methods, i + 1);
          FaultStops(old(handlers), ObjectEntries(name, methods[..i + 1]), ObjectEntries(name, methods[i + 1..]));
          return;
        }
        i := i + 1;
      }
      assert methods[..i] == methods;
    }
  }
}
