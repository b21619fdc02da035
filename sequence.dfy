/**
  The interpreter of index.js as the code runs it: entry objects whose
  fields `getNext` and `process` overwrite, a registry dictionary on the
  context that they delete from and insert into, and the caller's `next`
  continuation. Every method is proved to do what the functions of module
  Interpreter describe.
*/
module Sequence {
  import opened Commands
  import opened Routines
  import opened Interpreter

  /** The object stored under an adapter's name (index.js:15-21). */
  class Entry {
    const generator: seq<Command>
    var iter: Routine
    var waitingFor: Pending

    constructor (generator: seq<Command>, explicitConnection: bool)
      ensures State() == Fresh(explicitConnection, generator)
    {
      this.generator := generator;
      iter := Start(generator);
      waitingFor := if explicitConnection then Waiting(Connection()) else Null;
    }

    function State(): EntryState
      reads this
    {
      EntryState(generator, iter, waitingFor)
    }
  }

  /** The middleware chain's `next`, observed only through how often it is called. */
  class Continuation {
    var calls: nat

    constructor ()
      ensures calls == 0
    {
      calls := 0;
    }

    method Call()
      modifies this
      ensures calls == old(calls) + 1
    {
      calls := calls + 1;
    }
  }

  /** The per-connection context: `ctx.type`, `ctx.message` and the registry `ctx[SEQUENCE_SYMBOL]`. */
  class Context {
    var kind: string
    var message: Value
    var registry: map<Name, Entry>

    constructor (kind: string, message: Value)
      ensures this.kind == kind && this.message == message
      ensures registry == map[] && Valid()
    {
      this.kind := kind;
      this.message := message;
      registry := map[];
    }

    /** Every name holds its own entry object. */
    ghost predicate Valid()
      reads this
    {
      forall j, k :: j in registry && k in registry && j != k ==> registry[j] != registry[k]
    }

    /** The registry as values. */
    ghost function Snapshot(): map<Name, EntryState>
      reads this, registry.Values
    {
      map k | k in registry :: registry[k].State()
    }

    function Incoming(): Event
      reads this
    {
      Event(kind, message)
    }
  }

  /** No name other than `name` holds `sequence`. */
  ghost predicate Detached(ctx: Context, sequence: Entry, name: Name)
    reads ctx
  {
    forall k :: k in ctx.registry && k != name ==> ctx.registry[k] != sequence
  }

  /** The state `process` works on, as a value. */
  ghost function View(ctx: Context, sequence: Entry, name: Name): World
    reads ctx, ctx.registry.Values, sequence
  {
    World(ctx.Snapshot(), sequence.State(), name in ctx.registry && ctx.registry[name] == sequence)
  }

  /** `getNext` (index.js:4-12). */
  method GetNext(sequence: Entry, name: Name, ctx: Context) returns (done: bool)
    requires ctx.Valid() && Detached(ctx, sequence, name)
    modifies ctx`registry, sequence`iter, sequence`waitingFor
    ensures ctx.Valid() && Detached(ctx, sequence, name)
    ensures (done, View(ctx, sequence, name)) == Interpreter.GetNext(name, old(View(ctx, sequence, name)), ctx.message)
  {
    ghost var w := View(ctx, sequence, name);
    var res := Next(sequence.iter, ctx.message);
    var step := res.0;
    sequence.iter := res.1;
    if step.Done? {
      ghost var w1 := SetCur(w, name, sequence.State());
      assert View(ctx, sequence, name) == w1;
      ctx.registry := ctx.registry - {name};
      assert ctx.Snapshot() == w1.reg - {name};
      return true;
    }
    sequence.waitingFor := Waiting(step.cmd);
    assert View(ctx, sequence, name) == SetCur(w, name, sequence.State());
    return false;
  }

  /** `initSequence` (index.js:14-22): a new entry object under `name`. */
  method InitSequence(ctx: Context, generator: seq<Command>, name: Name, explicitConnection: bool)
    requires ctx.Valid()
    modifies ctx`registry
    ensures ctx.Valid() && name in ctx.registry && fresh(ctx.registry[name])
    ensures ctx.Snapshot() == old(ctx.Snapshot())[name := Fresh(explicitConnection, generator)]
    ensures forall k :: k in ctx.registry && k != name ==> k in old(ctx.registry) && ctx.registry[k] == old(ctx.registry[k])
  {
    var entry := new Entry(generator, explicitConnection);
    ctx.registry := ctx.registry[name := entry];
  }

  /** `delete ctx[SEQUENCE_SYMBOL][name]` (index.js:30, 51); `sequence` is the entry being processed. */
  method Unregister(ctx: Context, name: Name, ghost sequence: Entry)
    requires ctx.Valid() && Detached(ctx, sequence, name)
    modifies ctx`registry
    ensures ctx.Valid() && Detached(ctx, sequence, name)
    ensures View(ctx, sequence, name) == Interpreter.Delete(old(View(ctx, sequence, name)), name)
  {
    ctx.registry := ctx.registry - {name};
  }

  /**
    index.js:39-40: resume the routine with the value the await settled to
    and store what it reports, `undefined` when it completed.
  */
  method ResumeAfterAwait(sequence: Entry, name: Name, ctx: Context, v: Value) returns (done: bool)
    requires ctx.Valid() && Detached(ctx, sequence, name)
    modifies sequence`iter, sequence`waitingFor
    ensures ctx.Valid() && Detached(ctx, sequence, name)
    ensures done == Next(old(sequence.iter), v).0.Done?
    ensures var (step, it) := Next(old(sequence.iter), v);
      View(ctx, sequence, name)
        == SetCur(old(View(ctx, sequence, name)), name,
                  old(sequence.State()).(iter := it, waitingFor := if step.Done? then Undefined else Waiting(step.cmd)))
  {
    ghost var w := View(ctx, sequence, name);
    var res := Next(sequence.iter, v);
    sequence.iter := res.1;
    sequence.waitingFor := if res.0.Done? then Undefined else Waiting(res.0.cmd);
    done := res.0.Done?;
    assert View(ctx, sequence, name) == SetCur(w, name, sequence.State());
  }

  /**
    `process` (index.js:24-64), split for the proof at the same points as the
    functions that specify it; this part is line 25. Each path ends in one
    call of `next`, a bare return, a thrown error, or a tail call of
    `process` on the same entry object, whichever object the registry holds
    by then.
  */
  method Process(a: Adapter, sequence: Entry, ctx: Context, next: Continuation, wait: bool := false)
    returns (o: Outcome)
    requires ctx.Valid() && Detached(ctx, sequence, a.name)
    modifies ctx`registry, sequence`iter, sequence`waitingFor, next
    ensures ctx.Valid() && Detached(ctx, sequence, a.name)
    ensures (o, View(ctx, sequence, a.name)) == Interpreter.Process(a, old(View(ctx, sequence, a.name)), ctx.Incoming(), wait)
    ensures next.calls == old(next.calls) + (if o.Declined? then 1 else 0)
    decreases Rank(sequence.State(), wait), 2, 0
  {
    if sequence.waitingFor.Null? {
      var done := GetNext(sequence, a.name, ctx);
      if done {
        next.Call();
        return Declined;
      }
    }
    o := Dispatch(a, sequence, ctx, next, wait);
  }

  /** index.js:27-35: a pending assertion. */
  method Dispatch(a: Adapter, sequence: Entry, ctx: Context, next: Continuation, wait: bool)
    returns (o: Outcome)
    requires ctx.Valid() && Detached(ctx, sequence, a.name)
    modifies ctx`registry, sequence`iter, sequence`waitingFor, next
    ensures ctx.Valid() && Detached(ctx, sequence, a.name)
    ensures (o, View(ctx, sequence, a.name)) == Interpreter.Dispatch(a, old(View(ctx, sequence, a.name)), ctx.Incoming(), wait)
    ensures next.calls == old(next.calls) + (if o.Declined? then 1 else 0)
    decreases Rank(sequence.State(), wait), 1, 0
  {
    if !sequence.waitingFor.Waiting? {
      return Error;
    }
    if sequence.waitingFor.cmd.messageType == ASSERTION {
      if !sequence.waitingFor.cmd.payload.Pred? {
        return Error;
      }
      if !sequence.waitingFor.cmd.payload.holds {
        if !a.interruptible {
          Unregister(ctx, a.name, sequence);
        }
        next.Call();
        return Declined;
      }
      var _ := GetNext(sequence, a.name, ctx);
    }
    o := Continue(a, sequence, ctx, next, wait);
  }

  /** index.js:37-63: a pending await, the `wait` flag, and a command for a message type. */
  method Continue(a: Adapter, sequence: Entry, ctx: Context, next: Continuation, wait: bool)
    returns (o: Outcome)
    requires ctx.Valid() && Detached(ctx, sequence, a.name)
    modifies ctx`registry, sequence`iter, sequence`waitingFor, next
    ensures ctx.Valid() && Detached(ctx, sequence, a.name)
    ensures (o, View(ctx, sequence, a.name)) == Interpreter.Continue(a, old(View(ctx, sequence, a.name)), ctx.Incoming(), wait)
    ensures next.calls == old(next.calls) + (if o.Declined? then 1 else 0)
    decreases Rank(sequence.State(), wait), 0, 2
  {
    if !sequence.waitingFor.Waiting? {
      return Error;
    }
    var c := sequence.waitingFor.cmd;
    if c.messageType == AWAIT {
      if !HasFn(c.payload) {
        return Error;
      }
      o := Settle(a, sequence, ctx, next, Settled(c.payload), wait);
      return;
    }

    if wait {
      return Consumed;
    }

    if ctx.kind == c.messageType {
      if c.operation.Some? {
        if c.operation.value == MATCH_MESSAGE {
          if !HasFn(c.payload) {
            return Error;
          }
          // a promise returned by an async `fn` is truthy and passes
          if c.payload.Check? && !c.payload.fn(ctx.message) {
            if !a.interruptible {
              Unregister(ctx, a.name, sequence);
            }
            next.Call();
            return Declined;
          }
        }
      }

      o := Advance(a, sequence, ctx, next);
      return;
    }

    next.Call();
    return Declined;
  }

  /**
    index.js:38-42: the routine resumes with the value the await settled to;
    a fresh entry is installed if it completed; the same context is processed
    again with `wait` dropped.
  */
  method Settle(a: Adapter, sequence: Entry, ctx: Context, next: Continuation, v: Value, ghost wait: bool)
    returns (o: Outcome)
    requires ctx.Valid() && Detached(ctx, sequence, a.name)
    requires sequence.waitingFor.Waiting? && sequence.waitingFor.cmd.messageType == AWAIT
    requires HasFn(sequence.waitingFor.cmd.payload) && v == Settled(sequence.waitingFor.cmd.payload)
    modifies ctx`registry, sequence`iter, sequence`waitingFor, next
    ensures ctx.Valid() && Detached(ctx, sequence, a.name)
    ensures (o, View(ctx, sequence, a.name)) == Interpreter.Continue(a, old(View(ctx, sequence, a.name)), ctx.Incoming(), wait)
    ensures next.calls == old(next.calls) + (if o.Declined? then 1 else 0)
    decreases Rank(sequence.State(), wait), 0, 1
  {
    var done := ResumeAfterAwait(sequence, a.name, ctx, v);
    ghost var w1 := View(ctx, sequence, a.name);
    if done {
      InitSequence(ctx, sequence.generator, a.name, a.explicitConnection);
    }
    assert View(ctx, sequence, a.name) == if done then Interpreter.InitSequence(a, w1) else w1;
    o := Process(a, sequence, ctx, next);
  }

  /**
    index.js:57-60: the routine resumes with the message; the entry is re-armed
    if it completed; the same context is processed again with `wait` set.
  */
  method Advance(a: Adapter, sequence: Entry, ctx: Context, next: Continuation)
    returns (o: Outcome)
    requires ctx.Valid() && Detached(ctx, sequence, a.name)
    requires sequence.waitingFor.Waiting? && sequence.waitingFor.cmd.messageType != AWAIT
    requires ctx.kind == sequence.waitingFor.cmd.messageType
    requires MatchPasses(sequence.waitingFor.cmd, ctx.message)
    modifies ctx`registry, sequence`iter, sequence`waitingFor, next
    ensures ctx.Valid() && Detached(ctx, sequence, a.name)
    ensures (o, View(ctx, sequence, a.name)) == Interpreter.Continue(a, old(View(ctx, sequence, a.name)), ctx.Incoming(), false)
    ensures next.calls == old(next.calls) + (if o.Declined? then 1 else 0)
    decreases Rank(sequence.State(), false), 0, 1
  {
    var done := GetNext(sequence, a.name, ctx);
    ghost var w1 := View(ctx, sequence, a.name);
    if done {
      InitSequence(ctx, sequence.generator, a.name, a.explicitConnection);
    }
    assert View(ctx, sequence, a.name) == if done then Interpreter.InitSequence(a, w1) else w1;
    o := Process(a, sequence, ctx, next, true);
  }

  /**
    The middleware an adapter returns (index.js:68-72): install a fresh entry
    if the context has none under the adapter's name, then process it.
  */
  method Invoke(a: Adapter, ctx: Context, next: Continuation) returns (o: Outcome)
    requires ctx.Valid()
    modifies ctx`registry, ctx.registry.Values, next
    ensures ctx.Valid()
    ensures (o, ctx.Snapshot()) == Run(a, old(ctx.Snapshot()), ctx.Incoming())
    ensures next.calls == old(next.calls) + (if o.Declined? then 1 else 0)
  {
    if a.name !in ctx.registry {
      InitSequence(ctx, a.generator, a.name, a.explicitConnection);
    }
    o := Process(a, ctx.registry[a.name], ctx, next);
  }
}
