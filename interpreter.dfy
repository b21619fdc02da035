/**
  The sequence interpreter of index.js as a function on values: one call of
  the middleware an adapter returns (index.js:68-72), the step `process`
  (index.js:24-64) and its helpers `getNext` (index.js:4-12) and
  `initSequence` (index.js:14-22).

  `process` works on the entry object it was handed, which need not be the
  object the registry holds under the adapter's name any more: `getNext`
  deletes the name and `initSequence` installs a new object while `process`
  goes on with the old one. A `World` records that aliasing explicitly.
*/
module Interpreter {
  import opened Commands
  import opened Routines

  /** The identifier an adapter draws once, at creation (index.js:67). */
  type Name = nat

  /** `sequence.waitingFor`: `null` before the first advance, `undefined` after a completed await. */
  datatype Pending = Null | Undefined | Waiting(cmd: Command)

  /** The entry object of index.js:15-21. */
  datatype EntryState = EntryState(generator: seq<Command>, iter: Routine, waitingFor: Pending)

  /** The incoming context as the interpreter reads it: `ctx.type` and `ctx.message`. */
  datatype Event = Event(kind: string, message: Value)

  /** Consumed: returned without calling `next`; Declined: called `next` once; Error: threw. */
  datatype Outcome = Consumed | Declined | Error

  /** The arguments `sequenceProcessor` closes over (index.js:66-67). */
  datatype Adapter = Adapter(explicitConnection: bool, interruptible: bool, generator: seq<Command>, name: Name)

  /**
    The registry `ctx[SEQUENCE_SYMBOL]`, the entry object `process` is working
    on, and whether the registry holds that very object under the name.
  */
  datatype World = World(reg: map<Name, EntryState>, cur: EntryState, live: bool)

  /** A live entry is the one the registry holds under the name. */
  ghost predicate Inv(w: World, name: Name) {
    w.live ==> name in w.reg && w.reg[name] == w.cur
  }

  /** The object `initSequence` builds (index.js:15-21). */
  function Fresh(explicitConnection: bool, generator: seq<Command>): (e: EntryState)
    ensures e.generator == generator && e.iter == Start(generator)
    ensures explicitConnection ==> e.waitingFor == Waiting(Connection())
    ensures !explicitConnection ==> e.waitingFor == Null
  {
    EntryState(generator, Start(generator),
               if explicitConnection then Waiting(Connection()) else Null)
  }

  /** The registry holds under the name either the object being processed or a freshly armed one. */
  ghost predicate Coherent(a: Adapter, w: World) {
    && Inv(w, a.name)
    && (a.name in w.reg && !w.live ==> w.reg[a.name] == Fresh(a.explicitConnection, w.cur.generator))
  }

  /** Overwrites fields of the entry being processed; the registry sees it only while it is live. */
  function SetCur(w: World, name: Name, e: EntryState): (w': World)
    ensures Inv(w, name) ==> Inv(w', name)
    ensures w'.cur == e && w'.live == w.live
    ensures w.live ==> w'.reg == w.reg[name := e]
    ensures !w.live ==> w'.reg == w.reg
    ensures w'.reg - {name} == w.reg - {name}
  {
    World(if w.live then w.reg[name := e] else w.reg, e, w.live)
  }

  /** `delete ctx[SEQUENCE_SYMBOL][name]`: removes whatever object the name holds. */
  function Delete(w: World, name: Name): (w': World)
    ensures name !in w'.reg && !w'.live && Inv(w', name)
    ensures w'.cur == w.cur && w'.reg - {name} == w.reg - {name}
  {
    World(w.reg - {name}, w.cur, false)
  }

  /**
    `initSequence` (index.js:14-22): installs a fresh object under the name;
    the object being processed is no longer the registry's.
  */
  function InitSequence(a: Adapter, w: World): (w': World)
    ensures a.name in w'.reg && w'.reg[a.name] == Fresh(a.explicitConnection, w.cur.generator)
    ensures !w'.live && Inv(w', a.name) && Coherent(a, w')
    ensures w'.cur == w.cur && w'.reg - {a.name} == w.reg - {a.name}
  {
    World(w.reg[a.name := Fresh(a.explicitConnection, w.cur.generator)], w.cur, false)
  }

  /**
    `getNext` (index.js:4-12): resumes the routine with `v`. When it reports
    done the name is deleted and `waitingFor` is left as it was; otherwise the
    yielded command becomes `waitingFor`.
  */
  function GetNext(name: Name, w: World, v: Value): (res: (bool, World))
    ensures res.1.cur.generator == w.cur.generator
    ensures res.1.cur.iter == Next(w.cur.iter, v).1
    ensures res.0 <==> Next(w.cur.iter, v).0.Done?
    ensures res.0 ==> name !in res.1.reg && !res.1.live && res.1.cur.waitingFor == w.cur.waitingFor
    ensures !res.0 ==> res.1.cur.waitingFor == Waiting(Next(w.cur.iter, v).0.cmd) && res.1.live == w.live
    ensures !res.0 && !w.live ==> res.1.reg == w.reg
    ensures res.1.reg - {name} == w.reg - {name}
    ensures Inv(w, name) ==> Inv(res.1, name)
  {
    var (step, it) := Next(w.cur.iter, v);
    match step
    case Done => (true, Delete(SetCur(w, name, w.cur.(iter := it)), name))
    case Yielded(c) => (false, SetCur(w, name, w.cur.(iter := it, waitingFor := Waiting(c))))
  }

  /**
    index.js:48-49: a command lets a message of its type through unless its
    operation is 'matchMessage' and its `fn` does not hold of the message.
  */
  predicate MatchPasses(c: Command, msg: Value) {
    c.operation.Some? && c.operation.value == MATCH_MESSAGE ==>
      // an `fn` returning a promise returns a truthy value
      c.payload.Async? || (c.payload.Check? && c.payload.fn(msg))
  }

  /**
    What the test of index.js:48-49 decides for the commands a routine can
    yield: a command without an operation always passes, `getMessage()`
    passes every message, `matchMessage(f)` passes exactly the messages `f`
    holds of, and a match command without `fn` never passes.
  */
  lemma MatchPassesCases(f: Value -> bool, c: Command, msg: Value)
    ensures c.operation.None? ==> MatchPasses(c, msg)
    ensures MatchPasses(GetMessage(), msg)
    ensures MatchPasses(MatchMessage(f), msg) <==> f(msg)
    ensures c.operation == Some(MATCH_MESSAGE) && !HasFn(c.payload) ==> !MatchPasses(c, msg)
  {
  }

  /** Decreases on every re-entry of `process`: the routine advances, or the `wait` flag is raised. */
  function Rank(e: EntryState, wait: bool): nat {
    4 * Remaining(e.iter) + (if e.waitingFor.Undefined? then 0 else 2) + (if wait then 0 else 1)
  }

  /**
    `process` (index.js:24-64), line 25: an entry with nothing pending is
    advanced once with the message; if the routine is already complete its
    entry is gone and `next` is called.
  */
  function Process(a: Adapter, w: World, ev: Event, wait: bool): (res: (Outcome, World))
    ensures Inv(w, a.name) ==> Inv(res.1, a.name)
    ensures Coherent(a, w) ==> Coherent(a, res.1)
    ensures res.1.reg - {a.name} == w.reg - {a.name}
    ensures res.1.cur.generator == w.cur.generator
    ensures w.cur.iter.log <= res.1.cur.iter.log
    decreases Rank(w.cur, wait), 2
  {
    if w.cur.waitingFor.Null? then
      var (done, w1) := GetNext(a.name, w, ev.message);
      if done then (Declined, w1) else Dispatch(a, w1, ev, wait)
    else
      Dispatch(a, w, ev, wait)
  }

  /**
    index.js:27-35: a pending assertion is evaluated once. If it fails, the
    entry of a non-interruptible adapter is deleted and `next` is called; if
    it holds, the routine is resumed with the message.
  */
  function Dispatch(a: Adapter, w: World, ev: Event, wait: bool): (res: (Outcome, World))
    ensures Inv(w, a.name) ==> Inv(res.1, a.name)
    ensures Coherent(a, w) ==> Coherent(a, res.1)
    ensures res.1.reg - {a.name} == w.reg - {a.name}
    ensures res.1.cur.generator == w.cur.generator
    ensures w.cur.iter.log <= res.1.cur.iter.log
    decreases Rank(w.cur, wait), 1
  {
    match w.cur.waitingFor
    case Waiting(c) =>
      if c.messageType == ASSERTION then
        match c.payload
        case Pred(holds) =>
          if !holds then
            (Declined, if a.interruptible then w else Delete(w, a.name))
          else
            var (_, w1) := GetNext(a.name, w, ev.message);
            Continue(a, w1, ev, wait)
        case _ => (Error, w)   // `pred` is undefined and calling it throws
      else
        Continue(a, w, ev, wait)
    case _ => (Error, w)       // property access on null or undefined
  }

  /**
    index.js:37-63. A pending await resumes the routine with the resolved
    value and re-processes the same context with `wait` dropped; if the
    routine completed, a fresh entry is installed first. With `wait` set the
    step ends here. Otherwise a command for the context's type is matched:
    a failed `matchMessage` predicate calls `next` (deleting the entry of a
    non-interruptible adapter); a success resumes the routine with the
    message, re-arms the entry if the routine completed, and re-processes
    with `wait` set. A command for another type calls `next`.
  */
  function Continue(a: Adapter, w: World, ev: Event, wait: bool): (res: (Outcome, World))
    ensures Inv(w, a.name) ==> Inv(res.1, a.name)
    ensures Coherent(a, w) ==> Coherent(a, res.1)
    ensures res.1.reg - {a.name} == w.reg - {a.name}
    ensures res.1.cur.generator == w.cur.generator
    ensures w.cur.iter.log <= res.1.cur.iter.log
    decreases Rank(w.cur, wait), 0
  {
    match w.cur.waitingFor
    case Waiting(c) =>
      if c.messageType == AWAIT then
        if HasFn(c.payload) then
          var (step, it) := Next(w.cur.iter, Settled(c.payload));
          var w1 := SetCur(w, a.name, w.cur.(iter := it,
                                             waitingFor := if step.Done? then Undefined else Waiting(step.cmd)));
          var w2 := if step.Done? then InitSequence(a, w1) else w1;
          Process(a, w2, ev, false)
        else
          (Error, w)           // `fn` is undefined and calling it throws
      else if wait then
        (Consumed, w)
      else if ev.kind == c.messageType then
        if MatchPasses(c, ev.message) then
          var (done, w1) := GetNext(a.name, w, ev.message);
          var w2 := if done then InitSequence(a, w1) else w1;
          Process(a, w2, ev, true)
        else if c.payload.Check? then
          (Declined, if a.interruptible then w else Delete(w, a.name))
        else
          (Error, w)           // `fn` is undefined and calling it throws
      else
        (Declined, w)
    case _ => (Error, w)       // property access on null or undefined
  }

  /**
    The entry the middleware processes (index.js:69-70): the one the registry
    already holds under the adapter's name, or a fresh one installed for it.
  */
  function Enter(a: Adapter, reg: map<Name, EntryState>): (w: World)
    ensures w.live && Coherent(a, w) && a.name in w.reg
    ensures a.name in reg ==> w.reg == reg && w.cur == reg[a.name]
    ensures a.name !in reg ==> w.reg == reg[a.name := w.cur] && w.cur == Fresh(a.explicitConnection, a.generator)
  {
    var cur := if a.name in reg then reg[a.name] else Fresh(a.explicitConnection, a.generator);
    World(reg[a.name := cur], cur, true)
  }

  /** One call of the middleware an adapter returns (index.js:68-72), on the registry of one context. */
  function Run(a: Adapter, reg: map<Name, EntryState>, ev: Event): (res: (Outcome, map<Name, EntryState>))
    ensures res.1 - {a.name} == reg - {a.name}
  {
    var (o, w) := Process(a, Enter(a, reg), ev, false);
    (o, w.reg)
  }

  /** `sequenceProcessor(explicitConnection)(isInteruptable)(generator)`, with the name it draws (index.js:66-67). */
  function SequenceProcessor(explicitConnection: bool, isInteruptable: bool, generator: seq<Command>, name: Name): Adapter {
    Adapter(explicitConnection, isInteruptable, generator, name)
  }

  /** `onConnect` (index.js:76). */
  function OnConnect(generator: seq<Command>, name: Name): Adapter {
    SequenceProcessor(true, true, generator, name)
  }

  /** `interruptible`, also exported as `interuptable` (index.js:78-79). */
  function Interruptible(generator: seq<Command>, name: Name): Adapter {
    SequenceProcessor(false, true, generator, name)
  }

  /** `uninterruptible`, also exported as `uninteruptable` (index.js:81-82). */
  function Uninterruptible(generator: seq<Command>, name: Name): Adapter {
    SequenceProcessor(false, false, generator, name)
  }

  /** The pipeline applying one middleware to the same context for each event in turn. */
  function Feed(a: Adapter, reg: map<Name, EntryState>, evs: seq<Event>): (res: (seq<Outcome>, map<Name, EntryState>))
    ensures |res.0| == |evs|
    ensures res.1 - {a.name} == reg - {a.name}
    decreases |evs|
  {
    if evs == [] then ([], reg)
    else
      var first := Run(a, reg, evs[0]);
      var rest := Feed(a, first.1, evs[1..]);
      ([first.0] + rest.0, rest.1)
  }
}
