/**
  What the interpreter guarantees about one call of an adapter's middleware,
  branch by branch of `process` (index.js:24-64).
*/
module Properties {
  import opened Commands
  import opened Routines
  import opened Interpreter

  /** The command the entry under the adapter's name is waiting on. */
  ghost predicate PendingIs(a: Adapter, reg: map<Name, EntryState>, c: Command) {
    a.name in reg && reg[a.name].waitingFor.Waiting? && reg[a.name].waitingFor.cmd == c
  }

  /** `v` is among the values passed to the routine's `next` after `w`. */
  ghost predicate ResumedWith(w: World, w': World, v: Value) {
    && w.cur.iter.log <= w'.cur.iter.log
    && v in w'.cur.iter.log[|w.cur.iter.log|..]
  }

  // ---------------------------------------------------------------------
  // Fresh entries (index.js:14-22, 69-70, 76-82)
  // ---------------------------------------------------------------------

  /**
    A context with no entry under the adapter's name gets a fresh one: a
    start-gated adapter waits for the 'connection' command, the others have
    nothing pending; an existing entry is processed as it is.
  */
  lemma EntryOnEnter(g: seq<Command>, n: Name, reg: map<Name, EntryState>)
    ensures n !in reg ==> Enter(OnConnect(g, n), reg).cur == EntryState(g, Start(g), Waiting(Connection()))
    ensures n !in reg ==> Enter(Interruptible(g, n), reg).cur == EntryState(g, Start(g), Null)
    ensures n !in reg ==> Enter(Uninterruptible(g, n), reg).cur == EntryState(g, Start(g), Null)
    ensures n in reg ==> Enter(OnConnect(g, n), reg).reg == reg && Enter(OnConnect(g, n), reg).cur == reg[n]
    ensures n in reg ==> Enter(Interruptible(g, n), reg).reg == reg && Enter(Interruptible(g, n), reg).cur == reg[n]
    ensures n in reg ==> Enter(Uninterruptible(g, n), reg).reg == reg && Enter(Uninterruptible(g, n), reg).cur == reg[n]
  {
  }

  /** A removed entry is started again from scratch by the next call of the middleware. */
  lemma RemovedEntryRestartsFresh(a: Adapter, reg: map<Name, EntryState>, ev: Event)
    ensures Run(a, reg - {a.name}, ev) == Run(a, reg[a.name := Fresh(a.explicitConnection, a.generator)], ev)
  {
    assert (reg - {a.name})[a.name := Fresh(a.explicitConnection, a.generator)]
        == reg[a.name := Fresh(a.explicitConnection, a.generator)][a.name := Fresh(a.explicitConnection, a.generator)];
  }

  // ---------------------------------------------------------------------
  // Type mismatch (index.js:47, 63)
  // ---------------------------------------------------------------------

  /** A message-kind command for another type: registry untouched, `next` called. */
  lemma TypeMismatchDeclines(a: Adapter, reg: map<Name, EntryState>, ev: Event, c: Command)
    requires PendingIs(a, reg, c) && !IsImmediate(c) && ev.kind != c.messageType
    ensures Run(a, reg, ev) == (Declined, reg)
  {
    var w := Enter(a, reg);
    assert Process(a, w, ev, false) == Dispatch(a, w, ev, false) == Continue(a, w, ev, false);
  }

  // ---------------------------------------------------------------------
  // Failed predicate or assertion (index.js:27-33, 48-54)
  // ---------------------------------------------------------------------

  /**
    A failing assertion calls `next` whatever the context; it deletes the
    entry exactly when the adapter is non-interruptible.
  */
  lemma FailedAssertion(a: Adapter, reg: map<Name, EntryState>, ev: Event, c: Command)
    requires PendingIs(a, reg, c) && c.messageType == ASSERTION && c.payload == Pred(false)
    ensures Run(a, reg, ev) == (Declined, if a.interruptible then reg else reg - {a.name})
  {
    var w := Enter(a, reg);
    assert Process(a, w, ev, false) == Dispatch(a, w, ev, false);
  }

  /**
    A `matchMessage` predicate failing on a message of its type calls `next`;
    it deletes the entry exactly when the adapter is non-interruptible.
  */
  lemma FailedMatch(a: Adapter, reg: map<Name, EntryState>, ev: Event, c: Command)
    requires PendingIs(a, reg, c) && !IsImmediate(c) && ev.kind == c.messageType
    requires c.operation == Some(MATCH_MESSAGE) && c.payload.Check? && !c.payload.fn(ev.message)
    ensures Run(a, reg, ev) == (Declined, if a.interruptible then reg else reg - {a.name})
  {
    var w := Enter(a, reg);
    assert Process(a, w, ev, false) == Dispatch(a, w, ev, false) == Continue(a, w, ev, false);
  }

  // ---------------------------------------------------------------------
  // Successful match (index.js:45, 57-60, 4-11)
  // ---------------------------------------------------------------------

  /**
    A match whose resumption yields a command for a message: the routine is
    resumed exactly once, with the message; the message is consumed and the
    yielded command is left pending, not matched against the same message.
  */
  lemma MatchThenWait(a: Adapter, w: World, ev: Event, c: Command)
    requires w.cur.waitingFor == Waiting(c) && !IsImmediate(c)
    requires ev.kind == c.messageType && MatchPasses(c, ev.message)
    requires Next(w.cur.iter, ev.message).0.Yielded? && !IsImmediate(Next(w.cur.iter, ev.message).0.cmd)
    ensures var r := Process(a, w, ev, false);
      && r.0 == Consumed
      && r.1.cur.iter.log == w.cur.iter.log + [ev.message]
      && r.1.cur.waitingFor == Waiting(Next(w.cur.iter, ev.message).0.cmd)
      && r.1.reg == (if w.live then w.reg[a.name := r.1.cur] else w.reg)
  {
    var (done, w1) := GetNext(a.name, w, ev.message);
    assert Process(a, w, ev, false) == Dispatch(a, w, ev, false) == Continue(a, w, ev, false);
    assert Continue(a, w, ev, false) == Process(a, w1, ev, true);
    assert Process(a, w1, ev, true) == Dispatch(a, w1, ev, true) == Continue(a, w1, ev, true) == (Consumed, w1);
  }

  /**
    A match that completes the routine: the message is consumed, and the
    entry is deleted and at once re-created fresh, for every policy.
  */
  lemma MatchThenComplete(a: Adapter, reg: map<Name, EntryState>, ev: Event, c: Command)
    requires PendingIs(a, reg, c) && !IsImmediate(c)
    requires ev.kind == c.messageType && MatchPasses(c, ev.message)
    requires Next(reg[a.name].iter, ev.message).0.Done?
    ensures Run(a, reg, ev) == (Consumed, reg[a.name := Fresh(a.explicitConnection, reg[a.name].generator)])
  {
    var w := Enter(a, reg);
    var (done, w1) := GetNext(a.name, w, ev.message);
    var w2 := InitSequence(a, w1);
    assert w2.reg == reg[a.name := Fresh(a.explicitConnection, reg[a.name].generator)];
    assert Process(a, w, ev, false) == Dispatch(a, w, ev, false) == Continue(a, w, ev, false);
    assert Continue(a, w, ev, false) == Process(a, w2, ev, true);
    assert Process(a, w2, ev, true) == Dispatch(a, w2, ev, true) == Continue(a, w2, ev, true) == (Consumed, w2);
  }

  /**
    A match whose resumption yields a failing assertion: the follow-up call
    with `wait` set still evaluates the assertion, so `next` is called, and
    the entry is deleted exactly when the adapter is non-interruptible;
    otherwise it keeps the advanced routine with the assertion pending.
  */
  lemma MatchThenFailedAssertion(a: Adapter, reg: map<Name, EntryState>, ev: Event, c: Command)
    requires PendingIs(a, reg, c) && !IsImmediate(c)
    requires ev.kind == c.messageType && MatchPasses(c, ev.message)
    requires Next(reg[a.name].iter, ev.message).0 == Yielded(Assertion(false))
    ensures var e := reg[a.name].(iter := Next(reg[a.name].iter, ev.message).1, waitingFor := Waiting(Assertion(false)));
      Run(a, reg, ev) == (Declined, if a.interruptible then reg[a.name := e] else reg - {a.name})
  {
    var w := Enter(a, reg);
    var (_, w1) := GetNext(a.name, w, ev.message);
    assert Process(a, w, ev, false) == Dispatch(a, w, ev, false) == Continue(a, w, ev, false);
    assert Continue(a, w, ev, false) == Process(a, w1, ev, true) == Dispatch(a, w1, ev, true);
    assert w1.reg == reg[a.name := w1.cur];
  }

  /**
    A match whose resumption yields a holding assertion: the assertion
    resumes the routine once more, with the message, and the message is
    consumed. If that completes the routine, its entry is deleted and not
    re-armed; otherwise the next command is left pending, even when it is
    another assertion, since one assertion is evaluated per pass.
  */
  lemma MatchThenPassedAssertion(a: Adapter, reg: map<Name, EntryState>, ev: Event, c: Command)
    requires PendingIs(a, reg, c) && !IsImmediate(c)
    requires ev.kind == c.messageType && MatchPasses(c, ev.message)
    requires Next(reg[a.name].iter, ev.message).0 == Yielded(Assertion(true))
    requires var s := Next(Next(reg[a.name].iter, ev.message).1, ev.message).0;
      s.Done? || s.cmd.messageType != AWAIT
    ensures var s := Next(Next(reg[a.name].iter, ev.message).1, ev.message).0;
      var r := Run(a, reg, ev);
      && r.0 == Consumed
      && (s.Done? ==> r.1 == reg - {a.name})
      && (s.Yielded? ==> PendingIs(a, r.1, s.cmd))
  {
    var w := Enter(a, reg);
    var (_, w1) := GetNext(a.name, w, ev.message);
    var (_, w2) := GetNext(a.name, w1, ev.message);
    assert Process(a, w, ev, false) == Dispatch(a, w, ev, false) == Continue(a, w, ev, false);
    assert Continue(a, w, ev, false) == Process(a, w1, ev, true) == Dispatch(a, w1, ev, true);
    assert Dispatch(a, w1, ev, true) == Continue(a, w2, ev, true) == (Consumed, w2);
  }

  /**
    A match command whose `fn` is asynchronous: the promise it returns is
    truthy, so every message of its type resumes the routine.
  */
  lemma AsyncMatchFnPasses(a: Adapter, w: World, ev: Event, v: Value)
    requires w.cur.waitingFor == Waiting(Command(MESSAGE, Some(MATCH_MESSAGE), Async(v))) && ev.kind == MESSAGE
    ensures var r := Process(a, w, ev, false);
      w.cur.iter.log + [ev.message] <= r.1.cur.iter.log
  {
    var (done, w1) := GetNext(a.name, w, ev.message);
    var w2 := if done then InitSequence(a, w1) else w1;
    assert Process(a, w, ev, false) == Dispatch(a, w, ev, false) == Continue(a, w, ev, false);
    assert Continue(a, w, ev, false) == Process(a, w2, ev, true);
  }

  /** `getMessage()` lets every message through: the routine is resumed with it. */
  lemma GetMessageAdvances(a: Adapter, w: World, ev: Event)
    requires w.cur.waitingFor == Waiting(GetMessage()) && ev.kind == MESSAGE
    ensures var r := Process(a, w, ev, false);
      w.cur.iter.log + [ev.message] <= r.1.cur.iter.log
  {
    var (done, w1) := GetNext(a.name, w, ev.message);
    var w2 := if done then InitSequence(a, w1) else w1;
    assert Process(a, w, ev, false) == Dispatch(a, w, ev, false) == Continue(a, w, ev, false);
    assert Continue(a, w, ev, false) == Process(a, w2, ev, true);
  }

  /**
    `matchMessage(f)` on a message of its type: the routine is resumed if
    and only if `f` holds of the message.
  */
  lemma MatchMessageResumesIff(a: Adapter, w: World, ev: Event, f: Value -> bool)
    requires w.cur.waitingFor == Waiting(MatchMessage(f)) && ev.kind == MESSAGE
    ensures var r := Process(a, w, ev, false);
      |r.1.cur.iter.log| > |w.cur.iter.log| <==> f(ev.message)
  {
    assert Process(a, w, ev, false) == Dispatch(a, w, ev, false) == Continue(a, w, ev, false);
    if f(ev.message) {
      var (done, w1) := GetNext(a.name, w, ev.message);
      var w2 := if done then InitSequence(a, w1) else w1;
      assert Continue(a, w, ev, false) == Process(a, w2, ev, true);
    }
  }

  // ---------------------------------------------------------------------
  // Delete on done (index.js:4-11, 25, 34)
  // ---------------------------------------------------------------------

  /** A routine that completes on its first advance leaves no entry, and `next` is called. */
  lemma CompleteOnFirstAdvance(a: Adapter, reg: map<Name, EntryState>, ev: Event)
    requires a.name in reg ==> reg[a.name].waitingFor.Null? && Next(reg[a.name].iter, ev.message).0.Done?
    requires a.name !in reg ==> !a.explicitConnection && a.generator == []
    ensures Run(a, reg, ev) == (Declined, reg - {a.name})
  {
  }

  /**
    A routine that completes right after a true assertion leaves no entry and
    is not re-created. The context is consumed within a step that already
    matched it, or when its type is 'assertion': then the completed assertion
    matches it, the entry is re-armed, and the assertion, evaluated once
    more, deletes it again.
  */
  lemma AssertionThenComplete(a: Adapter, w: World, ev: Event, wait: bool)
    requires w.cur.waitingFor == Waiting(Assertion(true))
    requires Next(w.cur.iter, ev.message).0.Done?
    ensures var r := Process(a, w, ev, wait);
      && r.0 == (if wait || ev.kind == ASSERTION then Consumed else Declined)
      && a.name !in r.1.reg
      && r.1.reg == w.reg - {a.name}
  {
    var (_, w1) := GetNext(a.name, w, ev.message);
    assert Process(a, w, ev, wait) == Dispatch(a, w, ev, wait) == Continue(a, w1, ev, wait);
    if !wait && ev.kind == ASSERTION {
      assert Closed(w1.cur.iter);
      var (_, w2) := GetNext(a.name, w1, ev.message);
      var w3 := InitSequence(a, w2);
      assert Continue(a, w1, ev, false) == Process(a, w3, ev, true);
      var (_, w4) := GetNext(a.name, w3, ev.message);
      assert Process(a, w3, ev, true) == Dispatch(a, w3, ev, true) == Continue(a, w4, ev, true);
      assert w4.reg == w.reg - {a.name};
    }
  }

  // ---------------------------------------------------------------------
  // Await (index.js:37-43, 27)
  // ---------------------------------------------------------------------

  /**
    An await whose resumption yields a command: the routine is resumed with
    the value `fn()` settles to and the same context is processed again, with
    `wait` dropped. This holds for whatever kind of function `fn` is.
  */
  lemma AwaitResumes(a: Adapter, w: World, ev: Event, wait: bool, c: Command)
    requires w.cur.waitingFor == Waiting(c) && c.messageType == AWAIT && HasFn(c.payload)
    requires Next(w.cur.iter, Settled(c.payload)).0.Yielded?
    ensures var v := Settled(c.payload);
      Process(a, w, ev, wait)
         == Process(a, SetCur(w, a.name, w.cur.(iter := Next(w.cur.iter, v).1,
                                                 waitingFor := Waiting(Next(w.cur.iter, v).0.cmd))), ev, false)
  {
    assert Process(a, w, ev, wait) == Dispatch(a, w, ev, wait) == Continue(a, w, ev, wait);
  }

  /**
    An await that completes the routine: a fresh entry is installed, and then
    the property access on the `undefined` left in `waitingFor` throws.
  */
  lemma AwaitThenCompleteThrows(a: Adapter, w: World, ev: Event, wait: bool, c: Command)
    requires Inv(w, a.name)
    requires w.cur.waitingFor == Waiting(c) && c.messageType == AWAIT && HasFn(c.payload)
    requires Next(w.cur.iter, Settled(c.payload)).0.Done?
    ensures var r := Process(a, w, ev, wait);
      && r.0 == Error
      && r.1.cur.waitingFor == Undefined
      && r.1.reg == w.reg[a.name := Fresh(a.explicitConnection, w.cur.generator)]
  {
    var w1 := SetCur(w, a.name, w.cur.(iter := Next(w.cur.iter, Settled(c.payload)).1, waitingFor := Undefined));
    var w2 := InitSequence(a, w1);
    assert Process(a, w, ev, wait) == Dispatch(a, w, ev, wait) == Continue(a, w, ev, wait);
    assert Continue(a, w, ev, wait) == Process(a, w2, ev, false);
    assert Process(a, w2, ev, false) == Dispatch(a, w2, ev, false) == (Error, w2);
  }

  // ---------------------------------------------------------------------
  // Consumption
  // ---------------------------------------------------------------------

  /**
    A context is consumed only if the routine was resumed with its message
    during the call: consumption never happens on an await or assertion
    alone.
  */
  lemma {:induction false} ConsumedOnlyIfResumedWithMessage(a: Adapter, w: World, ev: Event)
    requires Process(a, w, ev, false).0 == Consumed
    ensures ResumedWith(w, Process(a, w, ev, false).1, ev.message)
    decreases Rank(w.cur, false)
  {
    if w.cur.waitingFor.Null? {
      var (done, w1) := GetNext(a.name, w, ev.message);
      assert w1.cur.iter.log == w.cur.iter.log + [ev.message];
      var r := Dispatch(a, w1, ev, false);
      assert r.1.cur.iter.log[|w.cur.iter.log|] == ev.message;
    } else {
      DispatchConsumed(a, w, ev);
    }
  }

  lemma {:induction false} DispatchConsumed(a: Adapter, w: World, ev: Event)
    requires !w.cur.waitingFor.Null?
    requires Dispatch(a, w, ev, false).0 == Consumed
    ensures ResumedWith(w, Dispatch(a, w, ev, false).1, ev.message)
    decreases Rank(w.cur, false), 0
  {
    var c := w.cur.waitingFor.cmd;
    if c.messageType == ASSERTION {
      var (_, w1) := GetNext(a.name, w, ev.message);
      assert w1.cur.iter.log == w.cur.iter.log + [ev.message];
      var r := Continue(a, w1, ev, false);
      assert r.1.cur.iter.log[|w.cur.iter.log|] == ev.message;
    } else if c.messageType == AWAIT {
      var v := Settled(c.payload);
      var (step, it) := Next(w.cur.iter, v);
      var w1 := SetCur(w, a.name, w.cur.(iter := it, waitingFor := if step.Done? then Undefined else Waiting(step.cmd)));
      var w2 := if step.Done? then InitSequence(a, w1) else w1;
      ConsumedOnlyIfResumedWithMessage(a, w2, ev);
      var r := Process(a, w2, ev, false);
      assert r.1.cur.iter.log[|w2.cur.iter.log|..] == r.1.cur.iter.log[|w.cur.iter.log|..][1..];
    } else {
      var (done, w1) := GetNext(a.name, w, ev.message);
      assert w1.cur.iter.log == w.cur.iter.log + [ev.message];
      var w2 := if done then InitSequence(a, w1) else w1;
      var r := Process(a, w2, ev, true);
      assert r.1.cur.iter.log[|w.cur.iter.log|] == ev.message;
    }
  }

  /** Processing never touches the entries of other adapters. */
  lemma OtherAdaptersUntouched(a: Adapter, reg: map<Name, EntryState>, ev: Event, other: Name)
    requires other != a.name && other in reg
    ensures var r := Run(a, reg, ev).1; other in r && r[other] == reg[other]
  {
    var r := Run(a, reg, ev).1;
    assert other in r - {a.name};
  }

  /**
    After any call the registry holds under the adapter's name nothing, the
    entry that was processed, or a freshly armed entry.
  */
  lemma RegistryCoherent(a: Adapter, reg: map<Name, EntryState>, ev: Event)
    ensures var (o, w) := Process(a, Enter(a, reg), ev, false);
      a.name in w.reg ==> w.reg[a.name] == w.cur || w.reg[a.name] == Fresh(a.explicitConnection, w.cur.generator)
  {
  }
}
