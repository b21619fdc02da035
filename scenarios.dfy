/**
  Whole conversations: one adapter's middleware applied to the same context
  for a sequence of incoming messages.
*/
module Scenarios {
  import opened Commands
  import opened Routines
  import opened Interpreter

  /** A `matchMessage` predicate accepting exactly the payload `Str(k)`. */
  function IsKind(k: string): Value -> bool {
    m => m == Str(k)
  }

  function Msg(k: string): Event {
    Event(MESSAGE, Str(k))
  }

  /** A routine waiting for a message 'A' and then for a message 'B'. */
  function AThenB(): seq<Command> {
    [MatchMessage(IsKind("A")), MatchMessage(IsKind("B"))]
  }

  const N: Name := 0

  /** The entry after the routine has been resumed with `log` and is waiting on its next command. */
  function AtStep(log: seq<Value>): EntryState
    requires |log| <= |AThenB()|
  {
    EntryState(AThenB(), Routine(AThenB(), |log|, log),
               if |log| == 0 then Null else Waiting(AThenB()[|log| - 1]))
  }

  /** Feeding a non-empty list: the first event is handled, then the rest. */
  lemma FeedStep(a: Adapter, reg: map<Name, EntryState>, evs: seq<Event>,
                 o: Outcome, reg1: map<Name, EntryState>, os: seq<Outcome>, reg2: map<Name, EntryState>)
    requires evs != []
    requires Run(a, reg, evs[0]) == (o, reg1)
    requires Feed(a, reg1, evs[1..]) == (os, reg2)
    ensures Feed(a, reg, evs) == ([o] + os, reg2)
  {
  }

  /** A first message 'C' starts the routine, which waits for 'A' and turns 'C' down. */
  lemma FirstMessageTurnedDown(a: Adapter)
    requires a == Interruptible(AThenB(), N)
    ensures Run(a, map[], Msg("C")) == (Declined, map[N := AtStep([Str("C")])])
  {
    var w0 := Enter(a, map[]);
    var (_, w1) := GetNext(N, w0, Str("C"));
    assert Process(a, w0, Msg("C"), false) == Dispatch(a, w1, Msg("C"), false) == Continue(a, w1, Msg("C"), false);
    assert w1.cur == AtStep([Str("C")]);
    assert !MatchPasses(AThenB()[0], Str("C"));
    assert w1.reg == map[N := AtStep([Str("C")])];
  }

  /** 'A' is consumed and the routine waits for 'B'. */
  lemma SecondMessageConsumed(a: Adapter)
    requires a == Interruptible(AThenB(), N)
    ensures Run(a, map[N := AtStep([Str("C")])], Msg("A")) == (Consumed, map[N := AtStep([Str("C"), Str("A")])])
  {
    var w0 := Enter(a, map[N := AtStep([Str("C")])]);
    var (_, w1) := GetNext(N, w0, Str("A"));
    assert Process(a, w0, Msg("A"), false) == Dispatch(a, w0, Msg("A"), false) == Continue(a, w0, Msg("A"), false);
    assert MatchPasses(AThenB()[0], Str("A"));
    assert Continue(a, w0, Msg("A"), false) == Process(a, w1, Msg("A"), true);
    assert Process(a, w1, Msg("A"), true) == Dispatch(a, w1, Msg("A"), true) == Continue(a, w1, Msg("A"), true);
    assert w1.cur == AtStep([Str("C"), Str("A")]) && w1.reg == map[N := w1.cur];
  }

  /** Another 'C' is turned down and the entry kept. */
  lemma ThirdMessageTurnedDown(a: Adapter)
    requires a == Interruptible(AThenB(), N)
    ensures var reg := map[N := AtStep([Str("C"), Str("A")])];
      Run(a, reg, Msg("C")) == (Declined, reg)
  {
    var w0 := Enter(a, map[N := AtStep([Str("C"), Str("A")])]);
    assert Process(a, w0, Msg("C"), false) == Dispatch(a, w0, Msg("C"), false) == Continue(a, w0, Msg("C"), false);
    assert !MatchPasses(AThenB()[1], Str("C"));
  }

  /** 'B' completes the routine, and the entry is re-armed fresh. */
  lemma FourthMessageCompletes(a: Adapter)
    requires a == Interruptible(AThenB(), N)
    ensures Run(a, map[N := AtStep([Str("C"), Str("A")])], Msg("B")) == (Consumed, map[N := Fresh(false, AThenB())])
  {
    var w0 := Enter(a, map[N := AtStep([Str("C"), Str("A")])]);
    var (_, w1) := GetNext(N, w0, Str("B"));
    var w2 := InitSequence(a, w1);
    assert Process(a, w0, Msg("B"), false) == Dispatch(a, w0, Msg("B"), false) == Continue(a, w0, Msg("B"), false);
    assert MatchPasses(AThenB()[1], Str("B"));
    assert Continue(a, w0, Msg("B"), false) == Process(a, w2, Msg("B"), true);
    assert Process(a, w2, Msg("B"), true) == Dispatch(a, w2, Msg("B"), true) == Continue(a, w2, Msg("B"), true);
    assert w2.reg == map[N := Fresh(false, AThenB())];
  }

  /**
    Interruptible, fed 'C', 'A', 'C', 'B': the 'C's are declined, 'A' and 'B'
    consumed, so `next` is called exactly twice, and the completed routine is
    re-armed fresh.
  */
  lemma InterruptibleConversation()
    ensures Feed(Interruptible(AThenB(), N), map[], [Msg("C"), Msg("A"), Msg("C"), Msg("B")])
         == ([Declined, Consumed, Declined, Consumed], map[N := Fresh(false, AThenB())])
  {
    var a := Interruptible(AThenB(), N);
    FirstMessageTurnedDown(a);
    SecondMessageConsumed(a);
    ThirdMessageTurnedDown(a);
    FourthMessageCompletes(a);
    var done := map[N := Fresh(false, AThenB())];
    var e1 := map[N := AtStep([Str("C")])];
    var e2 := map[N := AtStep([Str("C"), Str("A")])];
    var evs := [Msg("C"), Msg("A"), Msg("C"), Msg("B")];
    assert evs[3..][1..] == [];
    FeedStep(a, e2, evs[3..], Consumed, done, [], done);
    assert evs[2..][1..] == evs[3..];
    assert [Consumed] + [] == [Consumed];
    FeedStep(a, e2, evs[2..], Declined, e2, [Consumed], done);
    assert evs[1..][1..] == evs[2..];
    assert [Declined] + [Consumed] == [Declined, Consumed];
    FeedStep(a, e1, evs[1..], Consumed, e2, [Declined, Consumed], done);
    assert [Consumed] + [Declined, Consumed] == [Consumed, Declined, Consumed];
    FeedStep(a, map[], evs, Declined, e1, [Consumed, Declined, Consumed], done);
    assert [Declined] + [Consumed, Declined, Consumed] == [Declined, Consumed, Declined, Consumed];
  }

  /** Uninterruptible: 'C' starts the routine, fails the predicate for 'A', and abandons the entry. */
  lemma WrongFirstMessageAbandons(a: Adapter, k: string)
    requires a == Uninterruptible(AThenB(), N) && k != "A"
    ensures Run(a, map[], Msg(k)) == (Declined, map[])
  {
    var w0 := Enter(a, map[]);
    var (_, w1) := GetNext(N, w0, Str(k));
    assert Process(a, w0, Msg(k), false) == Dispatch(a, w1, Msg(k), false) == Continue(a, w1, Msg(k), false);
    assert !MatchPasses(AThenB()[0], Str(k));
    assert w1.reg == map[N := w1.cur];
  }

  /** With no entry, 'A' starts a new routine, which is resumed with it at once and waits for 'B'. */
  lemma RightFirstMessageConsumed(a: Adapter)
    requires a == Uninterruptible(AThenB(), N)
    ensures Run(a, map[], Msg("A")) == (Consumed, map[N := AtStep([Str("A"), Str("A")])])
  {
    var w0 := Enter(a, map[]);
    var (_, w1) := GetNext(N, w0, Str("A"));
    var (_, w2) := GetNext(N, w1, Str("A"));
    assert Process(a, w0, Msg("A"), false) == Dispatch(a, w1, Msg("A"), false) == Continue(a, w1, Msg("A"), false);
    assert MatchPasses(AThenB()[0], Str("A"));
    assert Continue(a, w1, Msg("A"), false) == Process(a, w2, Msg("A"), true);
    assert Process(a, w2, Msg("A"), true) == Dispatch(a, w2, Msg("A"), true) == Continue(a, w2, Msg("A"), true);
    assert w2.cur == AtStep([Str("A"), Str("A")]) && w2.reg == map[N := w2.cur];
  }

  /**
    Uninterruptible, fed 'C', 'B', 'A': each wrong message starts the routine
    afresh and abandons it, so nothing is left behind; the later 'A' starts
    it once more and is consumed. (The conversation is not barred: a routine
    whose entry was deleted is simply re-created on the next message.)
  */
  lemma UninterruptibleConversation()
    ensures Feed(Uninterruptible(AThenB(), N), map[], [Msg("C"), Msg("B"), Msg("A")])
         == ([Declined, Declined, Consumed], map[N := AtStep([Str("A"), Str("A")])])
  {
    var a := Uninterruptible(AThenB(), N);
    var last := map[N := AtStep([Str("A"), Str("A")])];
    WrongFirstMessageAbandons(a, "C");
    WrongFirstMessageAbandons(a, "B");
    RightFirstMessageConsumed(a);
    var evs := [Msg("C"), Msg("B"), Msg("A")];
    assert Feed(a, last, []) == ([], last);
    assert evs[2..][1..] == [];
    FeedStep(a, map[], evs[2..], Consumed, last, [], last);
    assert evs[1..][1..] == evs[2..];
    assert [Consumed] + [] == [Consumed];
    FeedStep(a, map[], evs[1..], Declined, map[], [Consumed], last);
    assert [Declined] + [Consumed] == [Declined, Consumed];
    FeedStep(a, map[], evs, Declined, map[], [Declined, Consumed], last);
    assert [Declined] + [Declined, Consumed] == [Declined, Declined, Consumed];
  }

  /** A routine that awaits an operation resolving to 5 and then asserts a condition that holds. */
  function AwaitThenAssert(): seq<Command> {
    [Await(Num(5)), Assertion(true)]
  }

  /**
    One message drives the whole routine: it starts it, the await resolves
    and resumes it, the assertion holds and resumes it again, and it
    completes. The completed entry is deleted and not re-created, and since
    the finished assertion command is left pending and the message is not an
    assertion, `next` is called.
  */
  lemma AwaitThenAssertCompletes(k: string)
    ensures var a := Interruptible(AwaitThenAssert(), N);
      Run(a, map[], Msg(k)) == (Declined, map[])
  {
    var a := Interruptible(AwaitThenAssert(), N);
    var ev := Msg(k);
    var w0 := Enter(a, map[]);
    var (_, w1) := GetNext(N, w0, Str(k));
    assert w1.cur.waitingFor == Waiting(Await(Num(5)));
    var (_, it) := Next(w1.cur.iter, Num(5));
    var w2 := SetCur(w1, N, w1.cur.(iter := it, waitingFor := Waiting(Assertion(true))));
    var (_, w3) := GetNext(N, w2, Str(k));
    assert Process(a, w0, ev, false) == Dispatch(a, w1, ev, false) == Continue(a, w1, ev, false);
    assert Continue(a, w1, ev, false) == Process(a, w2, ev, false);
    assert Process(a, w2, ev, false) == Dispatch(a, w2, ev, false) == Continue(a, w3, ev, false);
    assert w3.cur.waitingFor == Waiting(Assertion(true)) && w3.reg == map[];
  }

  /** A routine that takes one message, awaits an operation resolving to `v`, and takes another message. */
  function TwoMessagesAroundAwait(v: Value): seq<Command> {
    [GetMessage(), Await(v), GetMessage()]
  }

  /**
    Because the re-processing after an await drops the `wait` flag, a single
    message satisfies both `getMessage` commands: the routine completes on
    it, is re-armed fresh, and the message is consumed.
  */
  lemma OneMessageTwoGets(v: Value, k: string)
    ensures var a := Interruptible(TwoMessagesAroundAwait(v), N);
      Run(a, map[], Msg(k)) == (Consumed, map[N := Fresh(false, TwoMessagesAroundAwait(v))])
  {
    var g := TwoMessagesAroundAwait(v);
    var a := Interruptible(g, N);
    var ev := Msg(k);
    var w0 := Enter(a, map[]);
    var (_, w1) := GetNext(N, w0, Str(k));
    assert w1.cur.waitingFor == Waiting(GetMessage());
    var (_, w2) := GetNext(N, w1, Str(k));
    assert w2.cur.waitingFor == Waiting(Await(v));
    var (_, it) := Next(w2.cur.iter, v);
    var w3 := SetCur(w2, N, w2.cur.(iter := it, waitingFor := Waiting(GetMessage())));
    var (_, w4) := GetNext(N, w3, Str(k));
    var w5 := InitSequence(a, w4);
    assert Process(a, w0, ev, false) == Dispatch(a, w1, ev, false) == Continue(a, w1, ev, false);
    assert Continue(a, w1, ev, false) == Process(a, w2, ev, true);
    assert Process(a, w2, ev, true) == Dispatch(a, w2, ev, true) == Continue(a, w2, ev, true);
    assert Continue(a, w2, ev, true) == Process(a, w3, ev, false);
    assert Process(a, w3, ev, false) == Dispatch(a, w3, ev, false) == Continue(a, w3, ev, false);
    assert Continue(a, w3, ev, false) == Process(a, w5, ev, true);
    assert Process(a, w5, ev, true) == Dispatch(a, w5, ev, true) == Continue(a, w5, ev, true);
  }

  /** A connection handler that takes one message. */
  function Greeting(): seq<Command> {
    [GetMessage()]
  }

  /** The 'connection' context starts the routine, which then waits for a message. */
  lemma ConnectionStartsRoutine(a: Adapter)
    requires a == OnConnect(Greeting(), N)
    ensures Run(a, map[], Event(CONNECTION, Nil))
         == (Consumed, map[N := EntryState(Greeting(), Routine(Greeting(), 1, [Nil]), Waiting(GetMessage()))])
  {
    var ev := Event(CONNECTION, Nil);
    var w0 := Enter(a, map[]);
    var (_, w1) := GetNext(N, w0, Nil);
    assert Process(a, w0, ev, false) == Dispatch(a, w0, ev, false) == Continue(a, w0, ev, false);
    assert Continue(a, w0, ev, false) == Process(a, w1, ev, true);
    assert Process(a, w1, ev, true) == Dispatch(a, w1, ev, true) == Continue(a, w1, ev, true);
    assert w1.cur.iter == Routine(Greeting(), 1, [Nil]);
    assert w1.cur == EntryState(Greeting(), Routine(Greeting(), 1, [Nil]), Waiting(GetMessage()));
    assert w1.reg == map[N := w1.cur];
  }

  /** The message completes the routine, and the handler is re-armed to wait for a connection again. */
  lemma MessageCompletesGreeting(a: Adapter, k: string)
    requires a == OnConnect(Greeting(), N)
    ensures Run(a, map[N := EntryState(Greeting(), Routine(Greeting(), 1, [Nil]), Waiting(GetMessage()))], Msg(k))
         == (Consumed, map[N := Fresh(true, Greeting())])
  {
    var ev := Msg(k);
    var w0 := Enter(a, map[N := EntryState(Greeting(), Routine(Greeting(), 1, [Nil]), Waiting(GetMessage()))]);
    var (_, w1) := GetNext(N, w0, Str(k));
    var w2 := InitSequence(a, w1);
    assert Process(a, w0, ev, false) == Dispatch(a, w0, ev, false) == Continue(a, w0, ev, false);
    assert Continue(a, w0, ev, false) == Process(a, w2, ev, true);
    assert Process(a, w2, ev, true) == Dispatch(a, w2, ev, true) == Continue(a, w2, ev, true);
  }

  /**
    onConnect, fed a 'connection' context and then a message: both are
    consumed, and the completed handler waits for the next connection.
  */
  lemma OnConnectConversation(k: string)
    ensures Feed(OnConnect(Greeting(), N), map[], [Event(CONNECTION, Nil), Msg(k)])
         == ([Consumed, Consumed], map[N := Fresh(true, Greeting())])
  {
    var a := OnConnect(Greeting(), N);
    var mid := map[N := EntryState(Greeting(), Routine(Greeting(), 1, [Nil]), Waiting(GetMessage()))];
    var done := map[N := Fresh(true, Greeting())];
    ConnectionStartsRoutine(a);
    MessageCompletesGreeting(a, k);
    var evs := [Event(CONNECTION, Nil), Msg(k)];
    assert Feed(a, done, []) == ([], done);
    assert evs[1..][1..] == [];
    FeedStep(a, mid, evs[1..], Consumed, done, [], done);
    assert [Consumed] + [] == [Consumed];
    FeedStep(a, map[], evs, Consumed, mid, [Consumed], done);
    assert [Consumed] + [Consumed] == [Consumed, Consumed];
  }

  /** `j` rounds of awaiting an operation that settles to `v` and then taking a message. */
  function Rounds(v: Value, j: nat): seq<Command> {
    if j == 0 then [] else [Await(v), GetMessage()] + Rounds(v, j - 1)
  }

  /** What the routine is handed when one message `m` drives it through `j` rounds. */
  function Echo(m: Value, v: Value, j: nat): seq<Value> {
    if j == 0 then [m] else [m, v] + Echo(m, v, j - 1)
  }

  /**
    A routine waiting on `getMessage()` whose rest is `j` rounds of an await
    followed by `getMessage()`: one message is matched, the await drops the
    `wait` flag, and the same message is matched again, once per round, until
    the routine completes. The message is consumed, and the routine has been
    handed it `j + 1` times. A generator that never completes would keep the
    call from returning.
  */
  lemma {:induction false} SameMessageEveryRound(a: Adapter, w: World, ev: Event, v: Value, j: nat)
    requires w.cur.waitingFor == Waiting(GetMessage()) && ev.kind == MESSAGE
    requires w.cur.iter.pc <= |w.cur.iter.script| && w.cur.iter.script[w.cur.iter.pc..] == Rounds(v, j)
    ensures var r := Process(a, w, ev, false);
      r.0 == Consumed && r.1.cur.iter.log == w.cur.iter.log + Echo(ev.message, v, j)
    decreases j
  {
    var p := w.cur.iter.pc;
    var g := w.cur.iter.script;
    var (done, w1) := GetNext(a.name, w, ev.message);
    assert Process(a, w, ev, false) == Dispatch(a, w, ev, false) == Continue(a, w, ev, false);
    if j == 0 {
      var w2 := InitSequence(a, w1);
      assert Continue(a, w, ev, false) == Process(a, w2, ev, true);
      assert Process(a, w2, ev, true) == Dispatch(a, w2, ev, true) == Continue(a, w2, ev, true);
    } else {
      assert g[p..][0] == Await(v) && g[p..][1] == GetMessage();
      assert g[p + 2..] == g[p..][2..] == Rounds(v, j - 1);
      assert w1.cur.waitingFor == Waiting(Await(v));
      var (_, it) := Next(w1.cur.iter, v);
      var w3 := SetCur(w1, a.name, w1.cur.(iter := it, waitingFor := Waiting(GetMessage())));
      assert Continue(a, w, ev, false) == Process(a, w1, ev, true);
      assert Process(a, w1, ev, true) == Dispatch(a, w1, ev, true) == Continue(a, w1, ev, true);
      assert Continue(a, w1, ev, true) == Process(a, w3, ev, false);
      SameMessageEveryRound(a, w3, ev, v, j - 1);
      assert w3.cur.iter.log == w.cur.iter.log + [ev.message, v];
    }
  }

  /**
    A fresh routine of `getMessage()` followed by `j` rounds: a single message
    runs it to completion and is consumed. The routine receives the message
    first as the starting call's argument and then once per match.
  */
  lemma OneMessageEveryRound(v: Value, j: nat, k: string)
    ensures var a := Interruptible([GetMessage()] + Rounds(v, j), N);
      var r := Process(a, Enter(a, map[]), Msg(k), false);
      r.0 == Consumed && r.1.cur.iter.log == [Str(k)] + Echo(Str(k), v, j)
  {
    var a := Interruptible([GetMessage()] + Rounds(v, j), N);
    var w0 := Enter(a, map[]);
    var (_, w1) := GetNext(N, w0, Str(k));
    assert w1.cur.iter.script[1..] == Rounds(v, j);
    assert Process(a, w0, Msg(k), false) == Dispatch(a, w1, Msg(k), false) == Continue(a, w1, Msg(k), false);
    assert Process(a, w1, Msg(k), false) == Dispatch(a, w1, Msg(k), false);
    SameMessageEveryRound(a, w1, Msg(k), v, j);
  }
}
