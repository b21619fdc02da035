/**
  The caller-supplied routine (a JavaScript generator) as a finite script of
  commands and a program counter. The values it is resumed with are kept in
  a log; they do not steer the script.
*/
module Routines {
  import opened Commands

  /**
    `pc` counts the commands yielded so far; `pc == |script| + 1` means the
    generator has returned and is closed.
  */
  datatype Routine = Routine(script: seq<Command>, pc: nat, log: seq<Value>)

  /** What one call of `iterator.next(v)` reports: `{value, done: false}` or `{done: true}`. */
  datatype Step = Yielded(cmd: Command) | Done

  /** A fresh iterator, as `generator(ctx, next)` returns it (index.js:17). */
  function Start(script: seq<Command>): (r: Routine)
    ensures r.script == script && r.log == [] && r.pc == 0 && !Closed(r)
  {
    Routine(script, 0, [])
  }

  predicate Closed(r: Routine) {
    r.pc > |r.script|
  }

  /** How many more calls of `next` can change the routine's position. */
  function Remaining(r: Routine): nat {
    if Closed(r) then 0 else |r.script| + 1 - r.pc
  }

  /**
    `iterator.next(v)`: the first call starts the body, each later one hands
    `v` to the pending `yield`; once the script is exhausted the generator
    returns, and from then on every call reports done.
  */
  function Next(r: Routine, v: Value): (res: (Step, Routine))
    ensures res.1.script == r.script && res.1.log == r.log + [v]
    ensures res.0.Done? <==> r.pc >= |r.script|
    ensures res.0.Yielded? ==> res.0.cmd == r.script[r.pc] && res.1.pc == r.pc + 1
    ensures res.0.Done? ==> Closed(res.1) && Remaining(res.1) == 0
    ensures res.0.Yielded? ==> Remaining(res.1) < Remaining(r)
  {
    if r.pc < |r.script| then
      (Yielded(r.script[r.pc]), Routine(r.script, r.pc + 1, r.log + [v]))
    else
      (Done, Routine(r.script, |r.script| + 1, r.log + [v]))
  }

  /** The steps reported when the routine is resumed with each of `vs` in turn. */
  function Drive(r: Routine, vs: seq<Value>): (res: (seq<Step>, Routine))
    ensures |res.0| == |vs|
    ensures res.1.script == r.script && res.1.log == r.log + vs
    decreases |vs|
  {
    if vs == [] then ([], r)
    else
      var (step, r') := Next(r, vs[0]);
      var (steps, r'') := Drive(r', vs[1..]);
      assert vs == [vs[0]] + vs[1..];
      ([step] + steps, r'')
  }

  /**
    A routine that has yielded `pc` commands, resumed `|vs|` times, yields
    the rest of its script in order and then reports done on every later call.
  */
  lemma {:induction false} DriveYieldsScript(r: Routine, vs: seq<Value>, i: nat)
    requires r.pc <= |r.script| + 1
    requires i < |vs|
    ensures var steps := Drive(r, vs).0;
      if r.pc + i < |r.script| then steps[i] == Yielded(r.script[r.pc + i]) else steps[i] == Done
    decreases |vs|
  {
    var (step, r') := Next(r, vs[0]);
    if i > 0 {
      DriveYieldsScript(r', vs[1..], i - 1);
    }
  }

  /** Once the routine reports done, every later call reports done. */
  lemma {:induction false} DoneStaysDone(r: Routine, v: Value, vs: seq<Value>, i: nat)
    requires Next(r, v).0.Done?
    requires i < |vs|
    ensures Drive(Next(r, v).1, vs).0[i] == Done
  {
    DriveYieldsScript(Next(r, v).1, vs, i);
  }
}
