/**
  The command vocabulary of hexnut-sequence: the plain objects a routine
  yields to say what it is waiting for (index.js:83-94), and the synthetic
  command a start-gated entry begins with (index.js:19).
*/
module Commands {

  datatype Option<T> = None | Some(value: T)

  /** A JavaScript value as the interpreter handles it: a message payload or a resume value. */
  datatype Value = Undef | Nil | Bool(b: bool) | Num(n: int) | Str(s: string)

  /**
    The part of a command the interpreter calls. Each command object has at
    most one of them; reading one that the object lacks reads `undefined`.
    `Check` and `Async` are both the object's one `fn` field: the interpreter
    calls it on the message for a match and awaits it for an await, whichever
    kind of function it holds.
  */
  datatype Payload =
    | NoPayload
      /** `fn` of a message-matching command: the predicate on the message. */
    | Check(fn: Value -> bool)
      /** `pred` of an assertion, as the value `pred()` returns. */
    | Pred(holds: bool)
      /** `fn` of an await command, as the value its promise resolves to. */
    | Async(resolves: Value)

  /** A command object: dispatch is on `messageType`, then on the optional `operation`. */
  datatype Command = Command(messageType: string, operation: Option<string>, payload: Payload)

  const MESSAGE := "message"
  const MATCH_MESSAGE := "matchMessage"
  const ASSERTION := "assertion"
  const AWAIT := "await"
  const CONNECTION := "connection"

  /** Whether the command object has an `fn` field, whichever kind of function it holds. */
  predicate HasFn(p: Payload) {
    p.Check? || p.Async?
  }

  /**
    What `await fn()` settles to (index.js:38): the value of the promise, or,
    for an `fn` that is a plain predicate, what it returns when called with
    no argument.
  */
  function Settled(p: Payload): Value
    requires HasFn(p)
  {
    match p
    case Async(v) => v
    case Check(f) => Bool(f(Undef))
  }

  /** A command the interpreter settles without looking at the incoming message's type. */
  predicate IsImmediate(c: Command) {
    c.messageType == ASSERTION || c.messageType == AWAIT
  }

  /** `matchMessage(matchFn)`: wait for a message for which `matchFn` holds. */
  function MatchMessage(matchFn: Value -> bool): (c: Command)
    ensures c.messageType == MESSAGE && !IsImmediate(c)
    ensures c.operation == Some(MATCH_MESSAGE)
    ensures c.payload.Check? && forall m :: c.payload.fn(m) == matchFn(m)
  {
    Command(MESSAGE, Some(MATCH_MESSAGE), Check(matchFn))
  }

  /** `getMessage()`: a message-matching command whose predicate holds of every message. */
  function GetMessage(): (c: Command)
    ensures c.messageType == MESSAGE && !IsImmediate(c)
    ensures c.operation == Some(MATCH_MESSAGE)
    ensures c.payload.Check? && forall m :: c.payload.fn(m)
  {
    Command(MESSAGE, Some(MATCH_MESSAGE), Check(_ => true))
  }

  /** `assert(pred)`: `holds` is what `pred()` returns when the interpreter calls it. */
  function Assertion(holds: bool): (c: Command)
    ensures IsImmediate(c) && c.messageType == ASSERTION && c.operation.None?
    ensures c.payload == Pred(holds)
  {
    Command(ASSERTION, None, Pred(holds))
  }

  /** `await(fn)`: `resolves` is the value the promise `fn()` returns settles to. */
  function Await(resolves: Value): (c: Command)
    ensures IsImmediate(c) && c.messageType == AWAIT && c.operation.None?
    ensures c.payload == Async(resolves)
  {
    Command(AWAIT, None, Async(resolves))
  }

  /** The command a start-gated entry waits on first: a context of type 'connection'. */
  function Connection(): (c: Command)
    ensures !IsImmediate(c) && c.messageType == CONNECTION
    ensures c.operation.None? && c.payload.NoPayload?
  {
    Command(CONNECTION, None, NoPayload)
  }
}
