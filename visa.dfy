/** The instrument connection the drivers talk through (a pyvisa resource).
    What the model keeps of it: the log of every message written, the queue
    of replies the instrument will give, and the timeout. Reading when the
    instrument has nothing to say is a VisaIOError (a timeout). */
module Visa {
  import opened Common

  /** What one driver operation does on the connection, as a function of the
      replies waiting: the messages it writes, in order, how many replies it
      reads, and what it returns or raises. */
  datatype Exchange<T> = Exchange(sent: seq<string>, consumed: nat, result: Result<T>)

  /** The next reply, or the timeout error when there is none. */
  function NextReply(replies: seq<string>): (r: Result<string>)
    ensures r.Ok? <==> |replies| > 0
    ensures r.Ok? ==> r.value == replies[0]
    ensures r.Err? ==> r.error == VisaIOError
  {
    if replies == [] then Err(VisaIOError) else Ok(replies[0])
  }

  /** A single query: one message written, then one reply read. */
  function QueryExchange(replies: seq<string>, message: string): (ex: Exchange<string>)
    ensures ex.sent == [message] && ex.consumed <= 1 && ex.consumed <= |replies|
    ensures ex.result == NextReply(replies)
    ensures ex.consumed == 1 <==> ex.result.Ok?
  {
    Exchange([message], if replies == [] then 0 else 1, NextReply(replies))
  }

  /** A single write, which reads nothing and cannot fail. */
  function WriteExchange<T>(message: string, result: T): (ex: Exchange<T>)
    ensures ex.sent == [message] && ex.consumed == 0 && ex.result == Ok(result)
  {
    Exchange([message], 0, Ok(result))
  }

  /** `a` followed by `b`, where `b` starts with the replies `a` left. */
  function Then<A, B>(a: Exchange<A>, b: Exchange<B>): (ex: Exchange<B>)
    ensures ex.sent == a.sent + b.sent && ex.consumed == a.consumed + b.consumed && ex.result == b.result
  {
    Exchange(a.sent + b.sent, a.consumed + b.consumed, b.result)
  }

  /** `a` raised: what it did, and its error. */
  function Abort<A, B>(a: Exchange<A>): (ex: Exchange<B>)
    requires a.result.Err?
    ensures ex.sent == a.sent && ex.consumed == a.consumed && ex.result == Err(a.result.error)
  {
    Exchange(a.sent, a.consumed, Err(a.result.error))
  }

  class Transport {
    var sent: seq<string>
    var replies: seq<string>
    var timeout: real

    constructor(replies: seq<string>, timeout: real)
      ensures this.sent == [] && this.replies == replies && this.timeout == timeout
    {
      this.sent := [];
      this.replies := replies;
      this.timeout := timeout;
    }

    /** The connection now shows exactly the effect of `ex`, starting from the
        log `sent0` and the reply queue `replies0`. */
    ghost predicate Performed<T>(sent0: seq<string>, replies0: seq<string>, ex: Exchange<T>)
      reads this`sent, this`replies
    {
      ex.consumed <= |replies0| && sent == sent0 + ex.sent && replies == replies0[ex.consumed..]
    }

    /** Performing `a` and then `b` performs their sequence. */
    lemma PerformedThen<A, B>(sent0: seq<string>, replies0: seq<string>, a: Exchange<A>, b: Exchange<B>)
      requires a.consumed <= |replies0|
      requires Performed(sent0 + a.sent, replies0[a.consumed..], b)
      ensures Performed(sent0, replies0, Then(a, b))
    {
      assert replies0[a.consumed..][b.consumed..] == replies0[a.consumed + b.consumed..];
    }

    method Write(message: string)
      modifies this
      ensures sent == old(sent) + [message]
      ensures replies == old(replies) && timeout == old(timeout)
    {
      sent := sent + [message];
    }

    method Read() returns (r: Result<string>)
      modifies this
      ensures r == NextReply(old(replies))
      ensures replies == if old(replies) == [] then [] else old(replies)[1..]
      ensures sent == old(sent) && timeout == old(timeout)
    {
      if replies == [] {
        r := Err(VisaIOError);
      } else {
        r := Ok(replies[0]);
        replies := replies[1..];
      }
    }

    method Query(message: string) returns (r: Result<string>)
      modifies this
      ensures Performed(old(sent), old(replies), QueryExchange(old(replies), message))
      ensures r == NextReply(old(replies)) && timeout == old(timeout)
    {
      Write(message);
      r := Read();
    }
  }
}
