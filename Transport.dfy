/** The HTTP collaborator both engines wrap: a single-use call whose answer is
    either a transport failure or a response with a status and a streamed
    body. The call's answer is fixed when the call is made; how it is
    obtained (connections, retries, timeouts) belongs to the HTTP client. */
module Transport {
  import opened Common

  /** A response body as the network delivers it: the chunks successive
      reads return, and the declared content length (-1 when unknown). */
  datatype Body = Body(chunks: seq<seq<byte>>, contentLength: int)

  datatype Response = Response(code: int, message: string, body: Body)
  {
    /** An HTTP response is successful when its status is in [200, 300). */
    predicate IsSuccessful() { 200 <= code < 300 }
  }

  /** What the network answers to one issued call. */
  datatype Reply = Replied(response: Response) | Failed(error: Throwable)

  /** The delegate call. It may be issued once; a clone is a fresh,
      not-yet-issued call with the same answer. */
  class Call {
    const reply: Reply
    var executed: bool
    /** How many times `cancel()` has been called on this call. */
    var cancels: nat

    constructor (reply: Reply)
      ensures this.reply == reply && !executed && cancels == 0
    {
      this.reply := reply;
      executed := false;
      cancels := 0;
    }

    /** Issues the call synchronously. A call may be issued once. */
    method Execute() returns (r: Result<Response, Throwable>)
      modifies this`executed
      ensures executed
      ensures old(executed) ==> r == Failure(IllegalStateException("Already executed."))
      ensures !old(executed) ==> r == Answer(reply)
    {
      if executed {
        r := Failure(IllegalStateException("Already executed."));
      } else {
        executed := true;
        r := Answer(reply);
      }
    }

    /** Issues the call asynchronously: on success, the reply is what the
        one notification later delivered carries; a second issue is refused
        by throwing to the caller. */
    method Enqueue() returns (r: Result<Reply, Throwable>)
      modifies this`executed
      ensures executed
      ensures old(executed) ==> r == Failure(IllegalStateException("Already executed."))
      ensures !old(executed) ==> r == Success(reply)
    {
      if executed {
        r := Failure(IllegalStateException("Already executed."));
      } else {
        executed := true;
        r := Success(reply);
      }
    }

    method Cancel()
      modifies this`cancels
      ensures cancels == old(cancels) + 1
    {
      cancels := cancels + 1;
    }

    method Clone() returns (c: Call)
      ensures fresh(c) && c.reply == reply && !c.executed && c.cancels == 0
    {
      c := new Call(reply);
    }
  }

  /** A reply as the result the caller of an issue sees. */
  function Answer(reply: Reply): Result<Response, Throwable>
  {
    match reply
    case Replied(response) => Success(response)
    case Failed(error) => Failure(error)
  }
}
