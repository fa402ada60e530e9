/** The MTProto client the adapters call through (`api` in server.js and
    dummy_code.js).  The library itself (transport, encryption, the servers'
    answers) is an oracle: `respond(k, sent)` is the outcome of the `k`-th call of
    the client's life, `sent` being the request and the data center it went to.
    The client records every call it makes in `trace`, which is how the workflows'
    properties ("the invite call is never made") are stated. */
module Mtproto {
  import opened Wrappers

  /** One element of a `contacts.resolveUsername` answer's `chats` or `users`
      list; `tag` is the element's `_` field ("channel", "chat", "user", ...). */
  datatype Entity = Entity(tag: string, id: int, accessHash: int)

  /** The fields of an RPC answer that this repository reads; a field the answer
      lacks is `None` (JavaScript's `undefined`). */
  datatype Reply = Reply(
    chats: Option<seq<Entity>>,
    users: Option<seq<Entity>>,
    phoneCodeHash: Option<string>)

  /** A thrown error; only RPC errors carry an `error_message`. */
  datatype ApiError = ApiError(errorCode: int, errorMessage: Option<string>)

  type Outcome = Result<Reply, ApiError>

  datatype InputPeer =
    | InputChannel(channelId: int, accessHash: int)
    | InputUser(userId: int, accessHash: int)

  /** The RPC methods the core issues, with their parameters. */
  datatype Rpc =
    | ResolveUsername(username: string)
    | InviteToChannel(channel: InputPeer, users: seq<InputPeer>)
    | SendCode(phoneNumber: string)
    | SignIn(phoneNumber: string, phoneCode: string, phoneCodeHash: Option<string>)
  {
    /** The method name passed to `api.call`. */
    function Method(): string {
      match this
      case ResolveUsername(_) => "contacts.resolveUsername"
      case InviteToChannel(_, _) => "channels.inviteToChannel"
      case SendCode(_) => "auth.sendCode"
      case SignIn(_, _, _) => "auth.signIn"
    }
  }

  /** One `api.call`: the request and the client's default data center at the time
      (`None` once `setDefaultDc` has been given `NaN`). */
  datatype Sent = Sent(rpc: Rpc, dc: Option<int>)

  type Oracle = (nat, Sent) -> Outcome

  /** The observable effect of a sequence of calls: the trace after it, the default
      data center after it, and the outcome handed back to the caller. */
  datatype Step = Step(trace: seq<Sent>, dc: Option<int>, outcome: Outcome)

  /** The method name passed to `api.call` identifies the kind of request: two
      requests share a name exactly when they are of the same kind. */
  lemma MethodNameNamesKind(a: Rpc, b: Rpc)
    ensures a.Method() == b.Method() <==>
      || (a.ResolveUsername? && b.ResolveUsername?)
      || (a.InviteToChannel? && b.InviteToChannel?)
      || (a.SendCode? && b.SendCode?)
      || (a.SignIn? && b.SignIn?)
  {
  }

  class Client {
    const respond: Oracle
    var defaultDc: Option<int>
    var trace: seq<Sent>

    constructor (dc: int, respond: Oracle)
      ensures this.respond == respond && defaultDc == Some(dc) && trace == []
    {
      this.respond := respond;
      defaultDc := Some(dc);
      trace := [];
    }

    /** `api.call(method, params)`: one request to the current default data center. */
    method Call(rpc: Rpc) returns (o: Outcome)
      modifies this
      ensures defaultDc == old(defaultDc)
      ensures trace == old(trace) + [Sent(rpc, defaultDc)]
      ensures o == respond(|old(trace)|, Sent(rpc, defaultDc))
    {
      var sent := Sent(rpc, defaultDc);
      o := respond(|trace|, sent);
      trace := trace + [sent];
    }

    /** `api.setDefaultDc(dc)`: later calls go to `dc`; nothing is sent. */
    method SetDefaultDc(dc: Option<int>)
      modifies this
      ensures defaultDc == dc && trace == old(trace)
    {
      defaultDc := dc;
    }
  }
}
