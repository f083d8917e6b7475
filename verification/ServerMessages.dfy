/** The server's handling of one client message on a connection. */
module ServerMessages {
  import opened Wrappers
  import opened ClientConns

  /** How the action function ended. */
  datatype ActionResult = Output(output: string) | Thrown(code: string)

  /** Which handlers the endpoint installs; an actor instance installs both. */
  datatype Handlers = Handlers(executesActions: bool, subscribes: bool)

  const INSTANCE_HANDLERS := Handlers(true, true)

  datatype Processed = Processed(subscriptions: set<string>, replies: seq<ToClient>)

  function Apply(subscriptions: set<string>, m: ToServer): set<string> {
    match m
    case ActionRequest(_, _, _) => subscriptions
    case SubscriptionRequest(e, s) => if s then subscriptions + {e} else subscriptions - {e}
  }

  function Reply(i: nat, result: ActionResult): ToClient {
    match result
    case Output(o) => ActionResponse(i, o)
    case Thrown(code) => Error(code, Some(i))
  }

  function Process(h: Handlers, subscriptions: set<string>, m: ToServer, result: ActionResult): Processed {
    match m
    case ActionRequest(i, _, _) =>
      Processed(subscriptions, [if h.executesActions then Reply(i, result) else Error("unsupported", None)])
    case SubscriptionRequest(e, s) =>
      if h.subscribes then Processed(Apply(subscriptions, m), [])
      else Processed(subscriptions, [Error("unsupported", None)])
  }

  /** The action that a reply belongs to. */
  function ReplyId(m: ToClient): Option<nat> {
    match m
    case ActionResponse(i, _) => Some(i)
    case Error(_, ai) => ai
    case _ => None
  }

  class ServerConn {
    var subscriptions: set<string>

    constructor ()
      ensures subscriptions == {}
    {
      subscriptions := {};
    }

    /** Every action request gets exactly one reply, with its own identifier; subscription requests get none. */
    method ProcessMessage(h: Handlers, m: ToServer, result: ActionResult) returns (replies: seq<ToClient>)
      modifies this
      ensures Processed(subscriptions, replies) == Process(h, old(subscriptions), m, result)
      ensures h.executesActions && m.ActionRequest? ==> |replies| == 1 && ReplyId(replies[0]) == Some(m.i)
      ensures h.subscribes && m.SubscriptionRequest? ==> replies == [] && (m.e in subscriptions <==> m.s)
      ensures h.executesActions && m.ActionRequest? && result.Output? ==> replies == [ActionResponse(m.i, result.output)]
      ensures h.executesActions && m.ActionRequest? && result.Thrown? ==> replies == [Error(result.code, Some(m.i))]
      ensures !(if m.ActionRequest? then h.executesActions else h.subscribes) ==> replies == [Error("unsupported", None)]
      ensures m.ActionRequest? || !h.subscribes ==> subscriptions == old(subscriptions)
      ensures m.SubscriptionRequest? ==> forall e | e != m.e :: e in subscriptions <==> e in old(subscriptions)
    {
      replies := [];
      var actionId: Option<nat> := None;
      var error: Option<string> := None;
      if m.ActionRequest? {
        if !h.executesActions {
          error := Some("unsupported");
        } else {
          actionId := Some(m.i);
          match result {
            case Output(o) => replies := replies + [ActionResponse(m.i, o)];
            case Thrown(code) => error := Some(code);
          }
        }
      } else {
        if !h.subscribes {
          error := Some("unsupported");
        } else if m.s {
          subscriptions := subscriptions + {m.e};
        } else {
          subscriptions := subscriptions - {m.e};
        }
      }
      if error.Some? {
        replies := replies + [Error(error.value, actionId)];
      }
    }
  }
}
