/** The three chat handlers as transitions on the message store. The
    database's availability at each store call, the upstream reply and the
    clock readings the store stamps records with are parameters. */
module ChatRoute {
  import opened Wrappers
  import opened Strings
  import opened MessageSchema
  import opened MessageStore
  import opened Upstream

  const OK: nat := 200
  const BadRequest: nat := 400
  const ServerError: nat := 500

  /** The reply stored and returned whenever the model gives no text. */
  const Fallback: string := "\U{26A0}\U{FE0F} Sorry, I could not generate a reply."

  /** JSON bodies the handlers send. */
  datatype Body =
    | Messages(messages: seq<Message>)
    | Reply(reply: string)
    | Notice(message: string)
    | Error(error: string)

  /** A handler's response together with the store it leaves behind. */
  datatype Outcome = Outcome(status: nat, body: Body, store: Store)

  /** What the environment does during one `POST /chat`: whether each save
      reaches the database, the clock reading each save is stamped with, and
      the model's outcome. */
  datatype ChatEnv = ChatEnv(userSaved: bool, userAt: nat, upstream: Generation, aiSaved: bool, aiAt: nat)

  /** The reply text: the model's text when it produced one, the fallback on
      a thrown call or a missing `response.text`. */
  function ReplyText(g: Generation): (r: string)
    ensures g.Generated? ==> r == g.text
    ensures !g.Generated? ==> r == Fallback
  {
    match g
    case Generated(t) => t
    case _ => Fallback
  }

  /** The user record `POST /chat` writes for `text`. */
  function UserRecord(text: string, env: ChatEnv): Message {
    Message(User, text, env.userAt)
  }

  /** The AI record `POST /chat` writes. */
  function AiRecord(env: ChatEnv): Message {
    Message(Ai, ReplyText(env.upstream), env.aiAt)
  }

  /** `GET /chat/history`. */
  function GetHistory(store: Store, reachable: bool): (r: Outcome)
    ensures r.store == store
    ensures r.status == OK <==> reachable
    ensures r.status != OK ==> r.status == ServerError && r.body == Error("Could not fetch chat history")
    ensures r.status == OK ==> r.body.Messages?
    ensures r.status == OK ==> SortedByTime(r.body.messages) && multiset(r.body.messages) == multiset(store)
  {
    match Find(store, reachable)
    case Success(ms) => Outcome(OK, Messages(ms), store)
    case Failure(_) => Outcome(ServerError, Error("Could not fetch chat history"), store)
  }

  /** `POST /chat` with body field `message`. */
  function PostChat(store: Store, message: Option<string>, env: ChatEnv): (r: Outcome)
    ensures r.status == OK || r.status == BadRequest || r.status == ServerError
    // validation: a missing or empty message is refused and nothing is written
    ensures r.status == BadRequest <==> !Truthy(message)
    ensures r.status == BadRequest ==> r.store == store && r.body == Error("Message is required")
    // the user record goes in before the model is consulted
    ensures Truthy(message) && env.userSaved ==>
      |r.store| >= |store| + 1 && r.store[..|store| + 1] == store + [UserRecord(message.value, env)]
    ensures Truthy(message) && !env.userSaved ==> r.status == ServerError && r.store == store
    // success: exactly the user record then the AI record, and the body echoes the AI record
    ensures r.status == OK <==> Truthy(message) && env.userSaved && env.aiSaved && ReplyText(env.upstream) != ""
    ensures r.status == OK ==> r.store == store + [UserRecord(message.value, env), AiRecord(env)]
    ensures r.status == OK ==> r.body == Reply(r.store[|store| + 1].text)
    // a failed save is an internal error and leaves at most the user record
    ensures r.status == ServerError ==> r.body == Error("Something went wrong")
    ensures r.status == ServerError ==> r.store == store || r.store == store + [UserRecord(message.value, env)]
  {
    if !Truthy(message) then
      Outcome(BadRequest, Error("Message is required"), store)
    else
      match Save(store, Draft(Some("user"), message), env.userAt, env.userSaved)
      case Failure(_) => Outcome(ServerError, Error("Something went wrong"), store)
      case Success(withUser) =>
        var reply := ReplyText(env.upstream);
        match Save(withUser, Draft(Some("ai"), Some(reply)), env.aiAt, env.aiSaved)
        case Failure(_) => Outcome(ServerError, Error("Something went wrong"), withUser)
        case Success(withBoth) => Outcome(OK, Reply(reply), withBoth)
  }

  /** `DELETE /chat/history`. A failed delete is taken to leave the store
      as it was. */
  function ClearHistory(store: Store, reachable: bool): (r: Outcome)
    ensures r.status == OK <==> reachable
    ensures r.status == OK ==> r.store == [] && r.body == Notice("Chat history cleared")
    ensures r.status != OK ==> r.status == ServerError && r.store == store
    ensures r.status != OK ==> r.body == Error("Could not clear chat history")
  {
    match DeleteAll(store, reachable)
    case Success(s) => Outcome(OK, Notice("Chat history cleared"), s)
    case Failure(_) => Outcome(ServerError, Error("Could not clear chat history"), store)
  }

  /** A failed or textless model call is absorbed: the fallback is stored
      and returned with status 200. */
  lemma UpstreamFailureAbsorbed(store: Store, message: string, env: ChatEnv)
    requires message != "" && env.userSaved && env.aiSaved
    requires env.upstream == Threw || env.upstream == NoText
    ensures PostChat(store, Some(message), env)
         == Outcome(OK, Reply(Fallback), store + [UserRecord(message, env), Message(Ai, Fallback, env.aiAt)])
  {
  }

  /** The model's outcome decides the reply text but never the status or the
      user record: replacing a non-empty reply by a failure changes only the
      AI record's text. */
  lemma UpstreamDoesNotDecideStatus(store: Store, message: Option<string>, env: ChatEnv)
    requires ReplyText(env.upstream) != ""
    ensures var a, b := PostChat(store, message, env), PostChat(store, message, env.(upstream := Threw));
      && a.status == b.status
      && |a.store| == |b.store|
      && a.store[..Min(|a.store|, |store| + 1)] == b.store[..Min(|b.store|, |store| + 1)]
      && (|a.store| == |store| + 2 ==>
            a.store[|store| + 1].role == b.store[|store| + 1].role
            && a.store[|store| + 1].createdAt == b.store[|store| + 1].createdAt)
  {
  }

  /** A model reply whose text is the empty string passes the
      `response.text` guard, so the AI record has no text, the schema
      refuses it, and the request ends in status 500 with only the user
      record stored. */
  lemma EmptyModelTextFailsTheRequest(store: Store, message: string, env: ChatEnv)
    requires message != "" && env.userSaved && env.upstream == Generated("")
    ensures PostChat(store, Some(message), env)
         == Outcome(ServerError, Error("Something went wrong"), store + [UserRecord(message, env)])
  {
  }

  /** Every handler keeps the store free of records the schema refuses. */
  lemma HandlersKeepStoreValid(store: Store, message: Option<string>, env: ChatEnv, reachable: bool)
    requires Valid(store)
    ensures Valid(PostChat(store, message, env).store)
    ensures Valid(GetHistory(store, reachable).store)
    ensures Valid(ClearHistory(store, reachable).store)
  {
  }

  /** With a clock that strictly advances, a successful exchange appears in
      the history exactly as stored: everything older, then the user record,
      then the AI record. Any read sorted by creation time gives this order,
      not only the one `Find` picks. */
  lemma ExchangeReadBackInOrder(store: Store, message: string, env: ChatEnv)
    requires StrictlyIncreasing(store)
    requires forall i :: 0 <= i < |store| ==> store[i].createdAt < env.userAt
    requires env.userAt < env.aiAt
    requires PostChat(store, Some(message), env).status == OK
    ensures forall h :: SortedByTime(h) && multiset(h) == multiset(PostChat(store, Some(message), env).store)
                    ==> h == store + [UserRecord(message, env), AiRecord(env)]
    ensures GetHistory(PostChat(store, Some(message), env).store, true).body
         == Messages(store + [UserRecord(message, env), AiRecord(env)])
  {
    var after := PostChat(store, Some(message), env).store;
    assert StrictlyIncreasing(after);
    forall h | SortedByTime(h) && multiset(h) == multiset(after)
      ensures h == after
    {
      SortedPermutationUnique(after, h);
    }
    SortSortedIsIdentity(after);
  }

  /** Clearing succeeds on any reachable store, including an empty one, and
      the history read afterwards is empty. */
  lemma ClearThenHistoryEmpty(store: Store)
    ensures ClearHistory(store, true).status == OK
    ensures ClearHistory([], true).status == OK
    ensures GetHistory(ClearHistory(store, true).store, true).body == Messages([])
  {
  }
}
