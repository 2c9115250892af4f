/**
 * Vocabulary shared by the three script-style servers (`src/server/main.py`,
 * `src/server-go/main.go`, `src/server-js/main.js`): the request envelope, the
 * stored records, what is published on user and channel topics, the replies,
 * and the request counter that triggers the (simulated) Berkeley sync.
 */
module Chat {
  import opened Base

  /** Requests between two clock-sync rounds. */
  const SyncInterval: nat := 10

  /** Python's `not x` and JavaScript's `!x` on a string field that may be missing. */
  predicate Blank(v: Option<string>) {
    v == None || v == Some("")
  }

  /**
   * `message_counter += 1; if message_counter >= 10 and <armed>: message_counter = 0`,
   * where `armed` is "a coordinator is known".
   */
  function CountRequest(counter: nat, armed: bool): (c: nat)
    ensures armed ==> c < SyncInterval
    ensures !armed ==> c == counter + 1
    ensures c == 0 || c == counter + 1
    ensures c == 0 <==> armed && counter + 1 >= SyncInterval
  {
    if counter + 1 >= SyncInterval && armed then 0 else counter + 1
  }

  /** The `data` fields a client may send; `None` is a missing key (or a null). */
  datatype Request = Request(
    service: string,
    user: Option<string>,
    channel: Option<string>,
    message: Option<string>,
    src: Option<string>,
    dst: Option<string>,
    clock: Option<int>)

  /** An integer field read with a default of 0 (`data.get("clock", 0)`, `data.clock || 0`). */
  function OrZero(v: Option<int>): (c: int)
    ensures v.Some? ==> c == v.value
    ensures v.None? ==> c == 0
  {
    if v.Some? then v.value else 0
  }

  datatype Login = Login(user: string)
  datatype Publication = Publication(user: Option<string>, channel: string, message: Option<string>)
  datatype DirectMessage = DirectMessage(src: Option<string>, dst: string, message: Option<string>)

  /** An envelope published on a channel's topic or on a user's topic, with the clock it carries. */
  datatype Delivery =
    | ChannelPost(topic: string, post: Publication, clock: nat)
    | UserPost(topic: string, note: DirectMessage, clock: nat)

  /**
   * A message received on the "servers" or "replication" topic: an election
   * announcement or another server's full user and channel lists.
   */
  datatype TopicMessage = TopicMessage(
    service: string,
    coordinator: Option<string>,
    server: Option<string>,
    users: seq<string>,
    channels: seq<string>,
    clock: Option<int>)

  datatype Reply =
    | StatusReply(service: string, status: string, description: string, clock: nat)
    | NamesReply(service: string, names: seq<string>, clock: nat)

  const NoUserName := "Nome de usuário não fornecido"
  const UserTaken := "Usuário já existe"
  const NoChannelName := "Nome de canal não fornecido"
  const ChannelTaken := "Canal já existe"
  const NoSuchChannel := "Canal não existe"
  const NoSuchUser := "Usuário não existe"
  const UnknownService := "Serviço não reconhecido"
}
