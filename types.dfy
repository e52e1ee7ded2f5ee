/** Values shared by the session bookkeeping of app.js: instance IDs, client handles, the
    status strings of the `sessions` table, and the chat data whatsapp-web.js hands back. */
module Types {
  import opened Wrappers
  import Text

  /** A caller-chosen instance ID, the key of every table. */
  type InstanceId = string

  /** The two values app.js writes into the `session` column of the `sessions` table. */
  const StatusAuthenticated: string := "Authenticated"
  const StatusInactive: string := "Inactive"

  /** Every row of the table holds one of the two statuses app.js writes. */
  ghost predicate StatusesKnown(sessions: map<InstanceId, string>)
  {
    forall id :: id in sessions ==> sessions[id] == StatusAuthenticated || sessions[id] == StatusInactive
  }

  /** An awaited library call: it resolves with a value or throws. */
  datatype Outcome<+T> = Done(value: T) | Threw(error: string)

  /** An opaque stand-in for a whatsapp-web.js `Client` object. `serial` stands for the
      object's identity; `ready` stands for `client.info`, which the library fills in once
      the client is ready (app.js only ever reads it). */
  datatype Handle = Handle(serial: nat, clientId: InstanceId, dataPath: string, ready: bool)

  /** The directory under which `LocalAuth` keeps each instance's credentials. */
  const AuthRoot: string := "./wwebjs_auth/"

  /** `new Client({authStrategy: new LocalAuth({clientId, dataPath})})` for one instance. */
  function NewClient(id: InstanceId, serial: nat): (h: Handle)
    ensures h.serial == serial && h.clientId == id && !h.ready
    ensures AuthRoot <= h.dataPath && h.dataPath[|AuthRoot|..] == id
  {
    Handle(serial, id, AuthRoot + id, false)
  }

  /** Each instance gets credential storage of its own: distinct IDs never share a data path,
      so re-creating a client for the same ID resumes that ID's earlier login. */
  lemma DataPathsIsolated(id1: InstanceId, id2: InstanceId, serial1: nat, serial2: nat)
    ensures NewClient(id1, serial1).clientId == id1
    ensures NewClient(id1, serial1).dataPath == NewClient(id2, serial2).dataPath <==> id1 == id2
  {
    if NewClient(id1, serial1).dataPath == NewClient(id2, serial2).dataPath {
      Text.PrefixCancels(AuthRoot, id1, id2);
    }
  }

  /** Media as `downloadMedia` resolves it. */
  datatype Media = Media(mimetype: string, data: string)

  /** What `message.downloadMedia()` does: resolve with media, resolve with nothing
      (the media is no longer available), or throw. */
  datatype Download = Blob(media: Media) | Gone | DownloadError(error: string)

  /** A chat message; `id` stands for `m.id.id`. */
  datatype Message = Message(id: string, hasMedia: bool, download: Download)

  /** A chat; `user` stands for `c.id.user`, `history` is its messages oldest first, and
      `fetchError` is set when `chat.fetchMessages` throws for it. */
  datatype Chat = Chat(user: string, history: seq<Message>, fetchError: Option<string>)

  /** `chat.fetchMessages({limit})`: the `limit` most recent messages, oldest first. */
  function RecentWindow(history: seq<Message>, limit: nat): (w: seq<Message>)
    ensures |w| == if |history| <= limit then |history| else limit
    ensures w == history[|history| - |w|..]
  {
    if |history| <= limit then history else history[|history| - limit..]
  }
}
