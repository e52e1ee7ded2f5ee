/** The decisions the HTTP routes of app.js take over the tables, as functions returning a
    `Reply` instead of writing an HTTP response. What the library call inside a route does
    (send, fetch, download) is an input. */
module Routes {
  import opened Wrappers
  import opened Find
  import opened Types
  import opened Text

  /** What a route answers: `Ok` for a 200 body, one case per rejection the handler sends, and
      `Failed` for the handler's own 500 answer. `Crashed` is an exception escaping a
      synchronous handler, which Express's default error handler answers with a 500. */
  datatype Reply<+T> =
    | Ok(value: T)
    | AlreadyExists
    | NotAvailable
    | InstanceNotFound
    | NotReady
    | ChatNotFound
    | MediaNotFound
    | Failed(error: string)
    | Crashed

  /** `GET /add-device/:instanceId`: rejected, with no state change, exactly when `clients`
      already holds a handle for the ID; otherwise creation starts and the ID is echoed. */
  function AddDevice(clients: map<InstanceId, Handle>, id: InstanceId): (r: Reply<InstanceId>)
    ensures r == AlreadyExists <==> id in clients
    ensures r != AlreadyExists ==> r == Ok(id)
  {
    if id in clients then AlreadyExists else Ok(id)
  }

  /** `GET /get-qr/:instanceId`: the pending QR URL when there is a non-empty one (the handler
      tests JavaScript truthiness), NotAvailable otherwise; an unknown instance and one with no
      pending QR get the same answer. */
  function GetQr(qrCodes: map<InstanceId, string>, id: InstanceId): (r: Reply<string>)
    ensures r.Ok? <==> id in qrCodes && qrCodes[id] != ""
    ensures r.Ok? ==> r.value == qrCodes[id]
    ensures !r.Ok? ==> r == NotAvailable
  {
    if id in qrCodes && qrCodes[id] != "" then Ok(qrCodes[id]) else NotAvailable
  }

  /** The address suffix of a contact on the chat network. */
  const ContactSuffix: string := "@c.us"

  /** The recipient normalisation of `/send-message`: a number that already contains the suffix
      anywhere is kept, any other gets the suffix appended. The result always contains it. */
  function NormaliseNumber(number: string): (r: string)
    ensures Contains(r, ContactSuffix)
    ensures Contains(number, ContactSuffix) ==> r == number
    ensures !Contains(number, ContactSuffix) ==> r == number + ContactSuffix
  {
    if Contains(number, ContactSuffix) then number
    else ContainsOwnSuffix(number, ContactSuffix); number + ContactSuffix
  }

  /** Normalising twice is normalising once. */
  lemma NormaliseIdempotent(number: string)
    ensures NormaliseNumber(NormaliseNumber(number)) == NormaliseNumber(number)
  {
  }

  /** A bare number and the same number with the suffix are sent to the same address. */
  lemma BareAndSuffixedAgree(number: string)
    requires !Contains(number, ContactSuffix)
    ensures NormaliseNumber(number + ContactSuffix) == NormaliseNumber(number)
  {
  }

  /** The 200 body of `/send-message`, with `to`, the address the message was handed to. */
  datatype Sent = Sent(to: string, messageId: string, refId: Option<string>)

  /** `GET /send-message/:instanceId?number&message&refId`. `send` is how `sendMessage`
      settled (the sent message's ID, or the error). An unknown instance is rejected before any
      send; an absent `number` makes `number.includes` throw; `refId` is echoed exactly when it
      was given and is not empty. */
  function SendMessage(clients: map<InstanceId, Handle>, id: InstanceId, number: Option<string>,
                       refId: Option<string>, send: Outcome<string>): (r: Reply<Sent>)
    ensures r == InstanceNotFound <==> id !in clients
    ensures r == Crashed <==> id in clients && number.None?
    ensures r.Ok? <==> id in clients && number.Some? && send.Done?
    ensures r.Ok? ==> r.value.to == NormaliseNumber(number.value) && r.value.messageId == send.value
    ensures r.Ok? ==> (r.value.refId.Some? <==> refId.Some? && refId.value != "")
    ensures r.Ok? && r.value.refId.Some? ==> r.value.refId == refId
    ensures r.Failed? <==> id in clients && number.Some? && send.Threw?
    ensures r.Failed? ==> r.error == send.error
  {
    if id !in clients then InstanceNotFound
    else if number.None? then Crashed
    else
      var to := NormaliseNumber(number.value);
      match send
      case Threw(e) => Failed(e)
      case Done(messageId) =>
        Ok(Sent(to, messageId, if refId.Some? && refId.value != "" then refId else None))
  }

  /** The address of `/send-media`: the suffix is appended unconditionally to the number, or
      to "undefined" (JavaScript's rendering of an absent query parameter in a concatenation). */
  function MediaAddress(number: Option<string>): (r: string)
    ensures Contains(r, ContactSuffix)
    ensures r == (if number.Some? then number.value else "undefined") + ContactSuffix
  {
    var prefix := match number
      case None => "undefined"
      case Some(s) => s;
    ContainsOwnSuffix(prefix, ContactSuffix);
    prefix + ContactSuffix
  }

  /** `/send-media` appends the suffix even when the number already carries it, unlike
      `/send-message`, and sends to "undefined@c.us" when `number` is absent. */
  lemma MediaAddressAlwaysAppends(number: string)
    ensures MediaAddress(Some(number)) == number + ContactSuffix
    ensures Contains(number, ContactSuffix) ==> MediaAddress(Some(number)) != NormaliseNumber(number)
    ensures MediaAddress(None) == "undefined@c.us"
  {
  }

  /** The 200 outcome of `/send-media`, with the address and caption handed to `sendMessage`. */
  datatype MediaSent = MediaSent(to: string, caption: string)

  /** `GET /send-media/:instanceId?number&mediaUrl&caption`. `fetch` is how
      `MessageMedia.fromUrl` settled, `send` how `sendMessage` settled; a failure of either is
      the handler's 500, and `sendMessage` is not reached when the fetch fails. */
  function SendMedia(clients: map<InstanceId, Handle>, id: InstanceId, number: Option<string>,
                     caption: Option<string>, fetch: Outcome<Media>, send: Outcome<()>): (r: Reply<MediaSent>)
    ensures r == InstanceNotFound <==> id !in clients
    ensures r.Ok? <==> id in clients && fetch.Done? && send.Done?
    ensures r.Ok? ==> r.value.to == MediaAddress(number)
    ensures r.Ok? ==> r.value.caption == (if caption.Some? then caption.value else "")
    ensures id in clients && fetch.Threw? ==> r == Failed(fetch.error)
    ensures id in clients && fetch.Done? && send.Threw? ==> r == Failed(send.error)
  {
    if id !in clients then InstanceNotFound
    else
      match fetch
      case Threw(e) => Failed(e)
      case Done(_) =>
        match send
        case Threw(e) => Failed(e)
        case Done(_) => Ok(MediaSent(MediaAddress(number), if caption.Some? then caption.value else ""))
  }

  /** The two guards of the reading routes, in their order: a missing handle first, then a
      handle whose `info` is not set yet. */
  datatype Access = Missing | Unready | Usable(client: Handle)

  function Guard(clients: map<InstanceId, Handle>, id: InstanceId): (g: Access)
    ensures g == Missing <==> id !in clients
    ensures g == Unready <==> id in clients && !clients[id].ready
    ensures g.Usable? ==> id in clients && g.client == clients[id] && g.client.ready
  {
    if id !in clients then Missing
    else if !clients[id].ready then Unready
    else Usable(clients[id])
  }

  /** `GET /get-chat-backup/:instanceId`. `chats` is how `getChats` settled. An unknown
      instance is reported before an unready one, and only a ready one lists its chats. */
  function ChatBackup(clients: map<InstanceId, Handle>, id: InstanceId, chats: Outcome<seq<Chat>>): (r: Reply<seq<Chat>>)
    ensures r == InstanceNotFound <==> id !in clients
    ensures r == NotReady <==> Guard(clients, id) == Unready
    ensures r.Ok? <==> Guard(clients, id).Usable? && chats.Done?
    ensures r.Ok? ==> r.value == chats.value
    ensures Guard(clients, id).Usable? && chats.Threw? ==> r == Failed(chats.error)
  {
    match Guard(clients, id)
    case Missing => InstanceNotFound
    case Unready => NotReady
    case Usable(_) =>
      match chats
      case Threw(e) => Failed(e)
      case Done(cs) => Ok(cs)
  }

  /** `GET /get-messages/:instanceId/:userId/:limit`: the `limit` most recent messages of the
      first chat whose user is `userId`, ChatNotFound when no chat has that user. */
  function GetMessages(clients: map<InstanceId, Handle>, id: InstanceId, userId: string, limit: nat,
                       chats: Outcome<seq<Chat>>): (r: Reply<seq<Message>>)
    ensures r == InstanceNotFound <==> id !in clients
    ensures r == NotReady <==> Guard(clients, id) == Unready
    ensures Guard(clients, id).Usable? && chats.Threw? ==> r == Failed(chats.error)
    ensures Guard(clients, id).Usable? && chats.Done? ==>
      forall k :: 0 <= k < |chats.value| && chats.value[k].user == userId &&
                  (forall j :: 0 <= j < k ==> chats.value[j].user != userId) ==>
        && (chats.value[k].fetchError.None? ==> r == Ok(RecentWindow(chats.value[k].history, limit)))
        && (chats.value[k].fetchError.Some? ==> r == Failed(chats.value[k].fetchError.value))
    ensures r == ChatNotFound <==>
      Guard(clients, id).Usable? && chats.Done? && forall j :: 0 <= j < |chats.value| ==> chats.value[j].user != userId
    ensures r.Ok? ==>
      && Guard(clients, id).Usable?
      && chats.Done?
      && exists k :: 0 <= k < |chats.value| && chats.value[k].user == userId &&
           (forall j :: 0 <= j < k ==> chats.value[j].user != userId) &&
           chats.value[k].fetchError.None? && r.value == RecentWindow(chats.value[k].history, limit)
  {
    match Guard(clients, id)
    case Missing => InstanceNotFound
    case Unready => NotReady
    case Usable(_) =>
      match chats
      case Threw(e) => Failed(e)
      case Done(cs) =>
        match First(cs, (c: Chat) => c.user == userId)
        case None => ChatNotFound
        case Some(k) =>
          match cs[k].fetchError
          case Some(e) => Failed(e)
          case None => Ok(RecentWindow(cs[k].history, limit))
  }

  /** `/get-media` looks at this many recent messages of each chat. */
  const MediaScanLimit: nat := 100

  /** The messages `/get-media` looks at in one chat. */
  function Window(c: Chat): (w: seq<Message>)
    ensures |w| == if |c.history| <= MediaScanLimit then |c.history| else MediaScanLimit
    ensures w == c.history[|c.history| - |w|..]
    ensures |c.history| <= MediaScanLimit ==> w == c.history
  {
    RecentWindow(c.history, MediaScanLimit)
  }

  /** The message `/get-media` is looking for. */
  predicate CarriesMedia(m: Message, messageId: string)
    ensures CarriesMedia(m, messageId) ==> m.id == messageId
    ensures !m.hasMedia ==> !CarriesMedia(m, messageId)
    ensures m.id == messageId && m.hasMedia ==> CarriesMedia(m, messageId)
  {
    m.id == messageId && m.hasMedia
  }

  /** A chat the search passes over: its messages were fetched and none in the window matches. */
  ghost predicate Clean(c: Chat, messageId: string)
  {
    c.fetchError.None? && forall k :: 0 <= k < |Window(c)| ==> !CarriesMedia(Window(c)[k], messageId)
  }

  /** Where the search of `/get-media` stops: at the first match (chat, index in its window),
      at the first chat whose fetch throws, or after the last chat. */
  datatype Scan = Hit(chat: nat, index: nat) | Miss | ScanThrew(chat: nat, error: string)

  /** The search of `/get-media` from chat `from` on: chat by chat, and within a chat the
      first matching message of its window. */
  function ScanChats(chats: seq<Chat>, messageId: string, from: nat): (r: Scan)
    requires from <= |chats|
    decreases |chats| - from
    ensures r.Hit? ==> from <= r.chat < |chats| && chats[r.chat].fetchError.None?
    ensures r.Hit? ==> r.index < |Window(chats[r.chat])| && CarriesMedia(Window(chats[r.chat])[r.index], messageId)
    ensures r.Hit? ==> forall k :: 0 <= k < r.index ==> !CarriesMedia(Window(chats[r.chat])[k], messageId)
    ensures r.ScanThrew? ==> from <= r.chat < |chats| && chats[r.chat].fetchError == Some(r.error)
    ensures !r.Miss? ==> forall c :: from <= c < r.chat ==> Clean(chats[c], messageId)
    ensures r.Miss? <==> forall c :: from <= c < |chats| ==> Clean(chats[c], messageId)
  {
    if from == |chats| then Miss
    else
      match chats[from].fetchError
      case Some(e) => ScanThrew(from, e)
      case None =>
        match First(Window(chats[from]), (m: Message) => CarriesMedia(m, messageId))
        case Some(k) => Hit(from, k)
        case None => ScanChats(chats, messageId, from + 1)
  }

  /** The `for` loop of `/get-media` with its `break`, computing the search above. */
  method FindMediaMessage(chats: seq<Chat>, messageId: string) returns (r: Scan)
    ensures r == ScanChats(chats, messageId, 0)
  {
    r := Miss;
    var i := 0;
    while i < |chats|
      invariant 0 <= i <= |chats|
      invariant r == Miss
      invariant ScanChats(chats, messageId, 0) == ScanChats(chats, messageId, i)
    {
      var chat := chats[i];
      if chat.fetchError.Some? {
        return ScanThrew(i, chat.fetchError.value);
      }
      var found := First(Window(chat), (m: Message) => CarriesMedia(m, messageId));
      if found.Some? {
        r := Hit(i, found.value);
        break;
      }
      i := i + 1;
    }
  }

  /** `GET /get-media/:instanceId/:messageId`. Guards as for the other reading routes; then the
      media of the first match, MediaNotFound when nothing matches in the scanned windows, and
      MediaNotFound too when the first match's media is gone (the search has stopped). */
  function GetMedia(clients: map<InstanceId, Handle>, id: InstanceId, messageId: string,
                    chats: Outcome<seq<Chat>>): (r: Reply<Media>)
    ensures r == InstanceNotFound <==> id !in clients
    ensures r == NotReady <==> Guard(clients, id) == Unready
    ensures Guard(clients, id).Usable? && chats.Threw? ==> r == Failed(chats.error)
    ensures Guard(clients, id).Usable? && chats.Done? ==>
      var s := ScanChats(chats.value, messageId, 0);
      && (s.Miss? ==> r == MediaNotFound)
      && (s.ScanThrew? ==> r == Failed(s.error))
      && (s.Hit? ==>
            var d := Window(chats.value[s.chat])[s.index].download;
            && (d.Blob? ==> r == Ok(d.media))
            && (d.Gone? ==> r == MediaNotFound)
            && (d.DownloadError? ==> r == Failed(d.error)))
    ensures r.Ok? ==>
      && Guard(clients, id).Usable?
      && chats.Done?
      && var s := ScanChats(chats.value, messageId, 0);
         s.Hit? && Window(chats.value[s.chat])[s.index].download == Blob(r.value)
  {
    match Guard(clients, id)
    case Missing => InstanceNotFound
    case Unready => NotReady
    case Usable(_) =>
      match chats
      case Threw(e) => Failed(e)
      case Done(cs) =>
        match ScanChats(cs, messageId, 0)
        case Miss => MediaNotFound
        case ScanThrew(_, e) => Failed(e)
        case Hit(c, k) =>
          match Window(cs[c])[k].download
          case Blob(media) => Ok(media)
          case Gone => MediaNotFound
          case DownloadError(e) => Failed(e)
  }

  /** The scan window is not the whole history: a chat whose only match is older than its
      `MediaScanLimit` most recent messages yields MediaNotFound. */
  lemma {:induction false} OlderMediaIsMissed(clients: map<InstanceId, Handle>, id: InstanceId, stale: Message,
                                               recent: seq<Message>, user: string)
    requires Guard(clients, id).Usable?
    requires |recent| >= MediaScanLimit
    requires forall k :: 0 <= k < |recent| ==> !CarriesMedia(recent[k], stale.id)
    ensures CarriesMedia(stale, stale.id) ==>
      GetMedia(clients, id, stale.id, Done([Chat(user, [stale] + recent, None)])) == MediaNotFound
  {
  }
}
