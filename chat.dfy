/**
 * The chat client (chat.js): signing in or registering against the REST
 * endpoints, the socket handlers that keep the message list, the contact
 * list and the presence line, and the send button, which uploads the
 * picked files first and sends one message with the uploads that
 * succeeded. The socket is `connected`; what the client emits on it is
 * the `emitted` log, and the REST calls it starts are the `outbox`.
 */
module Chat {
  import opened Wrappers
  import opened Js
  import opened Text
  import Storage

  /** One uploaded file as the server describes it (`{ url, name, mime }`). */
  datatype Attachment = Attachment(url: Value, name: Value, mime: Value)

  /** An inbound message; `attachments` is `None` when the field is not an array. */
  datatype Message = Message(id: Value, from: Value, text: Value, attachments: Option<seq<Attachment>>, status: Value)

  /** A link under a bubble. */
  datatype Link = Link(href: Value, text: string)

  /** One rendered message: `data-id`, the "me"/"them" class, the body, the links and the status text. */
  datatype Bubble = Bubble(id: string, me: bool, body: string, links: seq<Link>, status: string)

  /** The text of the presence line. */
  datatype Presence =
    | Offline                     // the page's initial text
    | Online                      // "Online"
    | OnlineCount(count: nat)     // "Online: " + count
    | Typing(username: string)    // username + " is typing..."

  /** What the client emits on the socket; every room is "global". */
  datatype Emit =
    | TypingFlag(isTyping: bool)
    | Delivered(messageId: Value)
    | SendMessage(text: string, attachments: seq<Attachment>)

  datatype Request =
    | LoginRequest(username: string, password: string)     // POST /api/login
    | RegisterRequest(username: string, password: string)  // POST /api/register
    | LoadMessages                                         // GET /api/messages
    | Upload                                               // POST /api/upload, one per picked file

  datatype Notice =
    | EnterCredentials        // "Enter username and password"
    | Refused(text: string)   // data.message, or "Login failed" / "Register failed"
    | AuthError(kind: AuthKind)  // "Login error" / "Register error"
    | RealtimeUnavailable     // "Realtime unavailable"
    | NotConnected            // "Not connected"

  datatype AuthKind = SignIn | SignUp

  /** The reply to a login or register call: `None` when `fetch` or `res.json()` threw. */
  datatype AuthReply = AuthReply(success: Value, message: Value, token: Value)

  /** The reply to one upload; `None` when it threw. A `null` body reads as a failed upload. */
  datatype UploadReply = UploadReply(success: Value, url: Value, originalName: Value, mime: Value)

  // ----------------------------------------------------------- rendering

  /** The text a DOM property set to `v` holds: `null` becomes empty, anything else `String(v)`. */
  function DomText(v: Value): (r: string)
    ensures v == Null ==> r == ""
    ensures v != Null ==> r == ToStr(v)
  {
    if v == Null then "" else ToStr(v)
  }

  /** `m.from === currentUser`, where a signed-out page's `currentUser` is `null`. */
  predicate IsMine(from: Value, currentUser: Option<string>) {
    from == (if currentUser.Some? then Str(currentUser.value) else Null)
  }

  function LinkOf(a: Attachment): Link {
    Link(a.url, ToStr(Or(a.name, Str("attachment"))))
  }

  /** `appendMessage`: the bubble for one message. */
  function BubbleOf(m: Message, currentUser: Option<string>): (b: Bubble)
    ensures b.me <==> IsMine(m.from, currentUser)
    ensures b.id == ToStr(Or(m.id, Str(""))) && b.body == ToStr(Or(m.text, Str("")))
    ensures m.attachments.None? ==> b.links == []
    ensures m.attachments.Some? ==> |b.links| == |m.attachments.value|
    ensures b.status == ToStr(Or(m.status, Str("")))
  {
    var links := if m.attachments.Some? then seq(|m.attachments.value|, i requires 0 <= i < |m.attachments.value| => LinkOf(m.attachments.value[i])) else [];
    Bubble(ToStr(Or(m.id, Str(""))), IsMine(m.from, currentUser), ToStr(Or(m.text, Str(""))), links, ToStr(Or(m.status, Str(""))))
  }

  /** `list.forEach(appendMessage)` */
  function Bubbles(list: seq<Message>, currentUser: Option<string>): (r: seq<Bubble>)
    ensures |r| == |list|
    ensures forall i :: 0 <= i < |list| ==> r[i] == BubbleOf(list[i], currentUser)
  {
    seq(|list|, i requires 0 <= i < |list| => BubbleOf(list[i], currentUser))
  }

  /** `document.querySelector('[data-id="<id>"] .status')`: the first bubble with that id. */
  function FirstWithId(bubbles: seq<Bubble>, id: string): (r: Option<nat>)
    ensures r.Some? ==> r.value < |bubbles| && bubbles[r.value].id == id
    ensures r.Some? ==> forall j :: 0 <= j < r.value ==> bubbles[j].id != id
    ensures r.None? <==> forall j :: 0 <= j < |bubbles| ==> bubbles[j].id != id
  {
    if bubbles == [] then None
    else if bubbles[0].id == id then Some(0)
    else match FirstWithId(bubbles[1..], id)
      case None => None
      case Some(k) => Some(k + 1)
  }

  /** The `status` handler's effect on the list: the status text of the first bubble with the id. */
  function WithStatus(bubbles: seq<Bubble>, id: Value, status: Value): (r: seq<Bubble>)
    ensures |r| == |bubbles|
    ensures FirstWithId(bubbles, ToStr(id)).None? ==> r == bubbles
    ensures forall j :: 0 <= j < |r| ==> r[j].id == bubbles[j].id && r[j].me == bubbles[j].me && r[j].body == bubbles[j].body && r[j].links == bubbles[j].links
    ensures forall j :: 0 <= j < |r| && r[j] != bubbles[j] ==> FirstWithId(bubbles, ToStr(id)) == Some(j)
    ensures FirstWithId(bubbles, ToStr(id)).Some? ==> r[FirstWithId(bubbles, ToStr(id)).value].status == DomText(status)
  {
    match FirstWithId(bubbles, ToStr(id))
    case None => bubbles
    case Some(k) => bubbles[k := bubbles[k].(status := DomText(status))]
  }

  /** A status for a bubble's own id reaches that bubble when no earlier bubble shares the id. */
  lemma StatusFindsBubble(bubbles: seq<Bubble>, k: nat, status: Value)
    requires k < |bubbles| && forall j :: 0 <= j < k ==> bubbles[j].id != bubbles[k].id
    ensures WithStatus(bubbles, Str(bubbles[k].id), status) == bubbles[k := bubbles[k].(status := DomText(status))]
  {
    assert ToStr(Str(bubbles[k].id)) == bubbles[k].id;
  }

  // ------------------------------------------------------------- sending

  /** The successful uploads, in the order the files were picked. */
  function Uploaded(replies: seq<Option<UploadReply>>): seq<Attachment>
    decreases |replies|
  {
    if replies == [] then []
    else
      var n := |replies| - 1;
      var r := replies[n];
      Uploaded(replies[..n]) + (if r.Some? && Truthy(r.value.success) then [Attachment(r.value.url, r.value.originalName, r.value.mime)] else [])
  }

  /** A failed upload is skipped without affecting the uploads before or after it. */
  lemma {:induction false} FailedUploadSkipped(before: seq<Option<UploadReply>>, failed: Option<UploadReply>, after: seq<Option<UploadReply>>)
    requires failed.None? || !Truthy(failed.value.success)
    ensures Uploaded(before + [failed] + after) == Uploaded(before) + Uploaded(after)
    decreases |after|
  {
    if after == [] {
      assert (before + [failed] + after)[..|before|] == before;
    } else {
      var n := |after| - 1;
      var all := before + [failed] + after;
      assert all[..|all| - 1] == before + [failed] + after[..n];
      FailedUploadSkipped(before, failed, after[..n]);
    }
  }

  /** Each successful upload becomes one attachment. */
  lemma {:induction false} UploadedCount(replies: seq<Option<UploadReply>>)
    ensures |Uploaded(replies)| <= |replies|
    ensures (forall i :: 0 <= i < |replies| ==> replies[i].Some? && Truthy(replies[i].value.success)) ==> |Uploaded(replies)| == |replies|
    decreases |replies|
  {
    if replies != [] {
      var n := |replies| - 1;
      UploadedCount(replies[..n]);
    }
  }

  /** The upload loop of `sendMessage`: a failed or throwing upload is skipped, not fatal. */
  method CollectAttachments(replies: seq<Option<UploadReply>>) returns (attachments: seq<Attachment>)
    ensures attachments == Uploaded(replies)
  {
    attachments := [];
    var i := 0;
    while i < |replies|
      invariant 0 <= i <= |replies|
      invariant attachments == Uploaded(replies[..i])
    {
      assert replies[..i + 1][..i] == replies[..i];
      var reply := replies[i];
      if reply.Some? && Truthy(reply.value.success) {
        attachments := attachments + [Attachment(reply.value.url, reply.value.originalName, reply.value.mime)];
      }
      i := i + 1;
    }
    assert replies[..i] == replies;
  }

  /** `text || (attachments.length ? '[attachment]' : '')` with the trimmed input. */
  function OutgoingText(input: string, attachments: seq<Attachment>): (r: string)
    ensures Trim(input) != "" ==> r == Trim(input)
    ensures Trim(input) == "" && attachments != [] ==> r == "[attachment]"
    ensures Trim(input) == "" && attachments == [] ==> r == ""
  {
    var text := Trim(input);
    if text != "" then text else if attachments != [] then "[attachment]" else ""
  }

  /** The text sent is empty exactly when the input is blank and nothing was uploaded. */
  lemma OutgoingTextEmpty(input: string, attachments: seq<Attachment>)
    ensures OutgoingText(input, attachments) == "" <==> (forall k :: 0 <= k < |input| ==> IsSpace(input[k])) && attachments == []
  {
    TrimEmptyIff(input);
  }

  /** The alert text of a refused sign-in or registration: the server's `message`, or a fallback per form. */
  function RefusalReason(kind: AuthKind, message: Value): (r: string)
    ensures Truthy(message) ==> r == ToStr(message)
    ensures !Truthy(message) ==> r == (if kind == SignIn then "Login failed" else "Register failed")
  {
    ToStr(Or(message, Str(if kind == SignIn then "Login failed" else "Register failed")))
  }

  // -------------------------------------------------------------- the page

  class Client {
    var store: Storage.Store
    var token: Value
    var currentUser: Option<string>
    /** `socket !== null` */
    var connected: bool
    var bubbles: seq<Bubble>
    var contacts: seq<string>
    var presence: Presence
    var messageInput: string
    var emitted: seq<Emit>
    var outbox: seq<Request>

    /**
     * The page script: the stored token and user (`|| null`), and an
     * automatic connection when both are present; `socketAvailable` is
     * whether `io(...)` succeeds.
     */
    constructor(store: Storage.Store, socketAvailable: bool)
      ensures this.store == store && bubbles == [] && contacts == [] && presence == Offline && messageInput == "" && emitted == []
      ensures token == (if "token" in store && store["token"] != "" then Str(store["token"]) else Null)
      ensures currentUser == (if "user" in store && store["user"] != "" then Some(store["user"]) else None)
      ensures connected <==> Truthy(token) && currentUser.Some? && socketAvailable
      ensures outbox == (if connected then [LoadMessages] else [])
    {
      var savedToken := if "token" in store && store["token"] != "" then Str(store["token"]) else Null;
      var savedUser := if "user" in store && store["user"] != "" then Some(store["user"]) else None;
      this.store := store;
      token := savedToken;
      currentUser := savedUser;
      connected := false;
      bubbles := [];
      contacts := [];
      presence := Offline;
      messageInput := "";
      emitted := [];
      outbox := [];
      if Truthy(savedToken) && savedUser.Some? && socketAvailable {
        connected := true;
        outbox := [LoadMessages];
      }
    }

    /** `connectSocket`: a new socket and the history request, or an alert when `io` throws. */
    method Connect(socketAvailable: bool) returns (alert: Option<Notice>)
      modifies this
      ensures socketAvailable ==> connected && alert == None && outbox == old(outbox) + [LoadMessages]
      ensures !socketAvailable ==> connected == old(connected) && alert == Some(RealtimeUnavailable) && outbox == old(outbox)
      ensures store == old(store) && token == old(token) && currentUser == old(currentUser) && bubbles == old(bubbles)
      ensures contacts == old(contacts) && presence == old(presence) && messageInput == old(messageInput) && emitted == old(emitted)
    {
      if !socketAvailable {
        return Some(RealtimeUnavailable);
      }
      connected := true;
      outbox := outbox + [LoadMessages];
      alert := None;
    }

    /**
     * `login` and `register`: a trimmed user name and an untrimmed password
     * are required before any request; a successful reply stores the
     * session and connects.
     */
    method Authenticate(kind: AuthKind, usernameInput: string, password: string, reply: Option<AuthReply>, socketAvailable: bool) returns (alert: Option<Notice>)
      modifies this
      ensures Trim(usernameInput) == "" || password == "" ==> alert == Some(EnterCredentials) && outbox == old(outbox)
      ensures Trim(usernameInput) == "" || password == "" || reply.None? || !Truthy(reply.value.success) ==>
        store == old(store) && token == old(token) && currentUser == old(currentUser) && connected == old(connected)
      ensures Trim(usernameInput) != "" && password != "" ==>
        |outbox| > |old(outbox)| && outbox[..|old(outbox)| + 1] == old(outbox) + [AuthRequest(kind, Trim(usernameInput), password)]
      ensures Trim(usernameInput) != "" && password != "" && reply.None? ==>
        alert == Some(AuthError(kind)) && outbox == old(outbox) + [AuthRequest(kind, Trim(usernameInput), password)]
      ensures Trim(usernameInput) != "" && password != "" && reply.Some? && !Truthy(reply.value.success) ==>
        alert == Some(Refused(RefusalReason(kind, reply.value.message))) &&
        outbox == old(outbox) + [AuthRequest(kind, Trim(usernameInput), password)]
      ensures Trim(usernameInput) != "" && password != "" && reply.Some? && Truthy(reply.value.success) ==>
        && token == reply.value.token && currentUser == Some(Trim(usernameInput))
        && store == Storage.SetItem(Storage.SetItem(old(store), "token", ToStr(reply.value.token)), "user", Trim(usernameInput))
        && (socketAvailable ==> connected && alert == None && outbox == old(outbox) + [AuthRequest(kind, Trim(usernameInput), password), LoadMessages])
        && (!socketAvailable ==> connected == old(connected) && alert == Some(RealtimeUnavailable) && outbox == old(outbox) + [AuthRequest(kind, Trim(usernameInput), password)])
      ensures bubbles == old(bubbles) && contacts == old(contacts) && presence == old(presence) && messageInput == old(messageInput) && emitted == old(emitted)
    {
      var username := Trim(usernameInput);
      if username == "" || password == "" {
        return Some(EnterCredentials);
      }
      ghost var before := outbox;
      outbox := outbox + [AuthRequest(kind, username, password)];
      if reply.None? {
        return Some(AuthError(kind));
      }
      if !Truthy(reply.value.success) {
        return Some(Refused(RefusalReason(kind, reply.value.message)));
      }
      token := reply.value.token;
      currentUser := Some(username);
      store := Storage.SetItem(store, "token", ToStr(token));
      store := Storage.SetItem(store, "user", username);
      alert := Connect(socketAvailable);
      assert outbox[..|before| + 1] == before + [AuthRequest(kind, username, password)];
    }

    /** The `input` handler: with a socket, emit whether the box holds any text. */
    method OnInput(value: string)
      modifies this
      ensures messageInput == value
      ensures connected ==> emitted == old(emitted) + [TypingFlag(|value| > 0)]
      ensures !connected ==> emitted == old(emitted)
      ensures store == old(store) && token == old(token) && currentUser == old(currentUser) && connected == old(connected)
      ensures bubbles == old(bubbles) && contacts == old(contacts) && presence == old(presence) && outbox == old(outbox)
    {
      messageInput := value;
      if connected {
        emitted := emitted + [TypingFlag(|value| > 0)];
      }
    }

    /** The `presence` event: the contact list replaced, in order, and its size on the presence line. */
    method OnPresence(list: seq<string>)
      modifies this
      ensures contacts == list && presence == OnlineCount(|list|)
      ensures store == old(store) && token == old(token) && currentUser == old(currentUser) && connected == old(connected)
      ensures bubbles == old(bubbles) && messageInput == old(messageInput) && emitted == old(emitted) && outbox == old(outbox)
    {
      contacts := list;
      presence := OnlineCount(|list|);
    }

    /** The `message` event: one bubble at the end, and a `delivered` acknowledgement with the message's id. */
    method OnMessage(m: Message)
      modifies this
      ensures bubbles == old(bubbles) + [BubbleOf(m, currentUser)]
      ensures emitted == old(emitted) + [Delivered(m.id)]
      ensures store == old(store) && token == old(token) && currentUser == old(currentUser) && connected == old(connected)
      ensures contacts == old(contacts) && presence == old(presence) && messageInput == old(messageInput) && outbox == old(outbox)
    {
      bubbles := bubbles + [BubbleOf(m, currentUser)];
      emitted := emitted + [Delivered(m.id)];
    }

    /** The `typing` event. */
    method OnTyping(username: Value, isTyping: Value)
      modifies this
      ensures presence == (if Truthy(isTyping) then Typing(ToStr(username)) else Online)
      ensures store == old(store) && token == old(token) && currentUser == old(currentUser) && connected == old(connected)
      ensures bubbles == old(bubbles) && contacts == old(contacts) && messageInput == old(messageInput) && emitted == old(emitted) && outbox == old(outbox)
    {
      presence := if Truthy(isTyping) then Typing(ToStr(username)) else Online;
    }

    /** The typing indicator's reset, 2.5 seconds after a `typing` event that said so. */
    method TypingTimerFired()
      modifies this
      ensures presence == Online
      ensures store == old(store) && token == old(token) && currentUser == old(currentUser) && connected == old(connected)
      ensures bubbles == old(bubbles) && contacts == old(contacts) && messageInput == old(messageInput) && emitted == old(emitted) && outbox == old(outbox)
    {
      presence := Online;
    }

    /** The `status` event: only the first bubble with the id changes, and only its status. */
    method OnStatus(id: Value, status: Value)
      modifies this
      ensures bubbles == WithStatus(old(bubbles), id, status)
      ensures store == old(store) && token == old(token) && currentUser == old(currentUser) && connected == old(connected)
      ensures contacts == old(contacts) && presence == old(presence) && messageInput == old(messageInput) && emitted == old(emitted) && outbox == old(outbox)
    {
      bubbles := WithStatus(bubbles, id, status);
    }

    /** The history reply: appended in order when it is an array, ignored otherwise. */
    method OnHistory(list: Option<seq<Message>>)
      modifies this
      ensures list.Some? ==> bubbles == old(bubbles) + Bubbles(list.value, currentUser)
      ensures list.None? ==> bubbles == old(bubbles)
      ensures store == old(store) && token == old(token) && currentUser == old(currentUser) && connected == old(connected)
      ensures contacts == old(contacts) && presence == old(presence) && messageInput == old(messageInput) && emitted == old(emitted) && outbox == old(outbox)
    {
      if list.Some? {
        bubbles := bubbles + Bubbles(list.value, currentUser);
      }
    }

    /**
     * `sendMessage`: each picked file is uploaded in turn (`uploads` holds
     * their replies), then one message with the trimmed text and the
     * successful uploads is emitted and the box is cleared.
     */
    method Send(uploads: seq<Option<UploadReply>>) returns (alert: Option<Notice>)
      modifies this
      ensures !connected ==> alert == Some(NotConnected) && emitted == old(emitted) && outbox == old(outbox) && messageInput == old(messageInput)
      ensures connected ==> alert == None && messageInput == ""
      ensures connected ==> outbox == old(outbox) + seq(|uploads|, _ => Upload)
      ensures connected ==> emitted == old(emitted) + [SendMessage(OutgoingText(old(messageInput), Uploaded(uploads)), Uploaded(uploads))]
      ensures store == old(store) && token == old(token) && currentUser == old(currentUser) && connected == old(connected)
      ensures bubbles == old(bubbles) && contacts == old(contacts) && presence == old(presence)
    {
      if !connected {
        return Some(NotConnected);
      }
      var attachments := CollectAttachments(uploads);
      outbox := outbox + seq(|uploads|, _ => Upload);
      emitted := emitted + [SendMessage(OutgoingText(messageInput, attachments), attachments)];
      messageInput := "";
      alert := None;
    }
  }

  function AuthRequest(kind: AuthKind, username: string, password: string): Request {
    match kind
    case SignIn => LoginRequest(username, password)
    case SignUp => RegisterRequest(username, password)
  }

  /** Messages render in arrival order: a live message lands after the bubbles already shown. */
  lemma ArrivalOrder(history: seq<Message>, live: Message, currentUser: Option<string>)
    ensures Bubbles(history, currentUser) + [BubbleOf(live, currentUser)] == Bubbles(history + [live], currentUser)
  {
  }
}
