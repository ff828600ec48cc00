/** The conversation / message store behind the `/api/conversations` routes
    (`server/routes/chat.ts`): a list of conversations, each with its own per-user unread
    counters, and one list of messages for all of them. */
module Chat {
  import opened Common

  datatype Participant = Participant(userId: string, userName: string, userAvatar: string, userType: UserType)
  datatype MessageType = Text | Image | File
  datatype Attachment = Attachment(url: string, name: string, mimeType: string, size: nat)
  datatype MessageStatus = Sent | Delivered | Read

  datatype ChatMessage = ChatMessage(
    id: string,
    conversationId: string,
    senderId: string,
    content: string,
    kind: MessageType,
    attachments: Option<seq<Attachment>>,
    status: MessageStatus,
    createdAt: Timestamp,
    updatedAt: Timestamp)

  datatype Conversation = Conversation(
    id: string,
    participants: seq<Participant>,
    projectId: Option<string>,
    projectTitle: Option<string>,
    lastMessage: Option<ChatMessage>,
    unreadCount: map<string, int>,
    createdAt: Timestamp,
    updatedAt: Timestamp)

  /** `{ conversations, total }` */
  datatype ConversationList = ConversationList(conversations: seq<Conversation>, total: nat)

  /** `{ messages, total, page, totalPages }`; `totalPages` is `None` where `Math.ceil`
      gives `Infinity` or `NaN` (a zero `limit`), which JSON sends as `null`. */
  datatype MessagePage = MessagePage(messages: seq<ChatMessage>, total: nat, page: int, totalPages: Option<int>)

  predicate IsParticipant(c: Conversation, userId: string) {
    exists k :: 0 <= k < |c.participants| && c.participants[k].userId == userId
  }

  function ParticipatesIn(userId: string): Conversation -> bool {
    (c: Conversation) => IsParticipant(c, userId)
  }

  /** The access check of get, get-messages, send and mark-as-read. */
  function Accessible(id: string, userId: string): Conversation -> bool {
    (c: Conversation) => c.id == id && IsParticipant(c, userId)
  }

  /** The de-duplication test of create: a two-person conversation of both users about
      the same project (an absent project matches an absent project). */
  function SamePair(userId: string, participantId: string, projectId: Option<string>): Conversation -> bool {
    (c: Conversation) =>
      |c.participants| == 2 && IsParticipant(c, userId) && IsParticipant(c, participantId) && c.projectId == projectId
  }

  function InConversation(id: string): ChatMessage -> bool {
    (m: ChatMessage) => m.conversationId == id
  }

  function MessageIn(id: string, messageId: string): ChatMessage -> bool {
    (m: ChatMessage) => m.id == messageId && m.conversationId == id
  }

  function SentBy(id: string, messageId: string, userId: string): ChatMessage -> bool {
    (m: ChatMessage) => m.id == messageId && m.conversationId == id && m.senderId == userId
  }

  function HasUserId(userId: string): Participant -> bool {
    (p: Participant) => p.userId == userId
  }

  /** The conversation created when no matching one exists. */
  function NewConversation(userId: string, participantId: string, projectId: Option<string>,
                           projectTitle: Option<string>, freshId: string, now: Timestamp): (c: Conversation)
    ensures c.id == freshId && c.projectId == projectId && c.projectTitle == projectTitle && c.lastMessage.None?
    ensures |c.participants| == 2 && c.participants[0].userId == userId && c.participants[1].userId == participantId
    ensures c.participants[0].userType == Client && c.participants[1].userType == Professional
    ensures c.participants[0].userName == "Current User" && c.participants[1].userName == "Other User"
    ensures c.participants[0].userAvatar == "/placeholder.svg" && c.participants[1].userAvatar == "/placeholder.svg"
    ensures c.unreadCount.Keys == {userId, participantId} && c.unreadCount[userId] == 0 && c.unreadCount[participantId] == 0
    ensures c.createdAt == now && c.updatedAt == now
  {
    Conversation(
      freshId,
      [Participant(userId, "Current User", "/placeholder.svg", Client),
       Participant(participantId, "Other User", "/placeholder.svg", Professional)],
      projectId, projectTitle, None,
      map[userId := 0, participantId := 0],
      now, now)
  }

  /** A newly created conversation matches its own de-duplication test, so asking again
      with the same users and project finds it and adds nothing. */
  lemma CreateConversationDeduplicates(cs: seq<Conversation>, userId: string, participantId: string,
                                       projectId: Option<string>, projectTitle: Option<string>, freshId: string, now: Timestamp)
    requires FindIndex(cs, SamePair(userId, participantId, projectId)).None?
    ensures var c := NewConversation(userId, participantId, projectId, projectTitle, freshId, now);
      && FindIndex(cs + [c], SamePair(userId, participantId, projectId)) == Some(|cs|)
      && c.unreadCount.Keys == {userId, participantId}
      && c.unreadCount[userId] == 0 && c.unreadCount[participantId] == 0
  {
    var c := NewConversation(userId, participantId, projectId, projectTitle, freshId, now);
    assert c.participants[0].userId == userId && c.participants[1].userId == participantId;
    FindIndexAppend(cs, c, SamePair(userId, participantId, projectId));
  }

  /** The position of the message `sort((a, b) => b.createdAt - a.createdAt)[0]` picks:
      a latest one, and among equally late ones the first, since the sort is stable. */
  function LatestIndex(ms: seq<ChatMessage>): (r: Option<nat>)
    ensures r.None? <==> ms == []
    ensures r.Some? ==> r.value < |ms|
    ensures r.Some? ==> forall j :: 0 <= j < |ms| ==> ms[j].createdAt <= ms[r.value].createdAt
    ensures r.Some? ==> forall j :: 0 <= j < r.value ==> ms[j].createdAt < ms[r.value].createdAt
    decreases |ms|
  {
    if ms == [] then None
    else
      match LatestIndex(ms[1..])
      case None => Some(0)
      case Some(k) => if ms[0].createdAt >= ms[k + 1].createdAt then Some(0) else Some(k + 1)
  }

  /** The conversation as the listing returns it, with `lastMessage` filled in. */
  function WithLastMessage(c: Conversation, ms: seq<ChatMessage>): (r: Conversation)
    ensures r == c.(lastMessage := r.lastMessage)
    ensures r.lastMessage.None? <==> forall m :: m in ms ==> m.conversationId != c.id
    ensures r.lastMessage.Some? ==> r.lastMessage.value in ms && r.lastMessage.value.conversationId == c.id
    ensures r.lastMessage.Some? ==>
      forall m :: m in ms && m.conversationId == c.id ==> m.createdAt <= r.lastMessage.value.createdAt
  {
    var mine := Filter(ms, InConversation(c.id));
    match LatestIndex(mine)
    case None => c.(lastMessage := None)
    case Some(i) => c.(lastMessage := Some(mine[i]))
  }

  /** On equal times the last message is the first of the latest ones, as the stable
      descending sort puts it at position 0: it stands at position `k` of the
      conversation's messages, and every message before it is strictly older. */
  lemma LastMessageIsFirstLatest(c: Conversation, ms: seq<ChatMessage>) returns (k: nat)
    ensures var mine := Filter(ms, InConversation(c.id)); var r := WithLastMessage(c, ms); r.lastMessage.Some? ==> k < |mine| && mine[k] == r.lastMessage.value && forall j :: 0 <= j < k ==> mine[j].createdAt < mine[k].createdAt
  {
    var mine := Filter(ms, InConversation(c.id));
    k := if LatestIndex(mine).Some? then LatestIndex(mine).value else 0;
  }

  predicate SortedByTime(ms: seq<ChatMessage>) {
    forall i, j :: 0 <= i < j < |ms| ==> ms[i].createdAt <= ms[j].createdAt
  }

  /** One step of the stable ascending sort: `m` goes before the first later message. */
  function Insert(m: ChatMessage, ms: seq<ChatMessage>): (r: seq<ChatMessage>)
    requires SortedByTime(ms)
    ensures SortedByTime(r)
    ensures multiset(r) == multiset(ms) + multiset{m}
    ensures |r| == |ms| + 1
    ensures r[0] == m || (ms != [] && r[0] == ms[0])
    decreases |ms|
  {
    if ms == [] then [m]
    else if m.createdAt <= ms[0].createdAt then SortedCons(m, ms); [m] + ms
    else
      assert ms == [ms[0]] + ms[1..];
      var rest := Insert(m, ms[1..]);
      SortedCons(ms[0], rest);
      assert multiset([ms[0]] + rest) == multiset{ms[0]} + multiset(rest);
      [ms[0]] + rest
  }

  /** A message no later than the head of a sorted sequence can go in front of it. */
  lemma SortedCons(x: ChatMessage, rest: seq<ChatMessage>)
    requires SortedByTime(rest)
    requires rest != [] ==> x.createdAt <= rest[0].createdAt
    ensures SortedByTime([x] + rest)
  {
    var r := [x] + rest;
    forall i, j | 0 <= i < j < |r|
      ensures r[i].createdAt <= r[j].createdAt
    {
      if i > 0 {
        assert r[i] == rest[i - 1] && r[j] == rest[j - 1];
      } else {
        assert r[j] == rest[j - 1] && rest[0].createdAt <= rest[j - 1].createdAt;
      }
    }
  }

  /** `sort((a, b) => a.createdAt - b.createdAt)` (stable, ascending). */
  function SortByTime(ms: seq<ChatMessage>): (r: seq<ChatMessage>)
    ensures SortedByTime(r)
    ensures multiset(r) == multiset(ms)
    decreases |ms|
  {
    if ms == [] then []
    else
      assert ms == [ms[0]] + ms[1..];
      Insert(ms[0], SortByTime(ms[1..]))
  }

  /** The messages of conversation `id`, oldest first. */
  function ConversationMessages(ms: seq<ChatMessage>, id: string): (r: seq<ChatMessage>)
    ensures SortedByTime(r)
    ensures forall m :: multiset(r)[m] == if m.conversationId == id then multiset(ms)[m] else 0
    ensures |r| == |Filter(ms, InConversation(id))|
  {
    var mine := Filter(ms, InConversation(id));
    assert |multiset(mine)| == |mine|;
    SortByTime(mine)
  }

  /** `Math.ceil(n / d)` for a non-zero divisor. */
  function CeilDiv(n: nat, d: int): (r: int)
    requires d != 0
    ensures d > 0 ==> r >= 0 && (r - 1) * d < n <= r * d
    ensures d < 0 ==> r * d <= n < (r - 1) * d
  {
    if d > 0 then (n + d - 1) / d else -(n / -d)
  }

  /** The page `slice(start, start + limit)` with `start = (page - 1) * limit`. */
  function PageOf(all: seq<ChatMessage>, page: int, limit: int): (r: seq<ChatMessage>)
    ensures |r| <= |all|
    ensures limit == 0 ==> r == []
  {
    var start := (page - 1) * limit;
    JsSlice(all, start, start + limit)
  }

  /** `Array.prototype.slice`: negative positions count from the end, and both ends are
      clamped to the sequence. */
  function JsSlice<T>(s: seq<T>, start: int, end: int): (r: seq<T>)
    ensures |r| <= |s|
    ensures 0 <= start <= end ==>
      r == s[if start < |s| then start else |s| .. if end < |s| then end else |s|]
    ensures 0 <= |s| + start && start <= end < 0 ==> r == s[|s| + start .. |s| + end]
    ensures |s| + start < 0 && 0 <= end ==> r == s[..if end < |s| then end else |s|]
    ensures start >= end && (start < 0 <==> end < 0) ==> r == []
    ensures start >= |s| ==> r == []
  {
    var a := SliceIndex(start, |s|);
    var b := SliceIndex(end, |s|);
    if a < b then s[a..b] else []
  }

  /** `slice` with ends of opposite signs: the negative end counts from the end of the
      sequence, the other is clamped, and crossed ends give nothing. */
  lemma JsSliceMixedSigns<T>(s: seq<T>, start: int, end: int)
    ensures 0 <= start && end < 0 ==> JsSlice(s, start, end) == (if start < |s| + end then s[start..|s| + end] else [])
    ensures start < 0 <= |s| + start && 0 <= end ==> (var b := if end < |s| then end else |s|; JsSlice(s, start, end) == if |s| + start < b then s[|s| + start..b] else [])
  {
  }

  /** `slice` with both ends negative and the start before the beginning: the start is
      clamped to 0 and the end counts from the end of the sequence. */
  lemma JsSliceClampedStart<T>(s: seq<T>, start: int, end: int)
    ensures |s| + start < 0 && start < end < 0 ==> JsSlice(s, start, end) == (if 0 < |s| + end then s[..|s| + end] else [])
  {
  }

  /** A relative position of `slice`: from the end when negative, then clamped to `0..len`. */
  function SliceIndex(i: int, len: nat): (r: nat)
    ensures r <= len
    ensures 0 <= i <= len ==> r == i
    ensures i > len ==> r == len
    ensures i < 0 && 0 <= len + i ==> r == len + i
    ensures len + i < 0 ==> r == 0
  {
    if i < 0 then (if len + i < 0 then 0 else len + i)
    else if i > len then len
    else i
  }

  /** For a page number and a limit of at least 1, the page is the run of at most `limit`
      messages starting at position `(page - 1) * limit`. */
  lemma PageOfSegment(all: seq<ChatMessage>, page: int, limit: int)
    requires page >= 1 && limit >= 1
    ensures var lo := (page - 1) * limit;
      && |PageOf(all, page, limit)| <= limit
      && PageOf(all, page, limit) == all[if lo < |all| then lo else |all| .. if lo + limit < |all| then lo + limit else |all|]
  {
    MulMonotone(0, page - 1, limit);
  }

  /** The pages 1 to `count`, one after the other. */
  function PagesUpTo(all: seq<ChatMessage>, limit: int, count: nat): seq<ChatMessage> {
    if count == 0 then [] else PagesUpTo(all, limit, count - 1) + PageOf(all, count, limit)
  }

  /** Pages 1 to `count` of a positive `limit` hold the first `count * limit` messages. */
  lemma {:induction false} PagesUpToPrefix(all: seq<ChatMessage>, limit: int, count: nat)
    requires limit >= 1
    ensures PagesUpTo(all, limit, count) == all[..if count * limit < |all| then count * limit else |all|]
  {
    if count > 0 {
      PagesUpToPrefix(all, limit, count - 1);
      var lo := (count - 1) * limit;
      assert lo + limit == count * limit;
      var a := if lo < |all| then lo else |all|;
      var b := if count * limit < |all| then count * limit else |all|;
      assert PageOf(all, count, limit) == all[a..b];
      assert all[..a] + all[a..b] == all[..b];
    }
  }

  /** Reading pages 1 to `totalPages` with a positive `limit` returns every message of
      the conversation exactly once, in order, and every later page is empty. */
  lemma PagesCoverAll(all: seq<ChatMessage>, limit: int, page: int)
    requires limit >= 1
    ensures PagesUpTo(all, limit, if |all| == 0 then 0 else CeilDiv(|all|, limit)) == all
    ensures page > CeilDiv(|all|, limit) ==> PageOf(all, page, limit) == []
  {
    var n := CeilDiv(|all|, limit);
    PagesUpToPrefix(all, limit, n);
    assert all[..|all|] == all;
    if page > n {
      MulMonotone(n, page - 1, limit);
    }
  }

  lemma MulMonotone(a: int, b: int, c: int)
    requires a <= b && c >= 0
    ensures a * c <= b * c
  {
    assert b * c - a * c == (b - a) * c;
  }

  /** The unread counter of a user: `unreadCount[userId] || 0`. */
  function Unread(counts: map<string, int>, userId: string): int {
    if userId in counts then counts[userId] else 0
  }

  /** The `forEach` of send over the participants, in their order: every participant
      other than the sender gets one more unread message, once per time it is listed. */
  function BumpOthers(counts: map<string, int>, ps: seq<Participant>, sender: string): (r: map<string, int>)
    ensures counts.Keys <= r.Keys
    decreases |ps|
  {
    if ps == [] then counts
    else
      var u := ps[0].userId;
      BumpOthers(if u != sender then counts[u := Unread(counts, u) + 1] else counts, ps[1..], sender)
  }

  /** The number of times `userId` is listed among the participants. */
  function Listed(ps: seq<Participant>, userId: string): nat {
    |Filter(ps, HasUserId(userId))|
  }

  /** After a send, every user other than the sender has one more unread message per time
      the user is listed as a participant. */
  lemma {:induction false} BumpOthersCounts(counts: map<string, int>, ps: seq<Participant>, sender: string, u: string)
    requires u != sender
    ensures Unread(BumpOthers(counts, ps, sender), u) == Unread(counts, u) + Listed(ps, u)
    decreases |ps|
  {
    if ps != [] {
      var v := ps[0].userId;
      var next := if v != sender then counts[v := Unread(counts, v) + 1] else counts;
      BumpOthersCounts(next, ps[1..], sender, u);
      assert Listed(ps, u) == Listed(ps[1..], u) + if v == u then 1 else 0;
    }
  }

  /** A send leaves the counter of the sender, and of anybody not listed, as it was
      (present with the same value, or absent). */
  lemma {:induction false} BumpOthersKeeps(counts: map<string, int>, ps: seq<Participant>, sender: string, u: string)
    requires u == sender || Listed(ps, u) == 0
    ensures var r := BumpOthers(counts, ps, sender);
      (u in r <==> u in counts) && (u in counts ==> r[u] == counts[u])
    decreases |ps|
  {
    if ps != [] {
      var v := ps[0].userId;
      var next := if v != sender then counts[v := Unread(counts, v) + 1] else counts;
      assert Listed(ps, u) == Listed(ps[1..], u) + if v == u then 1 else 0;
      BumpOthersKeeps(next, ps[1..], sender, u);
    }
  }

  /** With distinct participant ids, a send adds exactly one to every other participant's
      counter. */
  lemma SendBumpsEachOtherOnce(counts: map<string, int>, ps: seq<Participant>, sender: string, k: nat)
    requires k < |ps| && ps[k].userId != sender
    requires forall i, j :: 0 <= i < j < |ps| ==> ps[i].userId != ps[j].userId
    ensures Unread(BumpOthers(counts, ps, sender), ps[k].userId) == Unread(counts, ps[k].userId) + 1
  {
    var u := ps[k].userId;
    FilterSingle(ps, HasUserId(u), k);
    BumpOthersCounts(counts, ps, sender, u);
  }

  /** One message after mark-as-read of conversation `id` by `reader`: a message of that
      conversation from anybody else that is not yet read becomes read, stamped `now`. */
  function ReadBy(m: ChatMessage, id: string, reader: string, now: Timestamp): (r: ChatMessage)
    ensures m.conversationId == id && m.senderId != reader ==> r.status == Read
    ensures r.(status := m.status, updatedAt := m.updatedAt) == m
    ensures r.status != m.status ==> r.updatedAt == now
    ensures m.conversationId != id || m.senderId == reader ==> r == m
    ensures r.status == m.status ==> r == m
  {
    if m.conversationId == id && m.senderId != reader && m.status != Read
    then m.(status := Read, updatedAt := now) else m
  }

  /** The messages after mark-as-read, each one as `ReadBy` says. */
  function MarkRead(ms: seq<ChatMessage>, id: string, reader: string, now: Timestamp): (r: seq<ChatMessage>)
    ensures |r| == |ms|
    ensures forall k :: 0 <= k < |ms| ==> r[k] == ReadBy(ms[k], id, reader, now)
    decreases |ms|
  {
    if ms == [] then []
    else [ReadBy(ms[0], id, reader, now)] + MarkRead(ms[1..], id, reader, now)
  }

  /** Mark-as-read leaves every message of the conversation from another sender read,
      touches none of the reader's own messages or other conversations' messages, and a
      second call changes nothing, whatever its time. */
  lemma MarkReadEffect(ms: seq<ChatMessage>, id: string, reader: string, now: Timestamp, later: Timestamp)
    ensures var r := MarkRead(ms, id, reader, now);
      && (forall k :: 0 <= k < |ms| && ms[k].conversationId == id && ms[k].senderId != reader ==> r[k].status == Read)
      && (forall k :: 0 <= k < |ms| && (ms[k].conversationId != id || ms[k].senderId == reader) ==> r[k] == ms[k])
      && MarkRead(r, id, reader, later) == r
  {
    var r := MarkRead(ms, id, reader, now);
    var r2 := MarkRead(r, id, reader, later);
    assert forall k :: 0 <= k < |r| ==> r2[k] == r[k];
  }

  class ChatStore {
    var conversations: seq<Conversation>
    var messages: seq<ChatMessage>

    /** The module-level `conversations` and `messages` arrays, from the given seed. */
    constructor (initialConversations: seq<Conversation>, initialMessages: seq<ChatMessage>)
      ensures conversations == initialConversations && messages == initialMessages
    {
      conversations := initialConversations;
      messages := initialMessages;
    }

    /** `GET /api/conversations`: the caller's conversations, each with its latest message. */
    function GetConversations(caller: string): (r: ConversationList)
      reads this
      ensures r.total == |r.conversations| == |Filter(conversations, ParticipatesIn(caller))|
      ensures forall k :: 0 <= k < |r.conversations| ==>
        var c := Filter(conversations, ParticipatesIn(caller))[k];
        && c in conversations && IsParticipant(c, caller)
        && r.conversations[k] == WithLastMessage(c, messages)
    {
      var mine := Filter(conversations, ParticipatesIn(caller));
      var ms := messages;
      var listed := seq(|mine|, k requires 0 <= k < |mine| => WithLastMessage(mine[k], ms));
      ConversationList(listed, |listed|)
    }

    /** `GET /api/conversations/:id` */
    function GetConversation(id: string, caller: string): (r: Response<Conversation>)
      reads this
      ensures r.Ok? ==> r.value.id == id && IsParticipant(r.value, caller)
      ensures r.Ok? ==> exists k :: 0 <= k < |conversations| && conversations[k] == r.value && (forall j :: 0 <= j < k ==> !Accessible(id, caller)(conversations[j]))
      ensures r.NotFound? <==> forall k :: 0 <= k < |conversations| ==> !Accessible(id, caller)(conversations[k])
      ensures !r.Ok? ==> r == NotFound("Conversation not found")
    {
      match FindIndex(conversations, Accessible(id, caller))
      case None => NotFound("Conversation not found")
      case Some(i) => Ok(conversations[i])
    }

    /** `GET /api/conversations/:id/messages?page&limit`: an absent `page` is 1 and an
        absent `limit` is 50. A zero limit gives no page count (`Math.ceil` of an
        infinite or undefined quotient, sent as `null`). */
    function GetMessages(id: string, caller: string, page: Option<int>, limit: Option<int>): (r: Response<MessagePage>)
      reads this
      ensures r.NotFound? <==> forall k :: 0 <= k < |conversations| ==> !Accessible(id, caller)(conversations[k])
      ensures !r.Ok? ==> r == NotFound("Conversation not found")
      ensures r.Ok? ==>
        var (p, l) := (page.GetOr(1), limit.GetOr(50));
        var all := ConversationMessages(messages, id);
        && r.value.total == |Filter(messages, InConversation(id))|
        && r.value.page == p
        && r.value.messages == PageOf(all, p, l)
        && (l == 0 <==> r.value.totalPages.None?)
        && (l != 0 ==> r.value.totalPages == Some(CeilDiv(|all|, l)))
      ensures r.Ok? && page.None? && limit.None? ==>
        && r.value.page == 1 && r.value.messages == PageOf(ConversationMessages(messages, id), 1, 50)
        && |r.value.messages| <= 50
    {
      match FindIndex(conversations, Accessible(id, caller))
      case None => NotFound("Conversation not found")
      case Some(_) =>
        var (p, l) := (page.GetOr(1), limit.GetOr(50));
        var all := ConversationMessages(messages, id);
        var totalPages := if l == 0 then None else Some(CeilDiv(|all|, l));
        Ok(MessagePage(PageOf(all, p, l), |all|, p, totalPages))
    }

    /** `POST /api/conversations`: returns the conversation and whether it was created. */
    method CreateConversation(caller: string, participantId: string, projectId: Option<string>,
                              projectTitle: Option<string>, freshId: string, now: Timestamp)
      returns (conv: Conversation, created: bool)
      modifies this
      ensures messages == old(messages)
      ensures match FindIndex(old(conversations), SamePair(caller, participantId, projectId))
        case Some(i) => !created && conv == old(conversations)[i] && conversations == old(conversations)
        case None =>
          && created
          && conv == NewConversation(caller, participantId, projectId, projectTitle, freshId, now)
          && conversations == old(conversations) + [conv]
    {
      var existing := FindIndex(conversations, SamePair(caller, participantId, projectId));
      if existing.Some? {
        return conversations[existing.value], false;
      }
      conv := NewConversation(caller, participantId, projectId, projectTitle, freshId, now);
      conversations := conversations + [conv];
      created := true;
    }

    /** `POST /api/conversations/:id/messages` */
    method SendMessage(id: string, caller: string, content: string, kind: Option<MessageType>,
                       attachments: Option<seq<Attachment>>, freshId: string, now: Timestamp)
      returns (res: Response<ChatMessage>)
      modifies this
      ensures |conversations| == |old(conversations)|
      ensures match FindIndex(old(conversations), Accessible(id, caller))
        case None => res == NotFound("Conversation not found") && unchanged(this)
        case Some(i) =>
          var msg := ChatMessage(freshId, id, caller, content, kind.GetOr(Text), attachments, Sent, now, now);
          var c := old(conversations)[i];
          && res == Ok(msg)
          && messages == old(messages) + [msg]
          && conversations == old(conversations)[i := c.(updatedAt := now,
                                                         unreadCount := BumpOthers(c.unreadCount, c.participants, caller))]
    {
      var found := FindIndex(conversations, Accessible(id, caller));
      if found.None? {
        return NotFound("Conversation not found");
      }
      var i := found.value;
      var msg := ChatMessage(freshId, id, caller, content, kind.GetOr(Text), attachments, Sent, now, now);
      messages := messages + [msg];
      var c := conversations[i];
      var counts := c.unreadCount;
      var k := 0;
      while k < |c.participants|
        invariant 0 <= k <= |c.participants|
        invariant BumpOthers(counts, c.participants[k..], caller) == BumpOthers(c.unreadCount, c.participants, caller)
      {
        assert c.participants[k..][1..] == c.participants[k + 1..];
        var u := c.participants[k].userId;
        if u != caller {
          counts := counts[u := Unread(counts, u) + 1];
        }
        k := k + 1;
      }
      conversations := conversations[i := c.(updatedAt := now, unreadCount := counts)];
      res := Ok(msg);
    }

    /** `PUT /api/conversations/:id/messages/:messageId`: no access check. */
    method UpdateMessage(id: string, messageId: string, status: MessageStatus, now: Timestamp)
      returns (res: Response<ChatMessage>)
      modifies this
      ensures conversations == old(conversations) && |messages| == |old(messages)|
      ensures match FindIndex(old(messages), MessageIn(id, messageId))
        case None => res == NotFound("Message not found") && messages == old(messages)
        case Some(k) =>
          && messages == old(messages)[k := old(messages)[k].(status := status, updatedAt := now)]
          && res == Ok(messages[k])
    {
      var found := FindIndex(messages, MessageIn(id, messageId));
      if found.None? {
        return NotFound("Message not found");
      }
      var k := found.value;
      messages := messages[k := messages[k].(status := status, updatedAt := now)];
      res := Ok(messages[k]);
    }

    /** `PUT /api/conversations/:id/read` */
    method MarkAsRead(id: string, caller: string, now: Timestamp) returns (res: Response<string>)
      modifies this
      ensures |conversations| == |old(conversations)|
      ensures match FindIndex(old(conversations), Accessible(id, caller))
        case None => res == NotFound("Conversation not found") && unchanged(this)
        case Some(i) =>
          var c := old(conversations)[i];
          && res == Ok("Conversation marked as read")
          && conversations == old(conversations)[i := c.(unreadCount := c.unreadCount[caller := 0])]
          && messages == MarkRead(old(messages), id, caller, now)
    {
      var found := FindIndex(conversations, Accessible(id, caller));
      if found.None? {
        return NotFound("Conversation not found");
      }
      var i := found.value;
      var c := conversations[i];
      conversations := conversations[i := c.(unreadCount := c.unreadCount[caller := 0])];
      ghost var before := messages;
      ghost var marked := conversations;
      var k := 0;
      while k < |messages|
        invariant 0 <= k <= |messages| == |before|
        invariant conversations == marked
        invariant forall j :: 0 <= j < k ==> messages[j] == ReadBy(before[j], id, caller, now)
        invariant forall j :: k <= j < |messages| ==> messages[j] == before[j]
      {
        var m := messages[k];
        if m.conversationId == id && m.senderId != caller && m.status != Read {
          messages := messages[k := m.(status := Read, updatedAt := now)];
        }
        k := k + 1;
      }
      assert messages == MarkRead(before, id, caller, now);
      res := Ok("Conversation marked as read");
    }

    /** `DELETE /api/conversations/:id/messages/:messageId`: only the sender's own message. */
    method DeleteMessage(id: string, messageId: string, caller: string) returns (res: Response<string>)
      modifies this
      ensures conversations == old(conversations)
      ensures match FindIndex(old(messages), SentBy(id, messageId, caller))
        case None => res == NotFound("Message not found") && messages == old(messages)
        case Some(k) =>
          && res == Ok("Message deleted successfully")
          && messages == old(messages)[..k] + old(messages)[k + 1..]
          && |messages| == |old(messages)| - 1
          && multiset(messages) == multiset(old(messages)) - multiset{old(messages)[k]}
    {
      var found := FindIndex(messages, SentBy(id, messageId, caller));
      if found.None? {
        return NotFound("Message not found");
      }
      var k := found.value;
      RemoveAtMultiset(messages, k);
      messages := RemoveAt(messages, k);
      res := Ok("Message deleted successfully");
    }
  }
}
