/**
 * The customer-shop chat page: the message log, the cache of sender
 * records and the set of shop team members already announced, the handlers
 * that change them, and the pure rules for showing each message.
 */
module ShopChat {

  import opened Wrappers
  import opened Roles
  import opened Text
  import opened Seqs

  /** `ChatMessageType`: a message from the system or from a person. */
  datatype SenderType = SystemSender | PersonSender

  /** A chat message; `senderId` is `null` for some system messages. */
  datatype Message = Message(id: int, chatId: int, senderId: Option<int>, senderType: SenderType, message: string)

  /** A frame from the push channel, already parsed; `senderRole` is the role in `senderInfo`, when present. */
  datatype PushEvent = PushEvent(kind: string, chatId: int, message: Option<Message>, senderRole: Option<Role>)

  /** What `getUserInfo` yields: a user record, or the stand-in used when the request fails. */
  datatype SenderInfo = Known(user: User) | Placeholder

  /** The role `getUserInfo`'s answer carries; the stand-in is a plain user. */
  function RoleOf(info: SenderInfo): Role
  {
    match info
    case Known(u) => u.role
    case Placeholder => USER
  }

  /** A sender id JavaScript treats as true: present and not zero. */
  predicate Truthy(id: Option<int>)
  {
    id.Some? && id.value != 0
  }

  /**
   * What `getUserInfo` finds for an id it does not take from the cache: the
   * signed-in user's own record, else the server's answer, else the stand-in.
   * `fetched` holds the answers the server would give.
   */
  function Fetch(current: Option<User>, userId: int, fetched: map<int, User>): (info: SenderInfo)
    ensures current.Some? && current.value.id == userId ==> info == Known(current.value)
    ensures !(current.Some? && current.value.id == userId) ==>
      (info.Known? <==> userId in fetched) && (info.Known? ==> info.user == fetched[userId])
  {
    if current.Some? && userId == current.value.id then Known(current.value)
    else if userId in fetched then Known(fetched[userId])
    else Placeholder
  }

  /**
   * `setUserCache(prev => ({ ...prev, [userId]: ... }))` with what `Fetch`
   * found: the entry for `userId` is written over, whatever it held, and the
   * stand-in is not stored.
   */
  function Store(cache: map<int, User>, current: Option<User>, userId: int, fetched: map<int, User>)
    : (r: map<int, User>)
    ensures forall k :: k in cache && k != userId ==> k in r && r[k] == cache[k]
    ensures forall k :: k in r ==> k in cache || k == userId
    ensures Fetch(current, userId, fetched).Known? ==> userId in r && r[userId] == Fetch(current, userId, fetched).user
    ensures Fetch(current, userId, fetched).Placeholder? ==> r == cache
  {
    match Fetch(current, userId, fetched)
    case Known(u) => cache[userId := u]
    case Placeholder => cache
  }

  /**
   * The cache after `getUserInfo(userId)`: a cached id stays as it is, the
   * signed-in user's own id caches that user, an id the server answers for
   * caches the answer, and a failed request leaves the cache alone.
   */
  function CacheAfter(cache: map<int, User>, current: Option<User>, userId: int, fetched: map<int, User>)
    : (r: map<int, User>)
    ensures forall k :: k in cache ==> k in r && r[k] == cache[k]
    ensures userId in r <==> userId in cache || (current.Some? && current.value.id == userId) || userId in fetched
    ensures forall k :: k in r ==> k in cache || k == userId
    ensures userId !in cache && current.Some? && current.value.id == userId ==> r[userId] == current.value
    ensures userId !in cache && !(current.Some? && current.value.id == userId) && userId in fetched ==>
      r[userId] == fetched[userId]
  {
    if userId in cache then cache else Store(cache, current, userId, fetched)
  }

  /** What `getUserInfo(userId)` returns: the record it leaves in the cache, or the stand-in when it caches none. */
  function Lookup(cache: map<int, User>, current: Option<User>, userId: int, fetched: map<int, User>)
    : (info: SenderInfo)
    ensures info.Known? <==> userId in CacheAfter(cache, current, userId, fetched)
    ensures info.Known? ==> CacheAfter(cache, current, userId, fetched)[userId] == info.user
    ensures info.Placeholder? ==> CacheAfter(cache, current, userId, fetched) == cache
    ensures userId in cache ==> info == Known(cache[userId])
    ensures userId !in cache && current.Some? && current.value.id == userId ==> info == Known(current.value)
    ensures userId !in cache && !(current.Some? && current.value.id == userId) && userId in fetched ==>
      info == Known(fetched[userId])
  {
    if userId in cache then Known(cache[userId]) else Fetch(current, userId, fetched)
  }

  /**
   * The push handler tests the cache as it was when the socket opened. For
   * a sender missing from that snapshot it stores what `Fetch` finds, which
   * agrees with `getUserInfo` on the live cache when the sender is still
   * uncached, and writes over the record when the sender was cached since.
   */
  lemma StoreOverLiveCache(cache: map<int, User>, current: Option<User>, userId: int, fetched: map<int, User>)
    ensures userId !in cache ==> Store(cache, current, userId, fetched) == CacheAfter(cache, current, userId, fetched)
    ensures userId in cache && userId in fetched && !(current.Some? && current.value.id == userId) ==>
      Store(cache, current, userId, fetched)[userId] == fetched[userId] &&
      CacheAfter(cache, current, userId, fetched)[userId] == cache[userId]
  {
  }

  /** The sender id of each message, in order. */
  function Senders(messages: seq<Message>): (r: seq<Option<int>>)
    ensures |r| == |messages| && forall i :: 0 <= i < |messages| ==> r[i] == messages[i].senderId
  {
    if messages == [] then [] else [messages[0].senderId] + Senders(messages[1..])
  }

  /** `messages.map(msg => msg.senderId).filter(id => id !== 0 && id !== null)`. */
  function PersonIds(messages: seq<Message>): (r: seq<int>)
    ensures forall i :: 0 <= i < |r| ==> r[i] != 0 && Some(r[i]) in Senders(messages)
    ensures forall i :: 0 <= i < |messages| && Truthy(messages[i].senderId) ==> messages[i].senderId.value in r
  {
    if messages == [] then []
    else
      var rest := PersonIds(messages[1..]);
      assert forall i :: 1 <= i < |messages| ==> messages[i] == messages[1..][i - 1];
      assert Senders(messages) == [messages[0].senderId] + Senders(messages[1..]);
      if Truthy(messages[0].senderId) then [messages[0].senderId.value] + rest else rest
  }

  /** `Array.from(new Set(...))`: the ids of the people who wrote, each once, in order of first message. */
  function SenderIds(messages: seq<Message>): seq<int>
  {
    Dedup(PersonIds(messages))
  }

  /** The two pieces of state `loadUserInfo` changes. */
  datatype Loaded = Loaded(cache: map<int, User>, staff: set<Option<int>>)

  /** One round of `loadUserInfo`'s loop, for one sender id. */
  function LoadStep(s: Loaded, current: Option<User>, id: int, fetched: map<int, User>, messages: seq<Message>)
    : (r: Loaded)
  {
    if id == 0 || id in s.cache then s
    else
      var info := Lookup(s.cache, current, id, fetched);
      var cache := CacheAfter(s.cache, current, id, fetched);
      if IsShopRole(RoleOf(info)) && Some(id) !in s.staff && FirstIndex(Senders(messages), Some(id)) >= 0
      then Loaded(cache, s.staff + {Some(id)})
      else Loaded(cache, s.staff)
  }

  /** The loop over the ids, in order. */
  function LoadAll(s: Loaded, current: Option<User>, ids: seq<int>, fetched: map<int, User>, messages: seq<Message>)
    : (r: Loaded)
  {
    if ids == [] then s
    else LoadStep(LoadAll(s, current, ids[..|ids| - 1], fetched, messages), current, ids[|ids| - 1], fetched, messages)
  }

  /**
   * `loadUserInfo` only adds: cached records stay, only listed ids join the
   * cache, the announced set only grows, and every newly announced member
   * is a person who wrote in the chat and whose now cached record carries a
   * shop role.
   */
  lemma {:induction false} LoadAllGrows(s: Loaded, current: Option<User>, ids: seq<int>, fetched: map<int, User>,
                                         messages: seq<Message>)
    ensures forall k :: k in s.cache ==> (k in LoadAll(s, current, ids, fetched, messages).cache &&
      LoadAll(s, current, ids, fetched, messages).cache[k] == s.cache[k])
    ensures forall k :: k in LoadAll(s, current, ids, fetched, messages).cache ==> k in s.cache || k in ids
    ensures s.staff <= LoadAll(s, current, ids, fetched, messages).staff
    ensures forall x :: x in LoadAll(s, current, ids, fetched, messages).staff && x !in s.staff ==>
      x.Some? && x in Senders(messages) && x.value in LoadAll(s, current, ids, fetched, messages).cache &&
      IsShopRole(LoadAll(s, current, ids, fetched, messages).cache[x.value].role)
  {
    if ids != [] {
      LoadAllGrows(s, current, ids[..|ids| - 1], fetched, messages);
      var before := LoadAll(s, current, ids[..|ids| - 1], fetched, messages);
      var id := ids[|ids| - 1];
      assert LoadAll(s, current, ids, fetched, messages) == LoadStep(before, current, id, fetched, messages);
      if id != 0 && id !in before.cache {
        var info := Lookup(before.cache, current, id, fetched);
        if IsShopRole(RoleOf(info)) && Some(id) !in before.staff && FirstIndex(Senders(messages), Some(id)) >= 0 {
          assert info.Known?;
        }
      }
    }
  }

  /**
   * The other half: a listed id that was not cached before the loop, whose
   * looked-up record carries a shop role and who wrote in the chat, is
   * announced, provided no id is listed twice.
   */
  lemma {:induction false} LoadAllAnnounces(s: Loaded, current: Option<User>, ids: seq<int>, fetched: map<int, User>,
                                              messages: seq<Message>, k: nat)
    requires k < |ids| && NoDuplicates(ids) && ids[k] != 0 && ids[k] !in s.cache
    requires IsShopRole(RoleOf(Fetch(current, ids[k], fetched))) && Some(ids[k]) in Senders(messages)
    ensures Some(ids[k]) in LoadAll(s, current, ids, fetched, messages).staff
  {
    var init := ids[..|ids| - 1];
    if k < |ids| - 1 {
      assert init[k] == ids[k];
      LoadAllAnnounces(s, current, init, fetched, messages, k);
    } else {
      LoadAllGrows(s, current, init, fetched, messages);
      assert ids[k] !in init;
    }
  }

  /**
   * After `loadUserInfo` every listed sender whose record is available (it
   * was cached, is the signed-in user, or the server answers for it) is in
   * the cache.
   */
  lemma {:induction false} LoadAllCaches(s: Loaded, current: Option<User>, ids: seq<int>, fetched: map<int, User>,
                                           messages: seq<Message>, k: nat)
    requires k < |ids| && ids[k] != 0
    requires ids[k] in s.cache || (current.Some? && current.value.id == ids[k]) || ids[k] in fetched
    ensures ids[k] in LoadAll(s, current, ids, fetched, messages).cache
  {
    var init := ids[..|ids| - 1];
    LoadAllGrows(s, current, init, fetched, messages);
    if k < |ids| - 1 {
      assert init[k] == ids[k];
      LoadAllCaches(s, current, init, fetched, messages, k);
    }
  }

  /** How one message of the log is shown. */
  datatype Rendered =
    | Spinner                                 // the sender's record is not loaded yet
    | SystemLine(text: string)                // a centred system line
    | Bubble(staffJoinedNotice: bool, mine: bool)

  /**
   * `renderMessage(msg, index)`: the notice that a shop team member joined
   * goes before a message whose index in the log is the index of the
   * sender's first message in the server's list.
   */
  function RenderMessage(msg: Message, index: int, cache: map<int, User>, serverMessages: seq<Message>,
                         current: Option<User>): (r: Rendered)
    ensures r == Spinner <==> Truthy(msg.senderId) && msg.senderId.value !in cache
    ensures r.SystemLine? <==> (!(Truthy(msg.senderId) && msg.senderId.value !in cache) &&
      (msg.senderType == SystemSender || !Truthy(msg.senderId)))
    ensures r.SystemLine? ==> r.text == msg.message
    ensures r.Bubble? ==> Truthy(msg.senderId) && msg.senderId.value in cache
    ensures r.Bubble? ==> (r.staffJoinedNotice <==>
      IsShopRole(cache[msg.senderId.value].role) && FirstIndex(Senders(serverMessages), msg.senderId) == index)
    ensures r.Bubble? ==> (r.mine <==> current.Some? && current.value.id == msg.senderId.value)
  {
    var sender := if Truthy(msg.senderId) && msg.senderId.value in cache then Some(cache[msg.senderId.value]) else None;
    if sender.None? && msg.senderId != Some(0) && msg.senderId != None then Spinner
    else if msg.senderType == SystemSender || msg.senderId == Some(0) || msg.senderId == None then SystemLine(msg.message)
    else
      var joined := IsShopRole(sender.value.role) && FirstIndex(Senders(serverMessages), msg.senderId) == index;
      Bubble(joined, current.Some? && current.value.id == msg.senderId.value)
  }

  /**
   * A message the log gained past the end of the server's list, from the
   * push channel or a send, never carries the joined notice.
   */
  lemma AppendedNeverAnnounced(msg: Message, index: int, cache: map<int, User>, serverMessages: seq<Message>,
                               current: Option<User>)
    requires index >= |serverMessages|
    ensures !(RenderMessage(msg, index, cache, serverMessages, current).Bubble? &&
              RenderMessage(msg, index, cache, serverMessages, current).staffJoinedNotice)
  {
  }

  /**
   * When the log is the server's list, a shop team member is announced
   * before their first message and before no other: at most once.
   */
  lemma AnnouncedAtFirstMessage(log: seq<Message>, cache: map<int, User>, current: Option<User>, i: int)
    requires 0 <= i < |log|
    ensures var r := RenderMessage(log[i], i, cache, log, current);
      r.Bubble? ==> (r.staffJoinedNotice <==>
        IsShopRole(cache[log[i].senderId.value].role) && log[i].senderId !in Senders(log)[..i])
  {
    FirstIndexAt(Senders(log), i);
  }

  /**
   * The notice rule with the search run over the list being rendered, as
   * the notice is evidently meant to work: each shop team member is
   * announced before their first message of the log.
   */
  function RenderInLog(log: seq<Message>, i: int, cache: map<int, User>, current: Option<User>): (r: Rendered)
    requires 0 <= i < |log|
    ensures r.Bubble? ==> Truthy(log[i].senderId) && log[i].senderId.value in cache
    ensures r.Bubble? ==> (r.staffJoinedNotice <==>
      IsShopRole(cache[log[i].senderId.value].role) && log[i].senderId !in Senders(log)[..i])
  {
    AnnouncedAtFirstMessage(log, cache, current, i);
    RenderMessage(log[i], i, cache, log, current)
  }

  /**
   * A shop team member whose first message arrives over the push channel,
   * before the server's list holds it, is not announced as written; over
   * the rendered log the notice appears.
   */
  lemma LiveJoinUnannounced(staff: User, viewer: User, m: Message)
    requires IsShopRole(staff.role) && staff.id != 0 && viewer.id != staff.id
    requires m.senderId == Some(staff.id) && m.senderType == PersonSender
    ensures RenderMessage(m, 0, map[staff.id := staff], [], Some(viewer)) == Bubble(false, false)
    ensures RenderInLog([m], 0, map[staff.id := staff], Some(viewer)) == Bubble(true, false)
  {
    assert Senders([m])[..0] == [];
  }

  /** `getRoleDisplayName`: anything but the owner and the manager reads as shop staff. */
  function RoleDisplayName(role: string): (r: string)
    ensures role != Name(SHOP_OWNER) && role != Name(SHOP_MAIN) ==> r == "Сотрудник магазина"
  {
    if role == "SHOP_OWNER" then "Владелец магазина"
    else if role == "SHOP_MAIN" then "Управляющий магазина"
    else if role == "SHOP_STAFF" then "Сотрудник магазина"
    else "Сотрудник магазина"
  }

  /** The three shop roles read as three different titles. */
  lemma RoleDisplayNamesDistinct(r1: Role, r2: Role)
    requires IsShopRole(r1) && IsShopRole(r2)
    ensures RoleDisplayName(Name(r1)) == RoleDisplayName(Name(r2)) <==> r1 == r2
  {
  }

  /** A line that `hasChatCreatedMessage` treats as a system message. */
  predicate SystemLike(m: Message)
  {
    m.senderType == SystemSender || !Truthy(m.senderId)
  }

  /** `hasChatCreatedMessage`: some system line of the log says "Чат создан". */
  function HasChatCreated(log: seq<Message>): (r: bool)
    ensures r <==> exists i :: 0 <= i < |log| && SystemLike(log[i]) && Includes(log[i].message, "Чат создан")
  {
    if log == [] then false
    else
      assert forall i :: 1 <= i < |log| ==> log[i] == log[1..][i - 1];
      (SystemLike(log[0]) && Includes(log[0].message, "Чат создан")) || HasChatCreated(log[1..])
  }

  /** The page's own "chat created" line: shown over a non-empty log with no such system line. */
  predicate CreatedBanner(log: seq<Message>)
  {
    !HasChatCreated(log) && |log| > 0
  }

  /** Appending to the log can hide the banner but never bring it back once a creation line is there. */
  lemma CreatedBannerAppend(log: seq<Message>, m: Message)
    ensures HasChatCreated(log + [m]) <==>
      HasChatCreated(log) || (SystemLike(m) && Includes(m.message, "Чат создан"))
    ensures !CreatedBanner(log) && |log| > 0 ==> !CreatedBanner(log + [m])
  {
    var s := log + [m];
    assert forall i :: 0 <= i < |log| ==> s[i] == log[i];
    assert s[|log|] == m;
  }

  /** `hasAccess`: the participant test is or-ed with `true`, so any signed-in user has access. */
  function HasAccess(user: Option<User>, chatOwner: Option<int>): (r: bool)
    ensures r <==> user.Some?
  {
    user.Some? && ((chatOwner.Some? && chatOwner.value == user.value.id) || true)
  }

  /** Both queries run only for a signed-in user and positive chat and shop ids. */
  function QueriesEnabled(user: Option<User>, chatId: int, shopId: int): (r: bool)
    ensures r ==> user.Some? && chatId > 0 && shopId > 0
    ensures user.Some? && chatId > 0 && shopId > 0 ==> r
  {
    user.Some? && chatId > 0 && shopId > 0
  }

  /** What the page shows. */
  datatype ChatView = NoMatch | GoToAuth | Waiting | Denied | Conversation(createdBanner: bool)

  function View(routeMatched: bool, isAuthLoading: bool, user: Option<User>, isChatLoading: bool,
                chatOwner: Option<int>, log: seq<Message>): (v: ChatView)
    ensures v != Denied
    ensures routeMatched && !isAuthLoading && user.None? <==> v == GoToAuth
    ensures v.Conversation? <==> routeMatched && user.Some? && !isAuthLoading && !isChatLoading
  {
    if !routeMatched then NoMatch
    else if !isAuthLoading && user.None? then GoToAuth
    else if isAuthLoading || isChatLoading then Waiting
    else if !HasAccess(user, chatOwner) then Denied
    else Conversation(CreatedBanner(log))
  }

  /** The page's state for one chat. */
  class ChatPage {
    const chatId: int
    const shopId: int
    const currentUser: Option<User>
    var localMessages: seq<Message>
    var userCache: map<int, User>
    var staffJoined: set<Option<int>>
    var input: string
    /** The cache as the push channel's handler sees it: the one in place when the socket opened. */
    var socketCache: map<int, User>

    constructor (chatId: int, shopId: int, currentUser: Option<User>)
      ensures this.chatId == chatId && this.shopId == shopId && this.currentUser == currentUser
      ensures localMessages == [] && userCache == map[] && staffJoined == {} && input == ""
      ensures socketCache == map[]
    {
      this.chatId := chatId;
      this.shopId := shopId;
      this.currentUser := currentUser;
      localMessages := [];
      userCache := map[];
      staffJoined := {};
      input := "";
      socketCache := map[];
    }

    /** A push frame is taken when it is a new message for this chat and carries the message. */
    predicate Accepts(e: PushEvent)
      reads this
    {
      e.kind == "new_message" && e.chatId == chatId && e.message.Some?
    }

    /** The effect on `messages`: a non-empty answer replaces the log; an empty one leaves it. */
    method ServerRefresh(messages: seq<Message>)
      modifies this
      ensures localMessages == if |messages| > 0 then messages else old(localMessages)
      ensures userCache == old(userCache) && staffJoined == old(staffJoined) && input == old(input)
      ensures socketCache == old(socketCache)
    {
      if |messages| > 0 {
        localMessages := messages;
      }
    }

    /**
     * One answer of the polled messages query followed by the effect on
     * `messages`: a disabled query leaves `messages` at its default, the
     * empty list, so only an enabled query with a non-empty `answer` changes
     * the log.
     */
    method Poll(answer: seq<Message>)
      modifies this
      ensures localMessages ==
        if QueriesEnabled(currentUser, chatId, shopId) && |answer| > 0 then answer else old(localMessages)
      ensures userCache == old(userCache) && staffJoined == old(staffJoined) && input == old(input)
      ensures socketCache == old(socketCache)
    {
      var messages := if QueriesEnabled(currentUser, chatId, shopId) then answer else [];
      ServerRefresh(messages);
    }

    /**
     * The effect that opens the push channel, run again when the user
     * changes: without a user it opens nothing; otherwise the new handler
     * sees the cache as it is now.
     */
    method OpenSocket()
      modifies this
      ensures socketCache == if currentUser.Some? then old(userCache) else old(socketCache)
      ensures localMessages == old(localMessages) && userCache == old(userCache)
      ensures staffJoined == old(staffJoined) && input == old(input)
    {
      if currentUser.Some? {
        socketCache := userCache;
      }
    }

    /** The part of `getUserInfo` past the cache test: the signed-in user, then the server. */
    method FetchUserInfo(userId: int, fetched: map<int, User>) returns (info: SenderInfo)
      modifies this
      ensures info == Fetch(currentUser, userId, fetched)
      ensures userCache == Store(old(userCache), currentUser, userId, fetched)
      ensures localMessages == old(localMessages) && staffJoined == old(staffJoined) && input == old(input)
      ensures socketCache == old(socketCache)
    {
      if currentUser.Some? && userId == currentUser.value.id {
        userCache := userCache[userId := currentUser.value];
        return Known(currentUser.value);
      }
      if userId in fetched {
        userCache := userCache[userId := fetched[userId]];
        return Known(fetched[userId]);
      }
      return Placeholder;
    }

    /**
     * `getUserInfo`: answers from the cache, caches the signed-in user or the
     * server's answer, and falls back to the stand-in without caching it.
     */
    method GetUserInfo(userId: int, fetched: map<int, User>) returns (info: SenderInfo)
      modifies this
      ensures info == Lookup(old(userCache), currentUser, userId, fetched)
      ensures userCache == CacheAfter(old(userCache), currentUser, userId, fetched)
      ensures localMessages == old(localMessages) && staffJoined == old(staffJoined) && input == old(input)
      ensures socketCache == old(socketCache)
    {
      if userId in userCache {
        return Known(userCache[userId]);
      }
      info := FetchUserInfo(userId, fetched);
    }

    /**
     * The push channel's message handler: an accepted frame appends its
     * message; a sender missing from the cache the handler saw when the
     * socket opened is looked up again and stored over whatever the live
     * cache holds; a sender whose frame names a shop role is recorded as
     * announced.
     */
    method OnPushEvent(e: PushEvent, fetched: map<int, User>) returns (accepted: bool)
      modifies this
      ensures accepted <==> old(Accepts(e))
      ensures localMessages == if accepted then old(localMessages) + [e.message.value] else old(localMessages)
      ensures userCache ==
        if accepted && Truthy(e.message.value.senderId) && e.message.value.senderId.value !in old(socketCache)
        then Store(old(userCache), currentUser, e.message.value.senderId.value, fetched)
        else old(userCache)
      ensures staffJoined ==
        if accepted && e.senderRole.Some? && IsShopRole(e.senderRole.value)
        then old(staffJoined) + {e.message.value.senderId}
        else old(staffJoined)
      ensures input == old(input) && socketCache == old(socketCache)
    {
      accepted := Accepts(e);
      if !accepted {
        return;
      }
      var m := e.message.value;
      localMessages := localMessages + [m];
      if Truthy(m.senderId) && m.senderId.value !in socketCache {
        var _ := FetchUserInfo(m.senderId.value, fetched);
      }
      if e.senderRole.Some? && IsShopRole(e.senderRole.value) && m.senderId !in staffJoined {
        staffJoined := staffJoined + {m.senderId};
      }
    }

    /**
     * `handleSendMessage` and the mutation's success handler: a blank input
     * sends nothing; otherwise the input is sent as typed, and when the
     * server answers with the stored message (`reply`) that message is
     * appended and the input cleared. A failure changes nothing.
     */
    method Send(reply: Option<Message>) returns (sent: Option<string>)
      modifies this
      ensures sent.Some? <==> Trim(old(input)) != ""
      ensures sent.Some? ==> sent.value == old(input)
      ensures localMessages ==
        if sent.Some? && reply.Some? then old(localMessages) + [reply.value] else old(localMessages)
      ensures input == if sent.Some? && reply.Some? then "" else old(input)
      ensures userCache == old(userCache) && staffJoined == old(staffJoined) && socketCache == old(socketCache)
    {
      if Trim(input) == "" {
        return None;
      }
      sent := Some(input);
      if reply.Some? {
        localMessages := localMessages + [reply.value];
        input := "";
      }
    }

    /**
     * One round of `loadUserInfo`'s loop: an uncached id is looked up, and a
     * sender with a shop role who is not yet announced is announced.
     */
    method LoadOne(id: int, fetched: map<int, User>, messages: seq<Message>)
      modifies this
      ensures Loaded(userCache, staffJoined) ==
        LoadStep(old(Loaded(userCache, staffJoined)), currentUser, id, fetched, messages)
      ensures localMessages == old(localMessages) && input == old(input) && socketCache == old(socketCache)
    {
      if id != 0 && id !in userCache {
        var info := GetUserInfo(id, fetched);
        if IsShopRole(RoleOf(info)) && Some(id) !in staffJoined {
          var first := FirstIndex(Senders(messages), Some(id));
          if first >= 0 {
            staffJoined := staffJoined + {Some(id)};
          }
        }
      }
    }

    /**
     * The effect that runs `loadUserInfo` over the server's `messages`: it
     * does nothing without a user or messages; otherwise it visits each
     * sender id once, in order.
     */
    method LoadUserInfo(messages: seq<Message>, fetched: map<int, User>)
      modifies this
      ensures Loaded(userCache, staffJoined) ==
        if currentUser.None? || |messages| == 0 then Loaded(old(userCache), old(staffJoined))
        else LoadAll(Loaded(old(userCache), old(staffJoined)), currentUser, SenderIds(messages), fetched, messages)
      ensures localMessages == old(localMessages) && input == old(input) && socketCache == old(socketCache)
    {
      if currentUser.None? || |messages| == 0 {
        return;
      }
      var ids := SenderIds(messages);
      var i := 0;
      while i < |ids|
        invariant 0 <= i <= |ids|
        invariant Loaded(userCache, staffJoined) ==
          LoadAll(Loaded(old(userCache), old(staffJoined)), currentUser, ids[..i], fetched, messages)
        invariant localMessages == old(localMessages) && input == old(input) && socketCache == old(socketCache)
      {
        LoadOne(ids[i], fetched, messages);
        assert ids[..i + 1][..i] == ids[..i];
        i := i + 1;
      }
      assert ids[..i] == ids;
    }
  }

  /**
   * After `loadUserInfo`, every person who wrote and whose record can be
   * had is cached; everyone it newly announces wrote in the chat with a
   * shop role; and every writer it finds uncached whose record carries a
   * shop role is announced.
   */
  lemma LoadUserInfoSpec(s: Loaded, current: Option<User>, fetched: map<int, User>, messages: seq<Message>, k: int)
    requires 0 <= k < |messages| && Truthy(messages[k].senderId)
    requires var id := messages[k].senderId.value;
      id in s.cache || (current.Some? && current.value.id == id) || id in fetched
    ensures messages[k].senderId.value in LoadAll(s, current, SenderIds(messages), fetched, messages).cache
    ensures forall x :: x in LoadAll(s, current, SenderIds(messages), fetched, messages).staff && x !in s.staff ==>
      x.Some? && x in Senders(messages)
    ensures messages[k].senderId.value !in s.cache && IsShopRole(RoleOf(Fetch(current, messages[k].senderId.value, fetched)))
      ==> messages[k].senderId in LoadAll(s, current, SenderIds(messages), fetched, messages).staff
  {
    var ids := SenderIds(messages);
    var id := messages[k].senderId.value;
    DedupSpec(PersonIds(messages));
    assert id in ids;
    var j :| 0 <= j < |ids| && ids[j] == id;
    LoadAllCaches(s, current, ids, fetched, messages, j);
    LoadAllGrows(s, current, ids, fetched, messages);
    assert messages[k].senderId in Senders(messages);
    if id !in s.cache && IsShopRole(RoleOf(Fetch(current, id, fetched))) {
      LoadAllAnnounces(s, current, ids, fetched, messages, j);
    }
  }
}
