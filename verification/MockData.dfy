/** The conversation registry (src/data/mockData.ts): the in-memory table of
    client-staff conversations, single-owner claiming and message append. */
module MockData {
  import opened Wrappers
  import opened Seqs
  import opened Types

  /** `ClientMessage.from`. */
  datatype Origin = FromClient | FromStaff

  /** `ClientMessage`; the display time is kept as the instant it shows, and an
      absent `isEncrypted` is `false`. */
  datatype Message = Message(id: int, from: Origin, text: string, author: string, sentAt: nat, encrypted: bool)

  /** `Omit<ClientMessage, 'id'>`: a message before the registry numbers it. */
  datatype Draft = Draft(from: Origin, text: string, author: string, sentAt: nat, encrypted: bool)

  /** `Conversation.status`. */
  datatype Status = Unassigned | Assigned

  /** `Conversation`; `lastActivity` is `lastMessageTimestamp`. */
  datatype Conversation = Conversation(
    id: int,
    clientId: UserId,
    clientName: string,
    clientAvatar: string,
    status: Status,
    assigneeId: Option<UserId>,
    assigneeName: Option<string>,
    messages: seq<Message>,
    lastActivity: nat)

  /** `{ ...message, id }`. */
  function Numbered(d: Draft, id: int): Message
  {
    Message(id, d.from, d.text, d.author, d.sentAt, d.encrypted)
  }

  // ---------------------------------------------------------------------------
  // Invariants

  /** A conversation is assigned exactly when it has an assignee, whose id and name are set together. */
  predicate OwnerConsistent(c: Conversation)
  {
    && (c.status == Assigned <==> c.assigneeId.Some?)
    && (c.assigneeId.Some? <==> c.assigneeName.Some?)
  }

  /** Message ids are `1..n` in order. */
  predicate MessagesNumbered(c: Conversation)
  {
    forall k :: 0 <= k < |c.messages| ==> c.messages[k].id == k + 1
  }

  /** Conversation ids are distinct and drawn from `1..n`. */
  predicate IdsDense(cs: seq<Conversation>)
  {
    && (forall i :: 0 <= i < |cs| ==> 1 <= cs[i].id <= |cs|)
    && (forall i, j :: 0 <= i < j < |cs| ==> cs[i].id != cs[j].id)
  }

  predicate RegistryInvariant(cs: seq<Conversation>)
  {
    && IdsDense(cs)
    && (forall i :: 0 <= i < |cs| ==> OwnerConsistent(cs[i]) && MessagesNumbered(cs[i]))
  }

  /** Under the invariant the conversation ids are exactly `{1..n}`. */
  lemma ConversationIdsOneToN(cs: seq<Conversation>)
    requires RegistryInvariant(cs)
    ensures (set c | c in cs :: c.id) == Range(1, |cs| + 1)
  {
    var ids := seq(|cs|, i requires 0 <= i < |cs| => cs[i].id);
    DenseIds(ids);
    assert (set c | c in cs :: c.id) == (set x | x in ids) by {
      forall c | c in cs ensures c.id in ids {
        var i :| 0 <= i < |cs| && cs[i] == c;
        assert ids[i] == c.id;
      }
    }
  }

  // ---------------------------------------------------------------------------
  // The registry operations on values

  /** `conversations.find(c => c.id === conversationId)`, as an index. */
  function IndexOfId(cs: seq<Conversation>, conversationId: int): Option<nat>
  {
    FirstIndex(cs, (c: Conversation) => c.id == conversationId)
  }

  /** `conversations.find(c => c.clientId === clientId)`. */
  function ByClient(cs: seq<Conversation>, clientId: UserId): Option<Conversation>
  {
    Find(cs, (c: Conversation) => c.clientId == clientId)
  }

  /** `conversations.filter(c => c.status === 'unassigned')`. */
  function UnassignedOf(cs: seq<Conversation>): seq<Conversation>
  {
    Filter(cs, (c: Conversation) => c.status == Unassigned)
  }

  /** The three fields `claimConversation` assigns. */
  function ClaimedBy(c: Conversation, staffId: UserId, staffName: string): Conversation
  {
    c.(status := Assigned, assigneeId := Some(staffId), assigneeName := Some(staffName))
  }

  /** `claimConversation`: the registry after the claim. An assigned conversation is
      never touched, and nothing but the claimed conversation changes. */
  function Claimed(cs: seq<Conversation>, conversationId: int, staffId: UserId, staffName: string): (r: seq<Conversation>)
    ensures |r| == |cs|
    ensures forall j :: 0 <= j < |cs| && cs[j].id != conversationId ==> r[j] == cs[j]
    ensures forall j :: 0 <= j < |cs| && cs[j].status == Assigned ==> r[j] == cs[j]
    ensures forall j :: 0 <= j < |cs| ==> r[j].id == cs[j].id && r[j].clientId == cs[j].clientId
    ensures forall j :: 0 <= j < |cs| ==> r[j].messages == cs[j].messages
  {
    match IndexOfId(cs, conversationId)
    case None => cs
    case Some(i) =>
      if cs[i].status == Unassigned then cs[i := ClaimedBy(cs[i], staffId, staffName)] else cs
  }

  /** `addMessageToConversation`: the registry after the append. */
  function WithMessage(cs: seq<Conversation>, conversationId: int, d: Draft, now: nat): (r: seq<Conversation>)
    ensures |r| == |cs|
    ensures forall j :: 0 <= j < |cs| && cs[j].id != conversationId ==> r[j] == cs[j]
    ensures forall j :: 0 <= j < |cs| ==>
      && r[j].id == cs[j].id && r[j].clientId == cs[j].clientId && r[j].status == cs[j].status
      && r[j].assigneeId == cs[j].assigneeId && r[j].assigneeName == cs[j].assigneeName
    ensures (forall j :: 0 <= j < |cs| ==> cs[j].id != conversationId) ==> r == cs
  {
    match IndexOfId(cs, conversationId)
    case None => cs
    case Some(i) =>
      var c := cs[i];
      cs[i := c.(messages := c.messages + [Numbered(d, |c.messages| + 1)], lastActivity := now)]
  }

  /** What `findOrCreateConversationForClient` leaves behind: the registry and the conversation it returns. */
  datatype Lookup = Lookup(registry: seq<Conversation>, conversation: Conversation)

  /** `findOrCreateConversationForClient`. */
  function FindOrCreateResult(cs: seq<Conversation>, clientId: UserId, clientName: string, clientAvatar: string, now: nat): (r: Lookup)
    ensures r.conversation.clientId == clientId
    ensures r.registry == cs || r.registry == [r.conversation] + cs
  {
    match ByClient(cs, clientId)
    case Some(c) => Lookup(cs, c)
    case None =>
      var c := Conversation(|cs| + 1, clientId, clientName, clientAvatar, Unassigned, None, None, [], now);
      Lookup([c] + cs, c)
  }

  // ---------------------------------------------------------------------------
  // Properties of the operations

  /** Sequences with the same ids position by position locate a conversation id at the same index. */
  lemma SameIdsSameIndex(cs: seq<Conversation>, r: seq<Conversation>, conversationId: int)
    requires |r| == |cs|
    requires forall j :: 0 <= j < |cs| ==> r[j].id == cs[j].id
    ensures IndexOfId(r, conversationId) == IndexOfId(cs, conversationId)
  {
    var a := IndexOfId(cs, conversationId);
    var b := IndexOfId(r, conversationId);
    if a.Some? && b.Some? {
      assert !(a.value < b.value) && !(b.value < a.value);
    }
  }

  /** Sequences with the same client ids position by position find the same position for a client. */
  lemma SameClientsSameIndex(cs: seq<Conversation>, r: seq<Conversation>, clientId: UserId)
    requires |r| == |cs|
    requires forall j :: 0 <= j < |cs| ==> r[j].clientId == cs[j].clientId
    ensures FirstIndex(r, (c: Conversation) => c.clientId == clientId) == FirstIndex(cs, (c: Conversation) => c.clientId == clientId)
  {
    var a := FirstIndex(cs, (c: Conversation) => c.clientId == clientId);
    var b := FirstIndex(r, (c: Conversation) => c.clientId == clientId);
    if a.Some? && b.Some? {
      assert !(a.value < b.value) && !(b.value < a.value);
    }
  }

  /** With unique ids, the claimed conversation is the only one with that id. */
  lemma ClaimAssigns(cs: seq<Conversation>, conversationId: int, staffId: UserId, staffName: string, j: nat)
    requires RegistryInvariant(cs)
    requires j < |cs| && cs[j].id == conversationId && cs[j].status == Unassigned
    ensures Claimed(cs, conversationId, staffId, staffName)[j] == ClaimedBy(cs[j], staffId, staffName)
  {
    assert IndexOfId(cs, conversationId) == Some(j);
  }

  /** Claiming keeps every invariant. */
  lemma ClaimPreservesInvariant(cs: seq<Conversation>, conversationId: int, staffId: UserId, staffName: string)
    requires RegistryInvariant(cs)
    ensures RegistryInvariant(Claimed(cs, conversationId, staffId, staffName))
  {
    var r := Claimed(cs, conversationId, staffId, staffName);
    forall j | 0 <= j < |r| ensures OwnerConsistent(r[j]) && MessagesNumbered(r[j]) {
      if cs[j].id == conversationId && cs[j].status == Unassigned {
        ClaimAssigns(cs, conversationId, staffId, staffName, j);
      }
    }
  }

  /** The first claim wins: a second claim of the same conversation, by anyone, changes nothing. */
  lemma SecondClaimKeepsOwner(cs: seq<Conversation>, conversationId: int, first: UserId, firstName: string, second: UserId, secondName: string)
    ensures var once := Claimed(cs, conversationId, first, firstName);
      Claimed(once, conversationId, second, secondName) == once
  {
    var once := Claimed(cs, conversationId, first, firstName);
    SameIdsSameIndex(cs, once, conversationId);
    match IndexOfId(cs, conversationId)
    case None =>
    case Some(i) =>
      assert once[i].status == Assigned;
  }

  /** Appending to a known conversation adds exactly one message, numbered `n + 1`, at the
      end, and stamps the activity time; status, assignee and earlier messages stay. */
  lemma AppendEffect(cs: seq<Conversation>, conversationId: int, d: Draft, now: nat, j: nat)
    requires RegistryInvariant(cs)
    requires j < |cs| && cs[j].id == conversationId
    ensures var r := WithMessage(cs, conversationId, d, now);
      && r[j].messages == cs[j].messages + [Numbered(d, |cs[j].messages| + 1)]
      && r[j].lastActivity == now
      && r[j] == cs[j].(messages := r[j].messages, lastActivity := now)
  {
    assert IndexOfId(cs, conversationId) == Some(j);
  }

  /** Appending keeps every invariant; in particular message ids stay `1..n`. */
  lemma AppendPreservesInvariant(cs: seq<Conversation>, conversationId: int, d: Draft, now: nat)
    requires RegistryInvariant(cs)
    ensures RegistryInvariant(WithMessage(cs, conversationId, d, now))
  {
    var r := WithMessage(cs, conversationId, d, now);
    forall j | 0 <= j < |r| ensures OwnerConsistent(r[j]) && MessagesNumbered(r[j]) {
      if cs[j].id == conversationId {
        AppendEffect(cs, conversationId, d, now, j);
      }
    }
  }

  /** find-or-create: an existing conversation of the client is returned and the registry is
      unchanged; otherwise a new, empty, unassigned conversation numbered `n + 1` goes in front. */
  lemma FindOrCreateEffect(cs: seq<Conversation>, clientId: UserId, clientName: string, clientAvatar: string, now: nat)
    ensures var r := FindOrCreateResult(cs, clientId, clientName, clientAvatar, now);
      && ((exists j :: 0 <= j < |cs| && cs[j].clientId == clientId) ==>
            r.registry == cs && Some(r.conversation) == ByClient(cs, clientId))
      && ((forall j :: 0 <= j < |cs| ==> cs[j].clientId != clientId) ==>
            && r.registry == [r.conversation] + cs
            && r.conversation.id == |cs| + 1
            && r.conversation.status == Unassigned && r.conversation.assigneeId.None?
            && r.conversation.messages == [] && r.conversation.lastActivity == now
            && r.conversation.clientName == clientName && r.conversation.clientAvatar == clientAvatar)
  {
  }

  /** Afterwards the returned conversation is the one the registry finds for the client. */
  lemma {:induction false} FindOrCreateFindsItself(cs: seq<Conversation>, clientId: UserId, clientName: string, clientAvatar: string, now: nat)
    ensures var r := FindOrCreateResult(cs, clientId, clientName, clientAvatar, now);
      ByClient(r.registry, clientId) == Some(r.conversation)
  {
    var r := FindOrCreateResult(cs, clientId, clientName, clientAvatar, now);
    if ByClient(cs, clientId).None? {
      assert r.registry[0] == r.conversation;
      assert FirstIndex(r.registry, (c: Conversation) => c.clientId == clientId) == Some(0);
    } else {
      var i := FirstIndex(cs, (c: Conversation) => c.clientId == clientId);
      assert ByClient(cs, clientId) == Some(cs[i.value]);
    }
  }

  /** find-or-create is idempotent by client id: a repeated call returns the same
      conversation and leaves the registry as the first call left it. */
  lemma FindOrCreateIdempotent(cs: seq<Conversation>, clientId: UserId, name1: string, avatar1: string, now1: nat,
                               name2: string, avatar2: string, now2: nat)
    ensures var first := FindOrCreateResult(cs, clientId, name1, avatar1, now1);
      FindOrCreateResult(first.registry, clientId, name2, avatar2, now2) == first
  {
    FindOrCreateFindsItself(cs, clientId, name1, avatar1, now1);
  }

  /** Creating a conversation keeps every invariant; the new id `n + 1` is fresh. */
  lemma FindOrCreatePreservesInvariant(cs: seq<Conversation>, clientId: UserId, clientName: string, clientAvatar: string, now: nat)
    requires RegistryInvariant(cs)
    ensures RegistryInvariant(FindOrCreateResult(cs, clientId, clientName, clientAvatar, now).registry)
  {
    var r := FindOrCreateResult(cs, clientId, clientName, clientAvatar, now);
    if r.registry != cs {
      var rs := r.registry;
      assert rs == [r.conversation] + cs;
      forall i, j | 0 <= i < j < |rs| ensures rs[i].id != rs[j].id {
        if i == 0 {
          assert rs[j] == cs[j - 1];
        } else {
          assert rs[i] == cs[i - 1] && rs[j] == cs[j - 1];
        }
      }
      forall i | 0 <= i < |rs| ensures 1 <= rs[i].id <= |rs| && OwnerConsistent(rs[i]) && MessagesNumbered(rs[i]) {
        if i > 0 {
          assert rs[i] == cs[i - 1];
        }
      }
    }
  }

  /** Number of conversations held for a client. */
  function CountForClient(cs: seq<Conversation>, clientId: UserId): nat
  {
    |Filter(cs, (c: Conversation) => c.clientId == clientId)|
  }

  /** A client that had no conversation ends up with exactly one. */
  lemma FindOrCreateCreatesOne(cs: seq<Conversation>, clientId: UserId, clientName: string, clientAvatar: string, now: nat)
    requires forall j :: 0 <= j < |cs| ==> cs[j].clientId != clientId
    ensures CountForClient(FindOrCreateResult(cs, clientId, clientName, clientAvatar, now).registry, clientId) == 1
  {
    var r := FindOrCreateResult(cs, clientId, clientName, clientAvatar, now);
    assert r.registry == [r.conversation] + cs;
    assert r.registry[1..] == cs;
    FilterKeepsNone(cs, (c: Conversation) => c.clientId == clientId);
  }

  /** A freshly created conversation is listed as unassigned although it has no message yet. */
  lemma CreatedIsListedEmpty(cs: seq<Conversation>, clientId: UserId, clientName: string, clientAvatar: string, now: nat)
    requires forall j :: 0 <= j < |cs| ==> cs[j].clientId != clientId
    ensures var r := FindOrCreateResult(cs, clientId, clientName, clientAvatar, now);
      r.conversation in UnassignedOf(r.registry) && r.conversation.messages == []
  {
    var r := FindOrCreateResult(cs, clientId, clientName, clientAvatar, now);
    assert r.registry[0] == r.conversation;
  }

  /** Under the invariant a conversation's own id locates it. */
  lemma IndexOfOwnId(cs: seq<Conversation>, k: nat)
    requires RegistryInvariant(cs) && k < |cs|
    ensures IndexOfId(cs, cs[k].id) == Some(k)
  {
  }

  /** A screen's copy of a conversation still names a conversation of the registry, with the same client. */
  predicate Tracks(cs: seq<Conversation>, conv: Conversation)
  {
    var i := IndexOfId(cs, conv.id);
    i.Some? && cs[i.value].clientId == conv.clientId
  }

  // ---------------------------------------------------------------------------
  // Seeding (`initializeConversations`)

  /** One of the fifteen mock clients conversations are drawn from. */
  datatype SeedClient = SeedClient(id: UserId, name: string, avatar: string)

  /** The random choices `initializeConversations` makes for one conversation:
      the client, the staff member, the three message texts and the four instants. */
  datatype SeedPick = SeedPick(
    client: SeedClient,
    staffId: UserId,
    staffName: string,
    texts: seq<string>,
    firstTime: nat,
    replyTime: nat,
    laterTime: nat,
    lastTime: nat)

  predicate WellFormedPick(p: SeedPick)
  {
    |p.texts| == 3 && 1 <= p.client.id <= 15 && 1 <= p.staffId <= 5
  }

  /** The conversation pushed in slot `i`: slots 0-2 are unassigned with one client
      message, slots 3-6 are assigned with a client, a staff and a client message. */
  function SeedConversation(i: nat, p: SeedPick): (c: Conversation)
    requires WellFormedPick(p)
    ensures c.id == i + 1
  {
    var client := p.client;
    if i < 3 then
      Conversation(i + 1, client.id, client.name, client.avatar, Unassigned, None, None,
                   [Message(1, FromClient, p.texts[0], client.name, p.firstTime, false)], p.firstTime)
    else
      Conversation(i + 1, client.id, client.name, client.avatar, Assigned, Some(p.staffId), Some(p.staffName),
                   [Message(1, FromClient, p.texts[0], client.name, p.firstTime, false),
                    Message(2, FromStaff, p.texts[1], p.staffName, p.replyTime, true),
                    Message(3, FromClient, p.texts[2], client.name, p.laterTime, false)],
                   p.lastTime)
  }

  /** `order` lists the seven slots as the stable descending sort by last activity places them. */
  predicate SortedSeedOrder(picks: seq<SeedPick>, order: seq<nat>)
    requires |picks| == 7 && forall i :: 0 <= i < 7 ==> WellFormedPick(picks[i])
  {
    && |order| == 7
    && (forall k :: 0 <= k < 7 ==> order[k] < 7)
    && Distinct(order)
    && forall k :: 0 <= k < 6 ==>
         var a := SeedConversation(order[k], picks[order[k]]).lastActivity;
         var b := SeedConversation(order[k + 1], picks[order[k + 1]]).lastActivity;
         a > b || (a == b && order[k] < order[k + 1])
  }

  // ---------------------------------------------------------------------------
  // The module-level `conversations` array

  class ConversationRegistry {
    var conversations: seq<Conversation>

    predicate Valid()
      reads this
    {
      RegistryInvariant(conversations)
    }

    /** `initializeConversations`: seven seeded conversations, sorted newest first. */
    constructor Seeded(picks: seq<SeedPick>, order: seq<nat>)
      requires |picks| == 7 && forall i :: 0 <= i < 7 ==> WellFormedPick(picks[i])
      requires SortedSeedOrder(picks, order)
      ensures Valid()
      ensures |conversations| == 7
      ensures forall k :: 0 <= k < 7 ==> conversations[k] == SeedConversation(order[k], picks[order[k]])
    {
      conversations := seq(7, k requires 0 <= k < 7 => SeedConversation(order[k], picks[order[k]]));
    }

    /** `getUnassignedConversations`: exactly the unassigned conversations, in registry order. */
    function UnassignedConversations(): (r: seq<Conversation>)
      reads this
      ensures forall i :: 0 <= i < |r| ==> r[i] in conversations && r[i].status == Unassigned
      ensures forall i :: 0 <= i < |conversations| && conversations[i].status == Unassigned ==> conversations[i] in r
      ensures IsSubsequence(r, conversations)
    {
      FilterIsSubsequence(conversations, (c: Conversation) => c.status == Unassigned);
      UnassignedOf(conversations)
    }

    /** `getConversationByClientId`: the first conversation of the client in registry order, if any. */
    function ConversationByClient(clientId: UserId): (r: Option<Conversation>)
      reads this
      ensures r.Some? ==> r.value.clientId == clientId
      ensures r.Some? ==> exists i :: && 0 <= i < |conversations| && conversations[i] == r.value
                                      && forall j :: 0 <= j < i ==> conversations[j].clientId != clientId
      ensures r.None? <==> forall j :: 0 <= j < |conversations| ==> conversations[j].clientId != clientId
    {
      var i := FirstIndex(conversations, (c: Conversation) => c.clientId == clientId);
      if i.Some? then Some(conversations[i.value]) else None
    }

    /** `claimConversation`. */
    method Claim(conversationId: int, staffId: UserId, staffName: string)
      requires Valid()
      modifies this
      ensures Valid()
      ensures conversations == Claimed(old(conversations), conversationId, staffId, staffName)
    {
      ClaimPreservesInvariant(conversations, conversationId, staffId, staffName);
      var found := IndexOfId(conversations, conversationId);
      if found.Some? && conversations[found.value].status == Unassigned {
        var i := found.value;
        conversations := conversations[i := ClaimedBy(conversations[i], staffId, staffName)];
      }
    }

    /** `addMessageToConversation`; `now` is `new Date()`. */
    method AddMessage(conversationId: int, d: Draft, now: nat)
      requires Valid()
      modifies this
      ensures Valid()
      ensures conversations == WithMessage(old(conversations), conversationId, d, now)
    {
      AppendPreservesInvariant(conversations, conversationId, d, now);
      var found := IndexOfId(conversations, conversationId);
      if found.Some? {
        var i := found.value;
        var c := conversations[i];
        conversations := conversations[i := c.(messages := c.messages + [Numbered(d, |c.messages| + 1)], lastActivity := now)];
      }
    }

    /** `findOrCreateConversationForClient`; `now` is `new Date()`. */
    method FindOrCreate(clientId: UserId, clientName: string, clientAvatar: string, now: nat) returns (c: Conversation)
      requires Valid()
      modifies this
      ensures Valid()
      ensures Lookup(conversations, c) == FindOrCreateResult(old(conversations), clientId, clientName, clientAvatar, now)
    {
      FindOrCreatePreservesInvariant(conversations, clientId, clientName, clientAvatar, now);
      var found := ByClient(conversations, clientId);
      if found.Some? {
        c := found.value;
      } else {
        c := Conversation(|conversations| + 1, clientId, clientName, clientAvatar, Unassigned, None, None, [], now);
        conversations := [c] + conversations;
      }
    }
  }
}
