/** The staff conversation screen of a client (src/pages/ClientDetail.tsx): who
    sees a thread, who may write to it, and the claim-on-first-reply protocol. */
module ClientDetail {
  import opened Wrappers
  import opened Types
  import opened Seqs
  import opened Text
  import opened MockData

  /** Line 211: the contents are replaced by the "private" notice exactly when the
      conversation is assigned to someone other than the viewer. */
  predicate MessagesHidden(conv: Conversation, viewerId: Option<UserId>)
  {
    conv.status == Assigned && conv.assigneeId != viewerId
  }

  /** Line 254: the composer is rendered when there is a conversation that is unassigned
      or assigned to the viewer. */
  predicate ComposerShown(conv: Option<Conversation>, viewerId: Option<UserId>)
  {
    conv.Some? && (conv.value.status == Unassigned || conv.value.assigneeId == viewerId)
  }

  /** Whoever can write to a thread can read it, and conversely. */
  lemma ComposerIffVisible(conv: Conversation, viewerId: Option<UserId>)
    ensures ComposerShown(Some(conv), viewerId) <==> !MessagesHidden(conv, viewerId)
  {
  }

  /** The staff message announcing a claim. */
  function ClaimNotice(now: nat): Draft
  {
    Draft(FromStaff, "You have claimed this conversation. It is now private and encrypted.", "System", now, true)
  }

  /** The staff member's own message. */
  function StaffMessage(viewer: Profile, text: string, now: nat): Draft
  {
    Draft(FromStaff, text, viewer.fullName, now, true)
  }

  /** The registry after `handleSendMessage` passes its guard, for the conversation
      `conv` the screen holds: claim and notice when `conv` shows as unassigned, then the reply. */
  function StaffReply(cs: seq<Conversation>, conv: Conversation, viewer: Profile, text: string, now: nat): seq<Conversation>
  {
    var claimed :=
      if conv.status == Unassigned then
        WithMessage(Claimed(cs, conv.id, viewer.id, viewer.fullName), conv.id, ClaimNotice(now), now)
      else cs;
    WithMessage(claimed, conv.id, StaffMessage(viewer, text, now), now)
  }

  /** `r` differs from `cs` at most at position `j`. */
  predicate OnlyChangedAt(cs: seq<Conversation>, r: seq<Conversation>, j: nat)
  {
    |r| == |cs| && forall k :: 0 <= k < |cs| && k != j ==> r[k] == cs[k]
  }

  /** Appending touches only the conversation with that id. */
  lemma AppendOnlyChanges(cs: seq<Conversation>, d: Draft, now: nat, j: nat)
    requires RegistryInvariant(cs) && j < |cs|
    ensures OnlyChangedAt(cs, WithMessage(cs, cs[j].id, d, now), j)
  {
  }

  /** The first half of a reply on a conversation shown unassigned: the claim and its notice. */
  lemma ClaimWithNoticeEffect(cs: seq<Conversation>, viewer: Profile, now: nat, j: nat)
    requires RegistryInvariant(cs) && j < |cs|
    ensures var r := WithMessage(Claimed(cs, cs[j].id, viewer.id, viewer.fullName), cs[j].id, ClaimNotice(now), now);
      && RegistryInvariant(r)
      && OnlyChangedAt(cs, r, j)
      && r[j].id == cs[j].id && r[j].clientId == cs[j].clientId
      && r[j].messages == cs[j].messages + [Numbered(ClaimNotice(now), |cs[j].messages| + 1)]
      && (cs[j].status == Unassigned ==> r[j].status == Assigned && r[j].assigneeId == Some(viewer.id) && r[j].assigneeName == Some(viewer.fullName))
      && (cs[j].status == Assigned ==> r[j].status == cs[j].status && r[j].assigneeId == cs[j].assigneeId && r[j].assigneeName == cs[j].assigneeName)
  {
    var id := cs[j].id;
    var c1 := Claimed(cs, id, viewer.id, viewer.fullName);
    ClaimPreservesInvariant(cs, id, viewer.id, viewer.fullName);
    if cs[j].status == Unassigned {
      ClaimAssigns(cs, id, viewer.id, viewer.fullName, j);
    }
    AppendEffect(c1, id, ClaimNotice(now), now, j);
    AppendPreservesInvariant(c1, id, ClaimNotice(now), now);
    AppendOnlyChanges(c1, ClaimNotice(now), now, j);
  }

  /** The effect of a staff reply on the registry. On a conversation shown unassigned
      it gains the claim notice and the reply (+2), and becomes the viewer's unless
      someone already owned it; on one shown assigned it gains the reply alone (+1) and
      ownership is untouched. No other conversation changes and the invariant holds. */
  lemma StaffReplyEffect(cs: seq<Conversation>, conv: Conversation, viewer: Profile, text: string, now: nat, j: nat)
    requires RegistryInvariant(cs)
    requires j < |cs| && cs[j].id == conv.id
    ensures var r := StaffReply(cs, conv, viewer, text, now);
      && RegistryInvariant(r)
      && OnlyChangedAt(cs, r, j)
      && r[j].id == cs[j].id && r[j].clientId == cs[j].clientId && r[j].lastActivity == now
      && (conv.status == Unassigned ==>
            r[j].messages == cs[j].messages + [Numbered(ClaimNotice(now), |cs[j].messages| + 1),
                                               Numbered(StaffMessage(viewer, text, now), |cs[j].messages| + 2)])
      && (conv.status == Unassigned && cs[j].status == Unassigned ==>
            r[j].status == Assigned && r[j].assigneeId == Some(viewer.id) && r[j].assigneeName == Some(viewer.fullName))
      && (conv.status == Assigned ==>
            r[j].messages == cs[j].messages + [Numbered(StaffMessage(viewer, text, now), |cs[j].messages| + 1)])
      && (conv.status == Assigned || cs[j].status == Assigned ==>
            r[j].status == cs[j].status && r[j].assigneeId == cs[j].assigneeId && r[j].assigneeName == cs[j].assigneeName)
  {
    var reply := StaffMessage(viewer, text, now);
    var mid := if conv.status == Unassigned then
      WithMessage(Claimed(cs, conv.id, viewer.id, viewer.fullName), conv.id, ClaimNotice(now), now)
    else cs;
    if conv.status == Unassigned {
      ClaimWithNoticeEffect(cs, viewer, now, j);
    }
    AppendEffect(mid, conv.id, reply, now, j);
    AppendPreservesInvariant(mid, conv.id, reply, now);
    AppendOnlyChanges(mid, reply, now, j);
  }

  /** The first reply makes the thread private: afterwards the replying staff member keeps
      the composer and sees the messages, anyone else sees neither. */
  lemma FirstReplyMakesPrivate(cs: seq<Conversation>, viewer: Profile, other: Option<UserId>, text: string, now: nat, j: nat)
    requires RegistryInvariant(cs)
    requires j < |cs| && cs[j].status == Unassigned
    requires other != Some(viewer.id)
    ensures var r := StaffReply(cs, cs[j], viewer, text, now);
      && ComposerShown(Some(r[j]), Some(viewer.id)) && !MessagesHidden(r[j], Some(viewer.id))
      && !ComposerShown(Some(r[j]), other) && MessagesHidden(r[j], other)
  {
    StaffReplyEffect(cs, cs[j], viewer, text, now, j);
  }

  /** After a reply the thread the screen tracked is found again by its client, and the
      thread found is again tracked. */
  lemma RefindAfterReply(cs: seq<Conversation>, conv: Conversation, viewer: Profile, text: string, now: nat)
    requires RegistryInvariant(cs) && Tracks(cs, conv)
    ensures var r := StaffReply(cs, conv, viewer, text, now);
      && RegistryInvariant(r)
      && ByClient(r, conv.clientId).Some?
      && Tracks(r, ByClient(r, conv.clientId).value)
  {
    var j := IndexOfId(cs, conv.id).value;
    StaffReplyEffect(cs, conv, viewer, text, now, j);
    var r := StaffReply(cs, conv, viewer, text, now);
    assert r[j].clientId == conv.clientId;
    var k := FirstIndex(r, (c: Conversation) => c.clientId == conv.clientId).value;
    IndexOfOwnId(r, k);
  }

  class ClientDetailPage {
    /** The module-level registry the screen reads and writes. */
    const registry: ConversationRegistry
    /** The `:id` route parameter, when present. */
    const routeClientId: Option<UserId>
    /** `useAuth().user`. */
    const viewer: Option<Profile>
    /** The `conversation` state cell: the screen's copy of the client's thread. */
    var conversation: Option<Conversation>
    /** The `newMessage` state cell. */
    var draft: string

    predicate Valid()
      reads this, registry
    {
      && registry.Valid()
      && (conversation.Some? ==>
            && routeClientId == Some(conversation.value.clientId)
            && Tracks(registry.conversations, conversation.value))
    }

    /** Mounting: no conversation yet and an empty draft. */
    constructor (registry: ConversationRegistry, routeClientId: Option<UserId>, viewer: Option<Profile>)
      requires registry.Valid()
      ensures Valid()
      ensures this.registry == registry && this.routeClientId == routeClientId && this.viewer == viewer
      ensures conversation.None? && draft == ""
    {
      this.registry := registry;
      this.routeClientId := routeClientId;
      this.viewer := viewer;
      conversation := None;
      draft := "";
    }

    /** The effect on `[id]`: look the thread up by the route's client id; nothing is created here. */
    method Load()
      requires Valid()
      modifies this
      ensures Valid()
      ensures draft == old(draft)
      ensures routeClientId.Some? ==> conversation == ByClient(registry.conversations, routeClientId.value)
      ensures routeClientId.None? ==> conversation == old(conversation)
    {
      if routeClientId.Some? {
        conversation := ByClient(registry.conversations, routeClientId.value);
        if conversation.Some? {
          ghost var k := FirstIndex(registry.conversations, (c: Conversation) => c.clientId == routeClientId.value);
          IndexOfOwnId(registry.conversations, k.value);
        }
      }
    }

    /** The input's `onChange`. */
    method Edit(text: string)
      requires Valid()
      modifies this
      ensures Valid()
      ensures draft == text && conversation == old(conversation)
    {
      draft := text;
    }

    /** The registry calls of `handleSendMessage`, in their order. */
    method Reply(conv: Conversation, me: Profile, text: string, now: nat)
      requires registry.Valid()
      modifies registry
      ensures registry.Valid()
      ensures registry.conversations == StaffReply(old(registry.conversations), conv, me, text, now)
    {
      if conv.status == Unassigned {
        registry.Claim(conv.id, me.id, me.fullName);
        registry.AddMessage(conv.id, ClaimNotice(now), now);
      }
      registry.AddMessage(conv.id, StaffMessage(me, text, now), now);
    }

    /** `handleSendMessage`; every `new Date()` in it is the instant `now`. A blank draft,
        a missing conversation or a missing user makes it a no-op. Otherwise the registry
        receives the staff reply, the draft is cleared and the screen re-reads the thread,
        which is always found again. */
    method Send(now: nat)
      requires Valid()
      modifies this, registry
      ensures Valid()
      ensures Trim(old(draft)) == "" || old(conversation).None? || viewer.None? ==>
        && registry.conversations == old(registry.conversations)
        && draft == old(draft) && conversation == old(conversation)
      ensures !(Trim(old(draft)) == "" || old(conversation).None? || viewer.None?) ==>
        && registry.conversations == StaffReply(old(registry.conversations), old(conversation).value, viewer.value, old(draft), now)
        && draft == ""
        && conversation.Some?
        && conversation == ByClient(registry.conversations, routeClientId.value)
    {
      if Trim(draft) == "" || conversation.None? || viewer.None? {
        return;
      }
      var conv := conversation.value;
      var me := viewer.value;
      ghost var before := registry.conversations;
      RefindAfterReply(before, conv, me, draft, now);
      Reply(conv, me, draft, now);
      draft := "";
      conversation := ByClient(registry.conversations, routeClientId.value);
    }
  }
}
