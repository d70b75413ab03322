/** The client's own messaging screen (src/pages/ClientPortal.tsx): the client's
    thread is found or created on load, and the client appends to it. */
module ClientPortal {
  import opened Wrappers
  import opened Types
  import opened Seqs
  import opened Text
  import opened MockData

  /** The message a client sends: no encryption flag. */
  function ClientMessage(viewer: Profile, text: string, now: nat): Draft
  {
    Draft(FromClient, text, viewer.fullName, now, false)
  }

  /** The find-or-create both the load effect and the post-send refresh make for the viewer. */
  function OwnThread(cs: seq<Conversation>, viewer: Profile, now: nat): Lookup
  {
    FindOrCreateResult(cs, viewer.id, viewer.fullName, Initials(viewer.fullName), now)
  }

  /** Loading the portal gives the client exactly one conversation when it had none, and
      loading it again adds nothing and returns the same conversation. */
  lemma RepeatedLoadsAddNothing(cs: seq<Conversation>, viewer: Profile, now1: nat, now2: nat)
    ensures var first := OwnThread(cs, viewer, now1);
      && OwnThread(first.registry, viewer, now2) == first
      && first.conversation.clientId == viewer.id
      && ((forall j :: 0 <= j < |cs| ==> cs[j].clientId != viewer.id) ==>
            CountForClient(first.registry, viewer.id) == 1 && first.conversation.clientAvatar == Initials(viewer.fullName))
  {
    FindOrCreateIdempotent(cs, viewer.id, viewer.fullName, Initials(viewer.fullName), now1,
                           viewer.fullName, Initials(viewer.fullName), now2);
    if forall j :: 0 <= j < |cs| ==> cs[j].clientId != viewer.id {
      FindOrCreateCreatesOne(cs, viewer.id, viewer.fullName, Initials(viewer.fullName), now1);
    }
  }

  /** A client send appends exactly one unencrypted client message authored by the client,
      whatever the assignment; the refresh finds the thread, so the registry keeps its size
      and nothing else changes. */
  lemma ClientSendEffect(cs: seq<Conversation>, conv: Conversation, viewer: Profile, text: string, now: nat)
    requires RegistryInvariant(cs) && Tracks(cs, conv) && conv.clientId == viewer.id
    ensures var j := IndexOfId(cs, conv.id).value;
      var appended := WithMessage(cs, conv.id, ClientMessage(viewer, text, now), now);
      var refreshed := OwnThread(appended, viewer, now);
      && RegistryInvariant(appended)
      && refreshed.registry == appended
      && |appended| == |cs|
      && (forall k :: 0 <= k < |cs| && k != j ==> appended[k] == cs[k])
      && appended[j].messages == cs[j].messages + [Message(|cs[j].messages| + 1, FromClient, text, viewer.fullName, now, false)]
      && appended[j].status == cs[j].status && appended[j].assigneeId == cs[j].assigneeId
      && Some(refreshed.conversation) == ByClient(appended, viewer.id)
  {
    var j := IndexOfId(cs, conv.id).value;
    var d := ClientMessage(viewer, text, now);
    AppendEffect(cs, conv.id, d, now, j);
    AppendPreservesInvariant(cs, conv.id, d, now);
    var appended := WithMessage(cs, conv.id, d, now);
    assert appended[j].clientId == viewer.id;
    FindOrCreateEffect(appended, viewer.id, viewer.fullName, Initials(viewer.fullName), now);
  }

  class ClientPortalPage {
    /** The module-level registry the screen reads and writes. */
    const registry: ConversationRegistry
    /** `useAuth().user`. */
    const viewer: Option<Profile>
    /** The `conversation` state cell. */
    var conversation: Option<Conversation>
    /** The `newMessage` state cell. */
    var draft: string

    predicate Valid()
      reads this, registry
    {
      && registry.Valid()
      && (conversation.Some? ==>
            && viewer.Some? && conversation.value.clientId == viewer.value.id
            && Tracks(registry.conversations, conversation.value))
    }

    /** Mounting: no conversation yet and an empty draft. */
    constructor (registry: ConversationRegistry, viewer: Option<Profile>)
      requires registry.Valid()
      ensures Valid()
      ensures this.registry == registry && this.viewer == viewer
      ensures conversation.None? && draft == ""
    {
      this.registry := registry;
      this.viewer := viewer;
      conversation := None;
      draft := "";
    }

    /** The effect on `[user]`: find or create the client's thread, avatar = the name's initials. */
    method Load(now: nat)
      requires Valid()
      modifies this, registry
      ensures Valid()
      ensures draft == old(draft)
      ensures viewer.None? ==> conversation == old(conversation) && registry.conversations == old(registry.conversations)
      ensures viewer.Some? ==>
        var r := OwnThread(old(registry.conversations), viewer.value, now);
        registry.conversations == r.registry && conversation == Some(r.conversation)
    {
      if viewer.Some? {
        var me := viewer.value;
        FindOrCreateFindsItself(registry.conversations, me.id, me.fullName, Initials(me.fullName), now);
        FindOrCreatePreservesInvariant(registry.conversations, me.id, me.fullName, Initials(me.fullName), now);
        var c := registry.FindOrCreate(me.id, me.fullName, Initials(me.fullName), now);
        conversation := Some(c);
        ghost var k := FirstIndex(registry.conversations, (x: Conversation) => x.clientId == me.id).value;
        IndexOfOwnId(registry.conversations, k);
      }
    }

    /** The input's `onChange`. */
    method Edit(text: string)
      requires Valid()
      modifies this
      ensures Valid()
      ensures draft == text && conversation == old(conversation)
    {
      draft := text;
    }

    /** `handleSendMessage`; `now` is `new Date()`. A blank draft, a missing conversation or
        a missing user makes it a no-op. Otherwise the message is appended, the draft cleared
        and the thread re-read through find-or-create, which creates nothing. */
    method Send(now: nat)
      requires Valid()
      modifies this, registry
      ensures Valid()
      ensures Trim(old(draft)) == "" || old(conversation).None? || viewer.None? ==>
        && registry.conversations == old(registry.conversations)
        && draft == old(draft) && conversation == old(conversation)
      ensures !(Trim(old(draft)) == "" || old(conversation).None? || viewer.None?) ==>
        && registry.conversations == WithMessage(old(registry.conversations), old(conversation).value.id,
                                                 ClientMessage(viewer.value, old(draft), now), now)
        && |registry.conversations| == |old(registry.conversations)|
        && draft == ""
        && conversation == ByClient(registry.conversations, viewer.value.id)
    {
      if Trim(draft) == "" || conversation.None? || viewer.None? {
        return;
      }
      var conv := conversation.value;
      var me := viewer.value;
      ClientSendEffect(registry.conversations, conv, me, draft, now);
      registry.AddMessage(conv.id, ClientMessage(me, draft, now), now);
      draft := "";
      var c := registry.FindOrCreate(me.id, me.fullName, Initials(me.fullName), now);
      conversation := Some(c);
      ghost var k := FirstIndex(registry.conversations, (x: Conversation) => x.clientId == me.id).value;
      IndexOfOwnId(registry.conversations, k);
    }
  }
}
