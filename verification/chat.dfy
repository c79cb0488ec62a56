/**
  The chat record: a new chat, the title taken from the first user message,
  and hashing by id.  `UUID()` and `Date()` are the parameters `id` and `now`.
 */
module Chats {
  import opened Wrappers
  import opened Text
  import opened ChatMessages
  import opened Participants
  import opened SharedLinks

  datatype Chat = Chat(
    id: string,
    title: string,
    userId: string,
    projectId: Option<string>,
    messages: seq<Message>,
    createdAt: int,
    updatedAt: int,
    participants: Option<seq<ChatParticipant>>,
    sharedLinks: Option<seq<SharedLink>>)

  const NewChatTitle: string := "New Chat"

  /** Longest title kept whole; longer contents are cut to this many characters plus "...". */
  const MaxTitleLength: nat := 30

  /** `createNewChat()`: an empty chat titled "New Chat" whose user id the server fills in later. */
  function CreateNewChat(id: string, now: int): (c: Chat)
    ensures c.id == id && c.title == NewChatTitle && c.userId == ""
    ensures c.projectId.None? && c.messages == []
    ensures c.createdAt == now && c.updatedAt == now
    ensures c.participants.None? && c.sharedLinks.None?
  {
    Chat(id, NewChatTitle, "", None, [], now, now, None, None)
  }

  /** `messages.first(where: { $0.type == .user })`. */
  function FirstUserMessage(messages: seq<Message>): (r: Option<Message>)
    ensures r.None? <==> forall i :: 0 <= i < |messages| ==> messages[i].kind != User
    ensures r.Some? ==> exists i :: 0 <= i < |messages| && messages[i] == r.value && messages[i].kind == User &&
                                    forall j :: 0 <= j < i ==> messages[j].kind != User
  {
    if messages == [] then None
    else if messages[0].kind == User then Some(messages[0])
    else
      var r := FirstUserMessage(messages[1..]);
      assert forall i :: 1 <= i < |messages| ==> messages[i] == messages[1..][i - 1];
      r
  }

  /** The title derived from a message's content. */
  function TitleFrom(content: string): (title: string)
    ensures |content| <= MaxTitleLength ==> title == content
    ensures |content| > MaxTitleLength ==>
              |title| == MaxTitleLength + 3 && title[..MaxTitleLength] == content[..MaxTitleLength] &&
              title[MaxTitleLength..] == "..."
    ensures |title| <= MaxTitleLength + 3
  {
    if |content| > MaxTitleLength then Prefix(content, MaxTitleLength) + "..." else content
  }

  /**
    `updateTitleFromContent()`: only a chat still titled "New Chat" that holds
    a user message gets a new title, taken from its first user message.
    Nothing but the title ever changes.
   */
  function UpdateTitleFromContent(c: Chat): (r: Chat)
    ensures r == c.(title := r.title)
    ensures c.title != NewChatTitle || FirstUserMessage(c.messages).None? ==> r == c
    ensures c.title == NewChatTitle && FirstUserMessage(c.messages).Some? ==>
              r.title == TitleFrom(FirstUserMessage(c.messages).value.content)
  {
    match FirstUserMessage(c.messages)
    case Some(m) => if c.title == NewChatTitle then c.(title := TitleFrom(m.content)) else c
    case None => c
  }

  /**
    Deriving the title twice is the same as deriving it once: a cut title is
    longer than "New Chat", and a whole one is "New Chat" again only when the
    content was "New Chat".
   */
  lemma UpdateTitleIdempotent(c: Chat)
    ensures UpdateTitleFromContent(UpdateTitleFromContent(c)) == UpdateTitleFromContent(c)
  {
    var r := UpdateTitleFromContent(c);
    var first := FirstUserMessage(c.messages);
    if c.title == NewChatTitle && first.Some? && r.title == NewChatTitle {
      var content := first.value.content;
      assert |content| <= MaxTitleLength by {
        assert |NewChatTitle| < MaxTitleLength + 3;
      }
      assert r.title == content;
    }
  }

  /** A freshly created chat has no user message, so its title stays "New Chat". */
  lemma NewChatKeepsTitle(id: string, now: int)
    ensures UpdateTitleFromContent(CreateNewChat(id, now)).title == NewChatTitle
  {
  }

  /** The hash combines only the id. */
  function Hash(c: Chat, hasher: string -> int): int
  {
    hasher(c.id)
  }

  /** Retitling never changes a chat's hash, and chats with one id hash alike. */
  lemma HashOnlyId(a: Chat, b: Chat, hasher: string -> int)
    requires a.id == b.id
    ensures Hash(a, hasher) == Hash(b, hasher)
    ensures Hash(UpdateTitleFromContent(a), hasher) == Hash(a, hasher)
  {
  }
}
