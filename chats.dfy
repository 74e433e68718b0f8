/**
 * The chats page: selecting a conversation clears its unread count, sending
 * appends a doctor's message and updates the conversation's preview, the
 * search box filters by patient name, and the time label buckets by hours.
 * Timestamps are milliseconds; the clock is a parameter.
 */
module Chats {
  import opened Wrappers
  import opened Text
  import opened Seqs

  datatype Chat = Chat(id: string, lastMessage: string, lastMessageAt: int, unread: int, patientName: string)

  datatype Message = Message(id: string, content: string, senderType: string, createdAt: int)

  const HourMs := 1000 * 60 * 60

  /** `handleSelectChat`'s map: the selected conversation's unread count drops to zero, nothing else changes. */
  function ResetUnread(chats: seq<Chat>, id: string): (r: seq<Chat>)
    ensures |r| == |chats|
    ensures forall i :: 0 <= i < |chats| ==>
      r[i] == if chats[i].id == id then chats[i].(unread := 0) else chats[i]
  {
    UpdateWhere(chats, (c: Chat) => c.id == id, (c: Chat) => c.(unread := 0))
  }

  /** Selecting the same conversation twice is the same as selecting it once. */
  lemma ResetUnreadIdempotent(chats: seq<Chat>, id: string)
    ensures ResetUnread(ResetUnread(chats, id), id) == ResetUnread(chats, id)
  {
  }

  /** After a selection, the selected conversation has nothing unread and every other keeps its count. */
  lemma ResetUnreadCounts(chats: seq<Chat>, id: string)
    ensures var r := ResetUnread(chats, id);
      forall i :: 0 <= i < |r| ==> (r[i].id == id ==> r[i].unread == 0) && (r[i].id != id ==> r[i].unread == chats[i].unread)
  {
  }

  /** `sendMessage`'s map: the selected conversation shows the new message and time. */
  function WithLastMessage(chats: seq<Chat>, id: string, text: string, at: int): (r: seq<Chat>)
    ensures |r| == |chats|
    ensures forall i :: 0 <= i < |chats| ==>
      r[i] == if chats[i].id == id then chats[i].(lastMessage := text, lastMessageAt := at) else chats[i]
  {
    UpdateWhere(chats, (c: Chat) => c.id == id, (c: Chat) => c.(lastMessage := text, lastMessageAt := at))
  }

  /** The search predicate: the lower-cased patient name contains the lower-cased term. */
  function NameMatches(term: string): Chat -> bool {
    (c: Chat) => Contains(ToLower(c.patientName), ToLower(term))
  }

  /** `filteredChats`: the conversations whose patient name matches, in their order. */
  function FilterChats(chats: seq<Chat>, term: string): (r: seq<Chat>)
    ensures forall c :: c in r <==> c in chats && NameMatches(term)(c)
  {
    Filter(chats, NameMatches(term))
  }

  /** An empty search box shows every conversation. */
  lemma EmptySearchKeepsAll(chats: seq<Chat>)
    ensures FilterChats(chats, "") == chats
  {
    forall c | c in chats
      ensures NameMatches("")(c)
    {
      assert StartsWith(ToLower(c.patientName), ToLower(""));
    }
    FilterKeepsAll(chats, NameMatches(""));
  }

  /** The three forms `formatTime` gives a conversation's time. */
  datatype TimeLabel = ClockTime | Yesterday | ShortDate

  /**
   * `formatTime` on `diff = now - then`: whole hours, rounded down, below 24
   * show the clock time, below 48 "Yesterday", and older ones the date.
   */
  function ChatTimeLabel(diff: int): (l: TimeLabel)
    ensures l == ClockTime <==> diff < 24 * HourMs
    ensures l == Yesterday <==> 24 * HourMs <= diff < 48 * HourMs
    ensures l == ShortDate <==> diff >= 48 * HourMs
  {
    var hours := diff / HourMs;
    if hours < 24 then ClockTime
    else if hours < 48 then Yesterday
    else ShortDate
  }

  /** `sampleMessages[chat.id] || []`: the stored history of a conversation, empty when none is stored. */
  function MessagesFor(history: map<string, seq<Message>>, id: string): (r: seq<Message>)
    ensures id in history ==> r == history[id]
    ensures id !in history ==> r == []
  {
    if id in history then history[id] else []
  }

  /** The chats page's state. */
  class ChatsPage {
    var chats: seq<Chat>
    var selected: Option<Chat>
    var messages: seq<Message>
    var newMessage: string
    var searchTerm: string

    /** The first conversation is selected and its history shown. */
    constructor(sample: seq<Chat>, history: map<string, seq<Message>>)
      ensures chats == sample && newMessage == "" && searchTerm == ""
      ensures sample == [] ==> selected == None && messages == []
      ensures sample != [] ==> selected == Some(sample[0]) && messages == MessagesFor(history, sample[0].id)
    {
      chats := sample;
      if sample == [] {
        selected := None;
        messages := [];
      } else {
        selected := Some(sample[0]);
        messages := MessagesFor(history, sample[0].id);
      }
      newMessage := "";
      searchTerm := "";
    }

    /** The conversations the list shows. */
    function Shown(): seq<Chat>
      reads this
    {
      FilterChats(chats, searchTerm)
    }

    /** `handleSelectChat`: the chat is selected, its history loaded and its unread count cleared. */
    method SelectChat(chat: Chat, history: map<string, seq<Message>>)
      modifies this
      ensures selected == Some(chat) && messages == MessagesFor(history, chat.id)
      ensures chats == ResetUnread(old(chats), chat.id)
      ensures newMessage == old(newMessage) && searchTerm == old(searchTerm)
    {
      selected := Some(chat);
      messages := MessagesFor(history, chat.id);
      chats := ResetUnread(chats, chat.id);
    }

    /**
     * `sendMessage`: nothing without a selected chat or with a blank draft;
     * otherwise the trimmed draft is appended as the doctor's message, the
     * draft is cleared and the conversation's preview updated.
     */
    method SendMessage(msgId: string, now: int)
      modifies this
      ensures selected == old(selected) && searchTerm == old(searchTerm)
      ensures old(selected).None? || IsBlank(old(newMessage)) ==>
        messages == old(messages) && chats == old(chats) && newMessage == old(newMessage)
      ensures old(selected).Some? && !IsBlank(old(newMessage)) ==>
        messages == old(messages) + [Message(msgId, Trim(old(newMessage)), "doctor", now)]
        && newMessage == ""
        && chats == WithLastMessage(old(chats), old(selected).value.id, Trim(old(newMessage)), now)
    {
      if selected.None? || IsBlank(newMessage) {
        return;
      }
      var text := Trim(newMessage);
      messages := messages + [Message(msgId, text, "doctor", now)];
      newMessage := "";
      chats := WithLastMessage(chats, selected.value.id, text, now);
    }

    method SetNewMessage(text: string)
      modifies this
      ensures newMessage == text && chats == old(chats) && messages == old(messages)
      ensures selected == old(selected) && searchTerm == old(searchTerm)
    {
      newMessage := text;
    }

    method SetSearchTerm(term: string)
      modifies this
      ensures searchTerm == term && chats == old(chats) && messages == old(messages)
      ensures selected == old(selected) && newMessage == old(newMessage)
    {
      searchTerm := term;
    }
  }
}
