/** The messages page: the selected thread, the thread's log and the send
    box. The page is mounted afresh each time it is opened, so its initial
    selection is taken from the thread list at that moment. */
module ChatPage {
  import opened Seqs
  import opened Types
  import opened NotificationContext
  import opened DataContext
  import opened App

  /** The characters the string trimming of JavaScript removes: the white
      space and line terminator code points. */
  predicate IsJsSpace(c: char)
  {
    || c == '\U{9}' || c == '\U{A}' || c == '\U{B}' || c == '\U{C}' || c == '\U{D}'
    || c == '\U{20}' || c == '\U{A0}' || c == '\U{1680}'
    || ('\U{2000}' <= c <= '\U{200A}')
    || c == '\U{2028}' || c == '\U{2029}' || c == '\U{202F}' || c == '\U{205F}'
    || c == '\U{3000}' || c == '\U{FEFF}'
  }

  /** Leading white space removed: what is left is a suffix of `s` that
      does not start with white space, and everything cut off was white
      space. */
  function TrimStart(s: string): (r: string)
    ensures |r| <= |s| && r == s[|s| - |r|..]
    ensures r != [] ==> !IsJsSpace(r[0])
    ensures forall i :: 0 <= i < |s| - |r| ==> IsJsSpace(s[i])
  {
    if s != [] && IsJsSpace(s[0]) then
      var r := TrimStart(s[1..]);
      assert s[1..][|s[1..]| - |r|..] == s[|s| - |r|..];
      r
    else s
  }

  /** Trailing white space removed: what is left is a prefix of `s` that
      does not end with white space, and everything cut off was white
      space. */
  function TrimEnd(s: string): (r: string)
    ensures |r| <= |s| && r == s[..|r|]
    ensures r != [] ==> !IsJsSpace(r[|r| - 1])
    ensures forall i :: |r| <= i < |s| ==> IsJsSpace(s[i])
  {
    if s != [] && IsJsSpace(s[|s| - 1]) then
      var r := TrimEnd(s[..|s| - 1]);
      assert s[..|s| - 1][..|r|] == s[..|r|];
      r
    else s
  }

  /** White space removed from both ends: what is left is the piece of `s`
      that starts where its leading white space ends, everything after it
      is white space, and it neither starts nor ends with white space. */
  function Trim(s: string): (r: string)
    ensures |r| <= |s|
    ensures r != [] ==> !IsJsSpace(r[0]) && !IsJsSpace(r[|r| - 1])
    ensures |s| - |TrimStart(s)| + |r| <= |s|
    ensures forall i :: 0 <= i < |r| ==> r[i] == s[|s| - |TrimStart(s)| + i]
    ensures forall i :: |s| - |TrimStart(s)| + |r| <= i < |s| ==> IsJsSpace(s[i])
  {
    TrimEnd(TrimStart(s))
  }

  /** Trimming leaves nothing exactly when the text is white space only. */
  lemma TrimEmptyIff(s: string)
    ensures Trim(s) == "" <==> forall i :: 0 <= i < |s| ==> IsJsSpace(s[i])
  {
    var t := TrimStart(s);
    assert t != [] ==> t[0] == s[|s| - |t|];
    assert forall i :: |s| - |t| <= i < |s| ==> s[i] == t[i - (|s| - |t|)];
  }

  class ChatView {
    var selectedChatId: Option<string>
    var inputText: string

    /** Opening the page selects the first thread, if there is one. */
    constructor (chats: seq<Chat>)
      ensures selectedChatId == if |chats| > 0 then Some(chats[0].id) else None
      ensures inputText == ""
    {
      selectedChatId := if |chats| > 0 then Some(chats[0].id) else None;
      inputText := "";
    }

    method Select(chatId: Option<string>)
      modifies this
      ensures selectedChatId == chatId && inputText == old(inputText)
    {
      selectedChatId := chatId;
    }

    method Type(text: string)
      modifies this
      ensures inputText == text && selectedChatId == old(selectedChatId)
    {
      inputText := text;
    }

    /** The thread shown in the header: the first with the selected id. */
    function ActiveChat(chats: seq<Chat>): (r: Option<Chat>)
      reads this
      ensures r.Some? ==> r.value in chats && selectedChatId == Some(r.value.id)
      ensures r.Some? ==> exists i :: 0 <= i < |chats| && chats[i] == r.value && forall j :: 0 <= j < i ==> chats[j].id != r.value.id
      ensures r.None? <==> selectedChatId.None? || forall i :: 0 <= i < |chats| ==> chats[i].id != selectedChatId.value
    {
      match selectedChatId
      case None => None
      case Some(id) => Find(chats, (c: Chat) => c.id == id)
    }

    /** The selected thread's log: empty when nothing (or the empty id) is
        selected, or when the id has no log. */
    function ActiveMessages(messages: map<string, seq<Message>>): (r: seq<Message>)
      reads this
      ensures !Present(selectedChatId) ==> r == []
      ensures Present(selectedChatId) ==> r == LogOf(messages, selectedChatId.value)
      ensures Present(selectedChatId) && selectedChatId.value !in messages ==> r == []
    {
      if Present(selectedChatId) then LogOf(messages, selectedChatId.value) else []
    }

    /** The send button. White-space-only text, or no selected thread, does
        nothing; otherwise the text as typed (not trimmed) is sent to the
        selected thread and the box is cleared. */
    method HandleSend(data: DataStore, now: nat, clock: string) returns (sent: bool)
      requires data.Valid()
      modifies this, data
      ensures data.Valid()
      ensures sent <==> Trim(old(inputText)) != "" && Present(old(selectedChatId))
      ensures !sent ==>
                inputText == old(inputText) && data.messages == old(data.messages) &&
                data.chats == old(data.chats) && data.pending == old(data.pending)
      ensures sent ==>
                var id := old(selectedChatId).value;
                var m := Message(Stamp(now), old(inputText), Me, clock, false);
                inputText == "" &&
                data.messages == Appended(old(data.messages), id, m) &&
                data.chats == WithPreview(old(data.chats), id, old(inputText)) &&
                data.pending == old(data.pending) + [Reply(id)] &&
                ActiveMessages(data.messages) == old(ActiveMessages(data.messages)) + [m]
      ensures selectedChatId == old(selectedChatId)
      ensures data.ads == old(data.ads) && data.users == old(data.users)
      ensures data.favorites == old(data.favorites)
    {
      if Trim(inputText) == "" || !Present(selectedChatId) {
        return false;
      }
      data.SendMessage(selectedChatId.value, inputText, now, clock);
      inputText := "";
      sent := true;
    }
  }

  /** Starting a conversation about an ad with a seller, then opening the
      messages page. The page selects the first thread of the list, not the
      one the button found or made. A seller without a thread gets a new
      thread in first place, so it is shown, with an empty log. A seller
      whose thread is already first is shown that thread. A seller whose
      thread is further down is not shown it: the first thread is shown,
      and it belongs to someone else. */
  method OpenSellerThread(data: DataStore, adId: string, sellerName: string, now: nat)
    returns (view: ChatView)
    requires data.Valid()
    modifies data
    ensures data.Valid()
    ensures fresh(view)
    ensures |data.chats| > 0 && view.selectedChatId == Some(data.chats[0].id)
    ensures view.ActiveChat(data.chats) == Some(data.chats[0])
    ensures ChatNamed(old(data.chats), sellerName) < 0 ==>
              view.selectedChatId == Some(Stamp(now)) &&
              view.ActiveChat(data.chats).value.userName == sellerName &&
              view.ActiveMessages(data.messages) == []
    ensures ChatNamed(old(data.chats), sellerName) >= 0 ==>
              data.chats == old(data.chats) && data.messages == old(data.messages)
    ensures ChatNamed(old(data.chats), sellerName) == 0 ==>
              view.ActiveChat(data.chats).value.userName == sellerName
    ensures ChatNamed(old(data.chats), sellerName) > 0 ==>
              view.ActiveChat(data.chats).value.userName != sellerName
  {
    var chatId := data.CreateChat(adId, sellerName, now);
    view := new ChatView(data.chats);
    var active := view.ActiveChat(data.chats);
    ghost var i :| 0 <= i < |data.chats| && data.chats[i] == active.value &&
             forall j :: 0 <= j < i ==> data.chats[j].id != active.value.id;
    assert i == 0;
  }
}
