/** The conversation state shared by the request handlers, and the operations that
    save the working buffer, start a new chat and load a stored one. */
module ChatStore {
  import opened Messages
  import opened Indices

  /** One entry of the stored-conversation list: its id and its title. */
  datatype ChatSummary = ChatSummary(chatId: int, title: string)

  /** The ids of a stored-conversation list, in list order. */
  function ChatIds(list: seq<ChatSummary>): seq<int>
  {
    seq(|list|, k requires 0 <= k < |list| => list[k].chatId)
  }

  /** The saved conversations are keyed exactly by 0 .. |hist| - 1. */
  ghost predicate DenseIds(hist: map<int, seq<Msg>>)
  {
    forall k :: k in hist <==> 0 <= k < |hist|
  }

  /** Saving under the next free id keeps the keys dense and grows the map by one. */
  lemma SaveKeepsDenseIds(hist: map<int, seq<Msg>>, buffer: seq<Msg>)
    requires DenseIds(hist)
    ensures |hist[|hist| := buffer]| == |hist| + 1
    ensures DenseIds(hist[|hist| := buffer])
  {
    var n := |hist|;
    assert n !in hist;
    var h := hist[n := buffer];
    assert |h| == n + 1;
    forall k
      ensures k in h <==> 0 <= k < |h|
    {
      assert k in h <==> k in hist || k == n;
    }
  }

  class ChatState {
    /** The working buffer: the messages of the conversation on display. */
    var formattedMsg: seq<Msg>
    /** Saved conversations by id. */
    var hist: map<int, seq<Msg>>
    /** The active conversation's id; None after a new chat is started. */
    var convId: Option<int>
    /** Positions of the user messages in the buffer. */
    var userIdx: seq<int>
    /** Positions where each question's turn ends. */
    var assiIdx: seq<int>

    /** The index lists describe the current buffer. */
    ghost predicate IndicesCurrent()
      reads this
    {
      userIdx == UserPositions(formattedMsg) && assiIdx == GetAssiIdx(userIdx, |formattedMsg|)
    }

    /** The saved conversations are keyed 0 .. |hist| - 1 and the active id is the next one. */
    ghost predicate NextIdFree()
      reads this
    {
      DenseIds(hist) && convId == Some(|hist|)
    }

    /** The start-up state: an empty buffer that is conversation 0. */
    constructor (savedChats: map<int, seq<Msg>>)
      ensures formattedMsg == [] && hist == savedChats && convId == Some(0)
      ensures userIdx == [] && assiIdx == []
    {
      formattedMsg := [];
      hist := savedChats;
      convId := Some(0);
      userIdx := [];
      assiIdx := [];
    }

    /** Stores a non-empty buffer under the active id, moves the active id to the size
        of the store and empties the buffer. An empty buffer changes nothing. */
    method SaveMsg()
      requires convId.Some?
      modifies this
      ensures old(formattedMsg) == [] ==> unchanged(this)
      ensures old(formattedMsg) != [] ==>
        && hist == old(hist)[old(convId.value) := old(formattedMsg)]
        && convId == Some(|hist|)
        && formattedMsg == []
        && userIdx == old(userIdx) && assiIdx == old(assiIdx)
      ensures old(NextIdFree()) ==> NextIdFree()
    {
      if |formattedMsg| <= 0 {
        return;
      }
      if NextIdFree() {
        SaveKeepsDenseIds(hist, formattedMsg);
      }
      hist := hist[convId.value := formattedMsg];
      convId := Some(|hist|);
      formattedMsg := [];
    }

    /** Starting a new chat only forgets the active id; the buffer is kept. */
    method NewChat()
      modifies this`convId
      ensures convId == None
    {
      convId := None;
    }

    /** Loads stored conversation `cid`, when it is in the freshly fetched list
        `chatList`: the buffer becomes the stored session and both index lists are
        recomputed from it. An unknown id falls back to starting a new chat.
        `loadSession` is the store's session loader. */
    method LoadChat(cid: int, chatList: seq<ChatSummary>, loadSession: int -> seq<Msg>)
      modifies this
      ensures cid !in ChatIds(chatList) ==>
        && convId == None
        && formattedMsg == old(formattedMsg) && hist == old(hist)
        && userIdx == old(userIdx) && assiIdx == old(assiIdx)
      ensures cid in ChatIds(chatList) ==>
        && convId == Some(cid)
        && formattedMsg == loadSession(cid)
        && hist == old(hist)
        && IndicesCurrent()
    {
      var chatIds := ChatIds(chatList);
      if cid !in chatIds {
        NewChat();
        return;
      }
      convId := Some(cid);
      formattedMsg := loadSession(cid);
      userIdx := GetUserIdx(formattedMsg);
      assiIdx := GetAssiIdx(userIdx, |formattedMsg|);
    }
  }
}
