/**
 * The per-session state the page scripts keep in `st.session_state`: a
 * session identifier set on the first run, and the chat transcript, created
 * empty on the first run. Each run of the page while the text box is
 * non-empty appends one exchange to the transcript.
 */
module Session {
  import opened Wrappers
  import ReferenceData
  import ChatBot

  datatype Role = User | Bot

  /** One transcript entry, `{"role": ..., "content": ...}`. */
  datatype ChatEntry = ChatEntry(role: Role, content: string)

  /** What one run of the chat block did with the text-box contents. */
  datatype Turn =
    | NoInput                     // the box was empty: nothing was asked
    | Answered(reply: string)     // the reply was computed and both entries appended
    | Raised(error: KeyError)     // the reply raised; the run stopped before appending

  /** `if key not in st.session_state: st.session_state[key] = v` on one slot. */
  function InitOnce<T>(slot: Option<T>, v: T): (r: Option<T>)
    ensures r.Some?
  {
    if slot.None? then Some(v) else slot
  }

  /** A slot is set at most once: later runs keep what the first one stored. */
  lemma InitOnceKeeps<T>(slot: Option<T>, v: T, w: T)
    ensures InitOnce(InitOnce(slot, v), w) == InitOnce(slot, v)
    ensures slot.Some? ==> InitOnce(slot, w) == slot
    ensures slot.None? ==> InitOnce(slot, v) == Some(v)
  {
  }

  /** Entries alternate user, bot, user, bot, ... and end with a bot entry. */
  ghost predicate Alternating(h: seq<ChatEntry>)
  {
    |h| % 2 == 0 && forall i :: 0 <= i < |h| ==> (h[i].role == User <==> i % 2 == 0)
  }

  /** Appending one exchange, user first, keeps the transcript alternating. */
  lemma AlternatingAppend(h: seq<ChatEntry>, question: string, reply: string)
    requires Alternating(h)
    ensures Alternating(h + [ChatEntry(User, question), ChatEntry(Bot, reply)])
  {
  }

  class SessionState {
    /** `st.session_state.guid`, absent until the first run sets it. */
    var guid: Option<string>
    /** `st.session_state.chat_history`, absent until the first run creates it. */
    var chatHistory: Option<seq<ChatEntry>>

    ghost predicate Valid()
      reads this
    {
      chatHistory.Some? ==> Alternating(chatHistory.value)
    }

    /** A new browser session holds neither key. */
    constructor ()
      ensures Valid()
      ensures guid == None && chatHistory == None
    {
      guid := None;
      chatHistory := None;
    }

    /** Sets the session identifier to `generated` only when none is stored yet. */
    method InitGuid(generated: string)
      requires Valid()
      modifies this`guid
      ensures Valid()
      ensures guid == InitOnce(old(guid), generated)
      ensures old(guid).Some? ==> guid == old(guid)
      ensures chatHistory == old(chatHistory)
    {
      if guid.None? {
        guid := Some(generated);
      }
    }

    /** Creates an empty transcript only when none is stored yet. */
    method InitHistory()
      requires Valid()
      modifies this`chatHistory
      ensures Valid()
      ensures chatHistory == InitOnce(old(chatHistory), [])
      ensures old(chatHistory).Some? ==> chatHistory == old(chatHistory)
      ensures guid == old(guid)
    {
      if chatHistory.None? {
        chatHistory := Some([]);
      }
    }

    /**
     * Handles the text-box contents: a non-empty message appends the user
     * entry and then the bot entry; an empty one, or a reply that raises,
     * leaves the transcript as it was.
     */
    method Submit(userInput: string, state: string, season: string,
                  index: ReferenceData.RegionIndex) returns (turn: Turn)
      requires Valid() && chatHistory.Some?
      modifies this`chatHistory
      ensures Valid() && chatHistory.Some?
      ensures guid == old(guid)
      ensures userInput == "" ==> turn == NoInput && chatHistory == old(chatHistory)
      ensures userInput != "" ==>
        match ChatBot.BotReply(userInput, state, season, index)
        case Success(reply) =>
          turn == Answered(reply) &&
          chatHistory == Some(old(chatHistory).value +
                              [ChatEntry(User, userInput), ChatEntry(Bot, reply)])
        case Failure(e) => turn == Raised(e) && chatHistory == old(chatHistory)
    {
      if userInput == "" {
        return NoInput;
      }
      match ChatBot.BotReply(userInput, state, season, index)
      case Failure(e) =>
        return Raised(e);
      case Success(reply) =>
        var h := chatHistory.value;
        AlternatingAppend(h, userInput, reply);
        chatHistory := Some(h + [ChatEntry(User, userInput)]);
        chatHistory := Some(chatHistory.value + [ChatEntry(Bot, reply)]);
        assert chatHistory.value == h + [ChatEntry(User, userInput), ChatEntry(Bot, reply)];
        return Answered(reply);
    }
  }
}
