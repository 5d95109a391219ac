/** The test chat page's state hook
    (src/app/test/test_ai_chat_ui/hooks/useChatState.ts). Its sidebar,
    selection and creation transitions are those of the chat page's hook;
    it differs in its initial state, which is read once from storage, and
    in its error and feedback updates, which also rewrite the current
    session. */
module ChatUiHook {
  import opened Text
  import opened EventStream
  import opened ClientStream
  import CH = ChatHook

  /** The initial state: on the server, or with nothing stored, the guest
      state; otherwise the stored state with its first session current. */
  function InitialState(inBrowser: bool, stored: Option<CH.State>): (r: CH.State)
    ensures !inBrowser || stored.None? ==> r == CH.InitialState
    ensures inBrowser && stored.Some? ==>
      && r.sessions == stored.value.sessions && r.user == stored.value.user
      && r.isSidebarExpanded == stored.value.isSidebarExpanded
      && r.currentSession == (if stored.value.sessions != [] then Some(stored.value.sessions[0]) else None)
  {
    if inBrowser && stored.Some? then CH.Restored(stored.value) else CH.InitialState
  }

  /** The guest state has no session, no current session and an expanded
      sidebar. */
  lemma GuestStateIsEmpty()
    ensures InitialState(false, None).sessions == [] && InitialState(false, None).currentSession.None?
    ensures InitialState(false, None).isSidebarExpanded
  {
  }

  /** The error update of this hook: the assistant message gets the error
      text in `sessions` and in the current session. */
  function ErrorUpdate(s: CH.State, sid: string, mid: string): (r: CH.State)
    ensures r.sessions == CH.SetContentIn(s.sessions, sid, mid, CH.ErrorReply)
    ensures s.currentSession.Some? && s.currentSession.value.id == sid ==>
      r.currentSession == Some(s.currentSession.value.(messages := CH.SetContent(s.currentSession.value.messages, mid, CH.ErrorReply)))
    ensures !(s.currentSession.Some? && s.currentSession.value.id == sid) ==> r.currentSession == s.currentSession
    ensures r.user == s.user && r.isSidebarExpanded == s.isSidebarExpanded
  {
    CH.StreamUpdate(s, sid, mid, CH.ErrorReply)
  }

  /** Unlike the chat page's hook, this hook shows the error in the current
      session: the two agree on `sessions` and differ on the current
      session exactly when its assistant message did not already hold the
      error text. */
  lemma ErrorUpdatesCompared(s: CH.State, sid: string, mid: string)
    ensures ErrorUpdate(s, sid, mid).sessions == CH.ErrorUpdate(s, sid, mid).sessions
    ensures CH.ErrorUpdate(s, sid, mid).currentSession == s.currentSession
    ensures s.currentSession.Some? && s.currentSession.value.id == sid ==>
      forall k :: 0 <= k < |s.currentSession.value.messages| && s.currentSession.value.messages[k].id == mid ==>
        ErrorUpdate(s, sid, mid).currentSession.value.messages[k].content == CH.ErrorReply
  {
  }

  /** `updateMessageFeedback(messageId, feedback)` of this hook: the current
      session with the feedback merged replaces its entry in `sessions` and
      is made current again. */
  function UpdateMessageFeedback(s: CH.State, messageId: string, given: CH.Feedback): (r: CH.State)
    ensures s.currentSession.None? ==> r == s
    ensures s.currentSession.Some? ==>
      var u := s.currentSession.value.(messages := CH.SetFeedback(s.currentSession.value.messages, messageId, given));
      r.currentSession == Some(u) && r.sessions == CH.ReplaceById(s.sessions, u)
    ensures r.user == s.user && r.isSidebarExpanded == s.isSidebarExpanded
  {
    if s.currentSession.None? then s
    else
      var u := s.currentSession.value.(messages := CH.SetFeedback(s.currentSession.value.messages, messageId, given));
      s.(sessions := CH.ReplaceById(s.sessions, u), currentSession := Some(u))
  }

  /** After a feedback update, every entry of `sessions` with the current
      session's id is the current session: the list and the current session
      agree. */
  lemma FeedbackKeepsCurrentInList(s: CH.State, messageId: string, given: CH.Feedback)
    requires s.currentSession.Some?
    ensures var r := UpdateMessageFeedback(s, messageId, given);
      forall k :: 0 <= k < |r.sessions| && r.sessions[k].id == s.currentSession.value.id ==>
        r.sessions[k] == r.currentSession.value
  {
  }

  class Hook {
    const parse: FrameParser
    var state: CH.State

    constructor (parse: FrameParser, inBrowser: bool, stored: Option<CH.State>)
      ensures this.parse == parse && state == InitialState(inBrowser, stored)
    {
      this.parse := parse;
      state := InitialState(inBrowser, stored);
    }

    /** `sendMessage(content)`: as in the chat page's hook, except that a
        failure sets the error text in both `sessions` and the current
        session. */
    method SendMessage(content: string, userId: string, assistantId: string, time: CH.Readings, fetch: Fetch)
      returns (prompt: Option<string>)
      modifies this
      ensures old(state).currentSession.None? ==> state == old(state) && prompt.None?
      ensures old(state).currentSession.Some? ==>
        var u := CH.Opened(old(state).currentSession.value, content, userId, assistantId, time);
        var shown := old(state).(sessions := CH.ReplaceById(old(state).sessions, u), currentSession := Some(u));
        var acc := if fetch.Body? then Accumulated(ChunkLines(fetch.chunks), CH.StreamTextOf(parse)) else "";
        var streamed := CH.Streamed(shown, u.id, assistantId, acc);
        && prompt == Some(content)
        && state == if fetch.Body? && !fetch.broken then streamed else ErrorUpdate(streamed, u.id, assistantId)
    {
      prompt := None;
      if state.currentSession.None? {
        return;
      }
      var u := CH.Opened(state.currentSession.value, content, userId, assistantId, time);
      state := state.(sessions := CH.ReplaceById(state.sessions, u), currentSession := Some(u));
      prompt := Some(content);
      var streamed := state;
      if fetch.Body? {
        var acc;
        streamed, acc := CH.ReadStream(state, u.id, assistantId, fetch.chunks, parse);
      }
      state := if fetch.Body? && !fetch.broken then streamed else ErrorUpdate(streamed, u.id, assistantId);
    }
  }
}
