/** The chat page's state hook (src/app/chat/hooks/useChatState.ts): the
    user, the sessions, the current session and the sidebar flag, and the
    transitions the page makes on them. Each transition is a function of
    the previous state; `sendMessage` also reads the relay's stream and
    rewrites the assistant message with the text accumulated so far. */
module ChatHook {
  import opened Text
  import opened EventStream
  import opened ClientStream

  datatype Account = Guest | Registered
  datatype UserInfo = UserInfo(id: string, name: string, email: string, account: Account)

  /** A message's feedback; every field may be absent. */
  datatype Feedback = Feedback(liked: Option<bool>, disliked: Option<bool>, reported: Option<bool>, comment: Option<string>)

  datatype Message = Message(id: string, role: Role, content: string, timestamp: string, feedback: Option<Feedback>)
  datatype Session = Session(id: string, title: string, lastMessageTime: string, messages: seq<Message>)
  datatype State = State(user: UserInfo, sessions: seq<Session>, currentSession: Option<Session>, isSidebarExpanded: bool)

  const GuestUser: UserInfo := UserInfo("1", "游客", "guest@example.com", Guest)
  const InitialState: State := State(GuestUser, [], None, true)
  const NewTitle: string := "新对话"
  const ErrorReply: string := "抱歉，发生了错误，请稍后重试。"

  // ---------------------------------------------------------------------
  // the user

  /** The user shown for a signed-in account: the part of the email
      before the first `@` (or '用户' when there is none) and the email
      (or ''). */
  function SignedInUser(id: string, email: Option<string>): (u: UserInfo)
    ensures u.id == id && u.account == Registered
    ensures u.email == (if email.Some? then email.value else "")
    ensures u.name != ""
    ensures email.Some? && Split(email.value, "@")[0] != "" ==> u.name == Split(email.value, "@")[0]
    ensures email.None? || Split(email.value, "@")[0] == "" ==> u.name == "用户"
  {
    var local := if email.Some? then Split(email.value, "@")[0] else "";
    UserInfo(id, if local != "" then local else "用户", if email.Some? then email.value else "", Registered)
  }

  /** The state once the account is known: only the user changes. */
  function WithAccount(s: State, account: Option<(string, Option<string>)>): (r: State)
    ensures r.sessions == s.sessions && r.currentSession == s.currentSession
    ensures r.isSidebarExpanded == s.isSidebarExpanded
    ensures account.None? ==> r.user == GuestUser
    ensures account.Some? ==> r.user.account == Registered && r.user.id == account.value.0
  {
    s.(user := if account.Some? then SignedInUser(account.value.0, account.value.1) else GuestUser)
  }

  /** The state restored from storage: the stored state with its first
      session made current (none when it has no session). */
  function Restored(stored: State): (r: State)
    ensures r.sessions == stored.sessions && r.user == stored.user
    ensures r.isSidebarExpanded == stored.isSidebarExpanded
    ensures r.currentSession.Some? <==> stored.sessions != []
    ensures stored.sessions != [] ==> r.currentSession == Some(stored.sessions[0])
  {
    stored.(currentSession := if stored.sessions != [] then Some(stored.sessions[0]) else None)
  }

  // ---------------------------------------------------------------------
  // sidebar and sessions

  /** `toggleSidebar()`: flips the flag and nothing else. */
  function ToggleSidebar(s: State): (r: State)
    ensures r.isSidebarExpanded == !s.isSidebarExpanded
    ensures r.user == s.user && r.sessions == s.sessions && r.currentSession == s.currentSession
  {
    s.(isSidebarExpanded := !s.isSidebarExpanded)
  }

  /** Toggling twice gives back the state. */
  lemma ToggleTwice(s: State)
    ensures ToggleSidebar(ToggleSidebar(s)) == s
  {
    var t := ToggleSidebar(s);
    assert ToggleSidebar(t).isSidebarExpanded == s.isSidebarExpanded;
  }

  /** The first session with the id (`sessions.find`). */
  function Find(sessions: seq<Session>, id: string): (r: Option<Session>)
    ensures r.Some? ==> r.value in sessions && r.value.id == id
    ensures r.None? <==> forall k :: 0 <= k < |sessions| ==> sessions[k].id != id
    ensures r.Some? ==>
      exists k :: (0 <= k < |sessions| && sessions[k] == r.value && forall j :: 0 <= j < k ==> sessions[j].id != id)
    decreases |sessions|
  {
    if sessions == [] then None
    else if sessions[0].id == id then Some(sessions[0])
    else
      var r := Find(sessions[1..], id);
      if r.Some? then
        var k :| 0 <= k < |sessions[1..]| && sessions[1..][k] == r.value
          && forall j :: 0 <= j < k ==> sessions[1..][j].id != id;
        assert sessions[k + 1] == r.value;
        r
      else r
  }

  /** `selectSession(id)`: the first session with the id becomes current;
      an unknown id changes nothing. */
  function SelectSession(s: State, id: string): (r: State)
    ensures Find(s.sessions, id).Some? ==> r == s.(currentSession := Find(s.sessions, id))
    ensures Find(s.sessions, id).None? ==> r == s
  {
    var found := Find(s.sessions, id);
    if found.Some? then s.(currentSession := found) else s
  }

  /** Selecting the same id twice is selecting it once. */
  lemma SelectTwice(s: State, id: string)
    ensures SelectSession(SelectSession(s, id), id) == SelectSession(s, id)
  {
  }

  /** `createNewSession()`, with the new id and time supplied: an empty
      session titled '新对话' is put first and made current. */
  function CreateNewSession(s: State, id: string, time: string): (r: State)
    ensures |r.sessions| == |s.sessions| + 1 && r.sessions[1..] == s.sessions
    ensures r.sessions[0] == Session(id, NewTitle, time, [])
    ensures r.currentSession == Some(r.sessions[0])
    ensures r.user == s.user && r.isSidebarExpanded == s.isSidebarExpanded
  {
    var created := Session(id, NewTitle, time, []);
    s.(sessions := [created] + s.sessions, currentSession := Some(created))
  }

  /** The new session is the one found under its id, so selecting it
      changes nothing. */
  lemma CreateThenSelect(s: State, id: string, time: string)
    ensures SelectSession(CreateNewSession(s, id, time), id) == CreateNewSession(s, id, time)
  {
  }

  // ---------------------------------------------------------------------
  // sending

  /** A session's title after its first message: the first 20 characters of
      the content, with '...' when the content is longer. */
  function Title(content: string): (t: string)
    ensures |content| <= 20 ==> t == content
    ensures |content| > 20 ==> |t| == 23 && t[..20] == content[..20] && t[20..] == "..."
  {
    Take(content, 20) + (if |content| > 20 then "..." else "")
  }

  /** The three clock readings `sendMessage` takes, in order: the user
      message's timestamp, the assistant message's, and the session's
      `lastMessageTime`. */
  datatype Readings = Readings(user: string, assistant: string, session: string)

  /** The current session with the user's message and the empty assistant
      message appended; a session with no messages yet takes its title
      from the content. */
  function Opened(cur: Session, content: string, userId: string, assistantId: string, time: Readings): (u: Session)
    ensures u.id == cur.id && u.lastMessageTime == time.session
    ensures u.messages == cur.messages + [Message(userId, User, content, time.user, None), Message(assistantId, Assistant, "", time.assistant, None)]
    ensures u.title == if cur.messages == [] then Title(content) else cur.title
  {
    Session(cur.id, if cur.messages == [] then Title(content) else cur.title, time.session,
            cur.messages + [Message(userId, User, content, time.user, None), Message(assistantId, Assistant, "", time.assistant, None)])
  }

  /** Every session with the id of `u` replaced by `u`. */
  function ReplaceById(sessions: seq<Session>, u: Session): (r: seq<Session>)
    ensures |r| == |sessions|
    ensures forall k :: 0 <= k < |r| ==> r[k] == if sessions[k].id == u.id then u else sessions[k]
  {
    seq(|sessions|, k requires 0 <= k < |sessions| => if sessions[k].id == u.id then u else sessions[k])
  }

  /** The messages with the content of every message with the id set. */
  function SetContent(messages: seq<Message>, id: string, content: string): (r: seq<Message>)
    ensures |r| == |messages|
    ensures forall k :: 0 <= k < |r| ==>
      r[k] == if messages[k].id == id then messages[k].(content := content) else messages[k]
  {
    seq(|messages|, k requires 0 <= k < |messages| =>
      if messages[k].id == id then messages[k].(content := content) else messages[k])
  }

  /** The sessions with the message content set in every session with the
      session id. */
  function SetContentIn(sessions: seq<Session>, sid: string, mid: string, content: string): (r: seq<Session>)
    ensures |r| == |sessions|
    ensures forall k :: 0 <= k < |r| ==>
      r[k] == if sessions[k].id == sid then sessions[k].(messages := SetContent(sessions[k].messages, mid, content)) else sessions[k]
  {
    seq(|sessions|, k requires 0 <= k < |sessions| =>
      if sessions[k].id == sid then sessions[k].(messages := SetContent(sessions[k].messages, mid, content)) else sessions[k])
  }

  /** The update made for each streamed text: the assistant message takes
      the text accumulated so far, in `sessions` and in the current session
      when it is the one being answered. */
  function StreamUpdate(s: State, sid: string, mid: string, content: string): (r: State)
    ensures r.user == s.user && r.isSidebarExpanded == s.isSidebarExpanded
    ensures r.sessions == SetContentIn(s.sessions, sid, mid, content)
    ensures s.currentSession.Some? && s.currentSession.value.id == sid ==>
      r.currentSession == Some(s.currentSession.value.(messages := SetContent(s.currentSession.value.messages, mid, content)))
    ensures !(s.currentSession.Some? && s.currentSession.value.id == sid) ==> r.currentSession == s.currentSession
  {
    s.(sessions := SetContentIn(s.sessions, sid, mid, content),
       currentSession := if s.currentSession.Some? && s.currentSession.value.id == sid
                         then Some(s.currentSession.value.(messages := SetContent(s.currentSession.value.messages, mid, content)))
                         else s.currentSession)
  }

  lemma SetContentTwice(messages: seq<Message>, id: string, a: string, b: string)
    ensures SetContent(SetContent(messages, id, a), id, b) == SetContent(messages, id, b)
  {
    assert forall k :: 0 <= k < |messages| ==> SetContent(SetContent(messages, id, a), id, b)[k] == SetContent(messages, id, b)[k];
  }

  /** Only the last streamed update counts: each one overwrites the
      previous. */
  lemma StreamUpdateTwice(s: State, sid: string, mid: string, a: string, b: string)
    ensures StreamUpdate(StreamUpdate(s, sid, mid, a), sid, mid, b) == StreamUpdate(s, sid, mid, b)
  {
    var once := SetContentIn(s.sessions, sid, mid, a);
    forall k | 0 <= k < |s.sessions| && s.sessions[k].id == sid
      ensures SetContent(once[k].messages, mid, b) == SetContent(s.sessions[k].messages, mid, b)
    {
      SetContentTwice(s.sessions[k].messages, mid, a, b);
    }
    assert SetContentIn(once, sid, mid, b) == SetContentIn(s.sessions, sid, mid, b);
    if s.currentSession.Some? && s.currentSession.value.id == sid {
      SetContentTwice(s.currentSession.value.messages, mid, a, b);
    }
  }

  /** The error update of this hook: only `sessions` gets the error text,
      the current session is left as it was. */
  function ErrorUpdate(s: State, sid: string, mid: string): (r: State)
    ensures r.sessions == SetContentIn(s.sessions, sid, mid, ErrorReply)
    ensures r.currentSession == s.currentSession && r.user == s.user && r.isSidebarExpanded == s.isSidebarExpanded
  {
    s.(sessions := SetContentIn(s.sessions, sid, mid, ErrorReply))
  }

  /** The text a line of the relay's stream adds. */
  function StreamTextOf(parse: FrameParser): string -> Option<string> {
    line => FrameText(TrimmedFrame(line, parse))
  }

  /** The state after the stream has been read: the last update, with the
      whole accumulated text, or no update when there was no text. */
  function Streamed(s: State, sid: string, mid: string, acc: string): State {
    if acc != "" then StreamUpdate(s, sid, mid, acc) else s
  }

  /** One more streamed text: the update with the longer accumulated text
      replaces the previous one. */
  lemma StreamedStep(s: State, sid: string, mid: string, acc: string, text: string)
    requires text != ""
    ensures StreamUpdate(Streamed(s, sid, mid, acc), sid, mid, acc + text) == Streamed(s, sid, mid, acc + text)
  {
    if acc != "" {
      StreamUpdateTwice(s, sid, mid, acc, acc + text);
    }
  }

  /** The read loop: one update per streamed text, each with the text
      accumulated so far. */
  method ReadStream(s: State, sid: string, mid: string, chunks: seq<string>, parse: FrameParser)
    returns (r: State, acc: string)
    ensures acc == Accumulated(ChunkLines(chunks), StreamTextOf(parse))
    ensures r == Streamed(s, sid, mid, acc)
  {
    r := s;
    acc := "";
    var i := 0;
    while i < |chunks|
      invariant 0 <= i <= |chunks|
      invariant acc == Accumulated(ChunkLines(chunks[..i]), StreamTextOf(parse))
      invariant r == Streamed(s, sid, mid, acc)
    {
      var lines := Lines(chunks[i]);
      ChunkLinesStep(chunks, i);
      AccumulatedAppend(ChunkLines(chunks[..i]), lines, StreamTextOf(parse));
      r, acc := ReadLines(s, sid, mid, lines, parse, r, acc);
      i := i + 1;
    }
    assert chunks[..|chunks|] == chunks;
  }

  /** One line: the truthy `text` of a `data:` line whose JSON parses. */
  method ReadLine(line: string, parse: FrameParser) returns (text: Option<string>)
    ensures text == StreamTextOf(parse)(line)
  {
    text := None;
    if StartsWith(line, DataPrefix) {
      var data := parse(Trim(line[5..]));
      if data.Some? && Truthy(data.value.text) {
        text := data.value.text;
      }
    }
  }

  /** The lines of one chunk. */
  method ReadLines(s: State, sid: string, mid: string, lines: seq<string>, parse: FrameParser, r0: State, acc0: string)
    returns (r: State, acc: string)
    requires r0 == Streamed(s, sid, mid, acc0)
    ensures acc == acc0 + Accumulated(lines, StreamTextOf(parse))
    ensures r == Streamed(s, sid, mid, acc)
  {
    r := r0;
    acc := acc0;
    assert Accumulated(lines[..0], StreamTextOf(parse)) == "" by {
      assert lines[..0] == [];
    }
    assert acc0 + "" == acc0;
    var j := 0;
    while j < |lines|
      invariant 0 <= j <= |lines|
      invariant acc == acc0 + Accumulated(lines[..j], StreamTextOf(parse))
      invariant r == Streamed(s, sid, mid, acc)
    {
      var text := ReadLine(lines[j], parse);
      AccumulatedStep(lines, j, StreamTextOf(parse));
      ghost var part := Accumulated(lines[..j], StreamTextOf(parse));
      if text.Some? {
        StreamedStep(s, sid, mid, acc, text.value);
        acc := acc + text.value;
        assert acc0 + part + text.value == acc0 + (part + text.value);
        r := StreamUpdate(r, sid, mid, acc);
      } else {
        assert part + "" == part;
      }
      j := j + 1;
    }
    assert lines[..|lines|] == lines;
  }

  // ---------------------------------------------------------------------
  // feedback

  /** `{ ...prior, ...given }`: the fields given override, the others keep
      their prior value. */
  function MergeFeedback(prior: Option<Feedback>, given: Feedback): (r: Feedback)
    ensures given.liked.Some? ==> r.liked == given.liked
    ensures given.disliked.Some? ==> r.disliked == given.disliked
    ensures given.reported.Some? ==> r.reported == given.reported
    ensures given.comment.Some? ==> r.comment == given.comment
    ensures prior.Some? && given.liked.None? ==> r.liked == prior.value.liked
    ensures prior.Some? && given.disliked.None? ==> r.disliked == prior.value.disliked
    ensures prior.Some? && given.reported.None? ==> r.reported == prior.value.reported
    ensures prior.Some? && given.comment.None? ==> r.comment == prior.value.comment
    ensures prior.None? ==> r == given
  {
    if prior.None? then given
    else Feedback(if given.liked.Some? then given.liked else prior.value.liked,
                  if given.disliked.Some? then given.disliked else prior.value.disliked,
                  if given.reported.Some? then given.reported else prior.value.reported,
                  if given.comment.Some? then given.comment else prior.value.comment)
  }

  /** Merging the same feedback again changes nothing. */
  lemma MergeFeedbackTwice(prior: Option<Feedback>, given: Feedback)
    ensures MergeFeedback(Some(MergeFeedback(prior, given)), given) == MergeFeedback(prior, given)
  {
  }

  /** The messages with the feedback merged into every message with the id. */
  function SetFeedback(messages: seq<Message>, id: string, given: Feedback): (r: seq<Message>)
    ensures |r| == |messages|
    ensures forall k :: 0 <= k < |r| ==>
      r[k] == if messages[k].id == id then messages[k].(feedback := Some(MergeFeedback(messages[k].feedback, given))) else messages[k]
  {
    seq(|messages|, k requires 0 <= k < |messages| =>
      if messages[k].id == id then messages[k].(feedback := Some(MergeFeedback(messages[k].feedback, given))) else messages[k])
  }

  /** `updateMessageFeedback(messageId, feedback)` of this hook: without a
      current session nothing changes; otherwise the feedback is merged
      into the message in the current session's entry of `sessions`, and
      the current session itself is left as it was. */
  function UpdateMessageFeedback(s: State, messageId: string, given: Feedback): (r: State)
    ensures s.currentSession.None? ==> r == s
    ensures r.currentSession == s.currentSession && r.user == s.user && r.isSidebarExpanded == s.isSidebarExpanded
    ensures |r.sessions| == |s.sessions|
    ensures s.currentSession.Some? ==> forall k :: 0 <= k < |s.sessions| ==>
      r.sessions[k] == if s.sessions[k].id == s.currentSession.value.id
                       then s.sessions[k].(messages := SetFeedback(s.sessions[k].messages, messageId, given))
                       else s.sessions[k]
  {
    if s.currentSession.None? then s
    else
      var cid := s.currentSession.value.id;
      s.(sessions := seq(|s.sessions|, k requires 0 <= k < |s.sessions| =>
           if s.sessions[k].id == cid then s.sessions[k].(messages := SetFeedback(s.sessions[k].messages, messageId, given))
           else s.sessions[k]))
  }

  // ---------------------------------------------------------------------
  // the hook

  class Hook {
    const parse: FrameParser
    var state: State

    constructor (parse: FrameParser)
      ensures this.parse == parse && state == InitialState
    {
      this.parse := parse;
      state := InitialState;
    }

    /** `sendMessage(content)`, with the two message ids and the clock readings
        supplied. Without a current session nothing happens. Otherwise the
        current session, with the user's message and an empty assistant
        message, replaces its entry and becomes current; the content is
        sent as the prompt; each streamed text rewrites the assistant
        message with the text so far; any failure, before or while reading,
        then sets the error text in `sessions` only. */
    method SendMessage(content: string, userId: string, assistantId: string, time: Readings, fetch: Fetch)
      returns (prompt: Option<string>)
      modifies this
      ensures old(state).currentSession.None? ==> state == old(state) && prompt.None?
      ensures old(state).currentSession.Some? ==>
        var u := Opened(old(state).currentSession.value, content, userId, assistantId, time);
        var shown := old(state).(sessions := ReplaceById(old(state).sessions, u), currentSession := Some(u));
        var acc := if fetch.Body? then Accumulated(ChunkLines(fetch.chunks), StreamTextOf(parse)) else "";
        var streamed := Streamed(shown, u.id, assistantId, acc);
        && prompt == Some(content)
        && state == if fetch.Body? && !fetch.broken then streamed else ErrorUpdate(streamed, u.id, assistantId)
    {
      prompt := None;
      if state.currentSession.None? {
        return;
      }
      var u := Opened(state.currentSession.value, content, userId, assistantId, time);
      state := state.(sessions := ReplaceById(state.sessions, u), currentSession := Some(u));
      prompt := Some(content);
      var streamed := state;
      if fetch.Body? {
        var acc;
        streamed, acc := ReadStream(state, u.id, assistantId, fetch.chunks, parse);
      }
      state := if fetch.Body? && !fetch.broken then streamed else ErrorUpdate(streamed, u.id, assistantId);
    }
  }

  /** After a complete stream, the assistant message of the answered
      session holds every streamed text, in order, and the user's message
      before it is unchanged. */
  lemma ReplyInSession(s: State, content: string, userId: string, assistantId: string, time: Readings, acc: string, k: nat)
    requires s.currentSession.Some? && userId != assistantId
    requires var u := Opened(s.currentSession.value, content, userId, assistantId, time);
      forall m :: m in s.currentSession.value.messages ==> m.id != assistantId
    requires k < |s.sessions| && s.sessions[k].id == s.currentSession.value.id
    ensures var u := Opened(s.currentSession.value, content, userId, assistantId, time);
      var shown := s.(sessions := ReplaceById(s.sessions, u), currentSession := Some(u));
      var msgs := Streamed(shown, u.id, assistantId, acc).sessions[k].messages;
      |msgs| == |s.currentSession.value.messages| + 2
      && msgs[|msgs| - 1] == Message(assistantId, Assistant, acc, time.assistant, None)
      && msgs[|msgs| - 2] == Message(userId, User, content, time.user, None)
      && msgs[..|msgs| - 2] == s.currentSession.value.messages
  {
    var u := Opened(s.currentSession.value, content, userId, assistantId, time);
    var n := |s.currentSession.value.messages|;
    var shown := s.(sessions := ReplaceById(s.sessions, u), currentSession := Some(u));
    assert shown.sessions[k] == u;
    if acc != "" {
      var msgs := SetContent(u.messages, assistantId, acc);
      assert msgs[..n] == s.currentSession.value.messages by {
        forall j | 0 <= j < n
          ensures msgs[j] == s.currentSession.value.messages[j]
        {
          assert u.messages[j] == s.currentSession.value.messages[j];
          assert u.messages[j] in s.currentSession.value.messages;
        }
      }
    } else {
      assert u.messages[..n] == s.currentSession.value.messages;
    }
  }
}
