/** The chat widget: the greeting set once the session is known, the guard on sending,
    how streamed fragments grow the bot's reply, and when the widget is drawn at all.
    A send is modelled as one step that runs to the end of the reply stream; the
    intermediate transcripts the user sees while the stream runs are given by `Streaming`. */
module Chatbot {
  import opened Common
  import opened Text
  import opened GeminiService

  datatype Sender = User | Bot

  datatype Message = Message(sender: Sender, text: string)

  /** The widget's state: its five state hooks and the session handle (`None` until chat
      initialisation has finished). */
  datatype ChatState = ChatState(
    isOpen: bool,
    messages: seq<Message>,
    input: string,
    isLoading: bool,
    isAvailable: bool,
    service: Option<ChatSession>)

  /** The state on mount, before chat initialisation has finished. */
  const Initial: ChatState := ChatState(false, [], "", false, false, None)

  const AvailableGreeting: string :=
    "Hello! I'm PortfoBot, Lito's AI assistant. " + "Ask me anything about his skills, "
    + "projects, or experience."
  const UnavailableGreeting: string := "Sorry, the AI assistant " + "is currently unavailable."
  const ErrorReply: string := "Sorry, I encountered an error. " + "Please try again."

  /** The greeting depends on availability only. */
  function Greeting(available: bool): string
  {
    if available then AvailableGreeting else UnavailableGreeting
  }

  lemma GreetingsDiffer()
    ensures AvailableGreeting != UnavailableGreeting
  {
    assert |AvailableGreeting| != |UnavailableGreeting|;
  }

  // ------------------------------------------------------------ initialisation

  /** Stores the session handle and its availability, and replaces the transcript by the
      one greeting; nothing else changes. */
  function InitializeChat(st: ChatState, session: ChatSession): (r: ChatState)
    ensures r.service == Some(session)
    ensures r.isAvailable <==> session.Available?
    ensures |r.messages| == 1 && r.messages[0].sender == Bot
    ensures r.messages[0].text == Greeting(session.Available?)
    ensures r.isOpen == st.isOpen && r.input == st.input && r.isLoading == st.isLoading
  {
    st.(service := Some(session), isAvailable := session.Available?,
        messages := [Message(Bot, Greeting(session.Available?))])
  }

  /** Two sessions give the same opening transcript exactly when both or neither are
      available: the notice a disabled session carries is never shown as the greeting. */
  lemma GreetingDependsOnlyOnAvailability(st: ChatState, s1: ChatSession, s2: ChatSession)
    ensures InitializeChat(st, s1).messages == InitializeChat(st, s2).messages
            <==> s1.Available? == s2.Available?
  {
    GreetingsDiffer();
    if s1.Available? != s2.Available? {
      assert InitializeChat(st, s1).messages[0].text != InitializeChat(st, s2).messages[0].text;
    }
  }

  /** Right after mounting, the widget greets with the welcome text exactly when a key is
      configured and all three datasets were fetched. */
  lemma GreetingAfterStart(
    key: Option<string>,
    skills: Fetch<seq<SkillCategory>>,
    projects: Fetch<seq<ProjectEntry>>,
    experience: Fetch<seq<ExperienceEntry>>)
    ensures var st := InitializeChat(Initial, StartChat(key, skills, projects, experience));
      st.messages == [Message(Bot, AvailableGreeting)]
      <==> HasApiKey(key) && skills.Fetched? && projects.Fetched? && experience.Fetched?
  {
    GreetingsDiffer();
  }

  // ------------------------------------------------------------- the stream

  /** `chunk.text ?? ""`. */
  function ChunkText(c: Chunk): string
  {
    if c.text.Some? then c.text.value else ""
  }

  /** The text of the fragments received so far, in order. */
  function Accumulated(chunks: seq<Chunk>): string
    decreases |chunks|
  {
    if |chunks| == 0 then "" else Accumulated(chunks[..|chunks| - 1]) + ChunkText(chunks[|chunks| - 1])
  }

  /** The text of two stretches of a stream is the text of the first followed by that of the
      second. */
  lemma {:induction false} AccumulatedAppend(a: seq<Chunk>, b: seq<Chunk>)
    ensures Accumulated(a + b) == Accumulated(a) + Accumulated(b)
    decreases |b|
  {
    if |b| > 0 {
      var n := |b| - 1;
      assert (a + b)[..|a + b| - 1] == a + b[..n];
      assert (a + b)[|a + b| - 1] == b[n];
      AccumulatedAppend(a, b[..n]);
    } else {
      assert a + b == a;
    }
  }

  /** A fragment without text adds nothing to the reply. */
  lemma EmptyFragmentIgnored(a: seq<Chunk>, b: seq<Chunk>)
    ensures Accumulated(a + [Chunk(None)] + b) == Accumulated(a + b)
  {
    var none := [Chunk(None)];
    assert none[..0] == [];
    assert Accumulated(none) == "";
    AccumulatedAppend(a, none);
    assert a + none + b == (a + none) + b;
    AccumulatedAppend(a + none, b);
    AccumulatedAppend(a, b);
  }

  /** The functional update run for each fragment: when the last message is the bot's, the
      fragment's text is appended to it; when it is the user's, nothing changes. */
  function ApplyChunk(messages: seq<Message>, chunk: Chunk): (r: seq<Message>)
    requires |messages| > 0
    ensures |r| == |messages|
    ensures r[..|r| - 1] == messages[..|messages| - 1]
    ensures messages[|messages| - 1].sender == Bot ==>
      r[|r| - 1] == Message(Bot, messages[|messages| - 1].text + ChunkText(chunk))
    ensures messages[|messages| - 1].sender == User ==> r == messages
  {
    var last := messages[|messages| - 1];
    if last.sender == Bot then messages[..|messages| - 1] + [Message(Bot, last.text + ChunkText(chunk))]
    else messages
  }

  /** The update run for each of a sequence of fragments in turn. */
  function ApplyChunks(messages: seq<Message>, chunks: seq<Chunk>): (r: seq<Message>)
    requires |messages| > 0
    ensures |r| == |messages|
    ensures r[..|r| - 1] == messages[..|messages| - 1]
    ensures messages[|messages| - 1].sender == Bot ==>
      r[|r| - 1] == Message(Bot, messages[|messages| - 1].text + Accumulated(chunks))
    ensures messages[|messages| - 1].sender == User ==> r == messages
    decreases |chunks|
  {
    if |chunks| == 0 then messages
    else ApplyChunk(ApplyChunks(messages, chunks[..|chunks| - 1]), chunks[|chunks| - 1])
  }

  // ------------------------------------------------------------ sending

  /** `!text.trim()` is false: something is left once white space is trimmed. */
  predicate NonBlank(text: string)
  {
    Trim(text) != ""
  }

  /** The send guard: the trimmed input is non-empty, no reply is streaming, and the
      session handle is present. */
  predicate AcceptsSend(st: ChatState)
  {
    NonBlank(st.input) && !st.isLoading && st.service.Some?
  }

  /** The stream the session hands out for a message, given the model's reply. */
  function ReplyStream(st: ChatState, reply: StreamOutcome): StreamOutcome
    requires st.service.Some?
  {
    SendMessageStream(st.service.value, reply)
  }

  /** The state while a reply streams, after the first `k` fragments have arrived: the user's
      message and the growing bot reply follow the earlier transcript. */
  function Streaming(st: ChatState, chunks: seq<Chunk>, k: nat): (r: ChatState)
    requires k <= |chunks|
    ensures r.isLoading && r.input == ""
    ensures |r.messages| == |st.messages| + 2
    ensures r.messages[..|st.messages|] == st.messages
    ensures r.messages[|st.messages|] == Message(User, st.input)
    ensures r.messages[|st.messages| + 1] == Message(Bot, Accumulated(chunks[..k]))
    ensures r.messages
            == st.messages + [Message(User, st.input), Message(Bot, Accumulated(chunks[..k]))]
  {
    var started := st.messages + [Message(User, st.input), Message(Bot, "")];
    var ms := ApplyChunks(started, chunks[..k]);
    assert started[..|started| - 1] == st.messages + [Message(User, st.input)];
    assert ms == ms[..|ms| - 1] + [ms[|ms| - 1]];
    assert ms[|st.messages|] == ms[..|ms| - 1][|st.messages|];
    assert ms[..|st.messages|] == ms[..|ms| - 1][..|st.messages|];
    st.(messages := ms, input := "", isLoading := true)
  }

  /** While a reply streams, the bot's message only grows: each fragment extends it. */
  lemma StreamingReplyGrows(st: ChatState, chunks: seq<Chunk>, k: nat)
    requires k < |chunks|
    ensures Streaming(st, chunks, k + 1).messages[..|st.messages| + 1]
            == Streaming(st, chunks, k).messages[..|st.messages| + 1]
    ensures Streaming(st, chunks, k).messages[|st.messages| + 1].text
            <= Streaming(st, chunks, k + 1).messages[|st.messages| + 1].text
  {
    assert chunks[..k + 1] == chunks[..k] + [chunks[k]];
    AccumulatedAppend(chunks[..k], [chunks[k]]);
    var a := Streaming(st, chunks, k).messages;
    var b := Streaming(st, chunks, k + 1).messages;
    assert a[..|st.messages| + 1] == a[..|st.messages|] + [a[|st.messages|]];
    assert b[..|st.messages| + 1] == b[..|st.messages|] + [b[|st.messages|]];
  }

  /** Submitting the form. A rejected send changes nothing. An accepted one appends the
      user's message and a bot reply made of the streamed text, then the error reply if the
      stream threw; the input is cleared and the loading flag is down again at the end. */
  function HandleSend(st: ChatState, reply: StreamOutcome): (r: ChatState)
    ensures !AcceptsSend(st) ==> r == st
    ensures AcceptsSend(st) ==>
      var stream := ReplyStream(st, reply);
      r.messages == st.messages + [Message(User, st.input), Message(Bot, Accumulated(stream.chunks))]
                    + (if stream.Threw? then [Message(Bot, ErrorReply)] else [])
    ensures AcceptsSend(st) ==> r.input == "" && !r.isLoading
    ensures r.isOpen == st.isOpen && r.isAvailable == st.isAvailable && r.service == st.service
  {
    if !AcceptsSend(st) then st
    else
      var stream := ReplyStream(st, reply);
      var streamed := Streaming(st, stream.chunks, |stream.chunks|);
      assert stream.chunks[..|stream.chunks|] == stream.chunks;
      assert streamed.messages
        == st.messages + [Message(User, st.input), Message(Bot, Accumulated(stream.chunks))];
      var ms := if stream.Threw? then streamed.messages + [Message(Bot, ErrorReply)] else streamed.messages;
      streamed.(messages := ms, isLoading := false)
  }

  /** The final transcript of a send is the last streaming snapshot, plus the error reply
      when the stream threw. */
  lemma SendEndsWithLastSnapshot(st: ChatState, reply: StreamOutcome)
    requires AcceptsSend(st)
    ensures var stream := ReplyStream(st, reply);
      var last := Streaming(st, stream.chunks, |stream.chunks|).messages;
      HandleSend(st, reply).messages
        == last + (if stream.Threw? then [Message(Bot, ErrorReply)] else [])
  {
    var stream := ReplyStream(st, reply);
    LastSnapshot(st, stream.chunks);
  }

  /** Once every fragment has arrived, the snapshot is the earlier transcript, the user's
      message and the whole streamed reply. */
  lemma LastSnapshot(st: ChatState, chunks: seq<Chunk>)
    ensures Streaming(st, chunks, |chunks|).messages
            == st.messages + [Message(User, st.input), Message(Bot, Accumulated(chunks))]
  {
    assert chunks[..|chunks|] == chunks;
  }

  /** Sending through a disabled session answers with the session's notice and never with
      the error reply. */
  lemma DisabledSessionAnswersWithNotice(st: ChatState, reply: StreamOutcome)
    requires AcceptsSend(st) && st.service.value.Unavailable?
    ensures HandleSend(st, reply).messages
            == st.messages + [Message(User, st.input), Message(Bot, st.service.value.notice)]
  {
    var c := Chunk(Some(st.service.value.notice));
    assert [c][..0] == [];
    assert Accumulated([c]) == st.service.value.notice;
    assert ReplyStream(st, reply) == Finished([c]);
  }

  /** Through an enabled session, the bot's reply is the model's streamed text, and the error
      reply follows exactly when the model's stream threw. */
  lemma EnabledSessionRelaysReply(st: ChatState, reply: StreamOutcome)
    requires AcceptsSend(st) && st.service.value.Available?
    ensures var ms := HandleSend(st, reply).messages;
      ms[|st.messages| + 1] == Message(Bot, Accumulated(reply.chunks))
      && (|ms| == |st.messages| + 3 <==> reply.Threw?)
      && (reply.Threw? ==> ms[|st.messages| + 2] == Message(Bot, ErrorReply))
  {
  }

  // ------------------------------------------------------------ the widget

  /** The widget renders nothing while the chat is unavailable and closed. */
  predicate IsRendered(st: ChatState)
  {
    st.isAvailable || st.isOpen
  }

  /** The text field and the Send button are disabled while loading or unavailable. */
  predicate InputEnabled(st: ChatState)
  {
    !(st.isLoading || !st.isAvailable)
  }

  /** What the user can do: click the floating button, click the close button, type into
      the text field, or submit the form (the model's reply to that message is the payload). */
  datatype UiEvent = ToggleClicked | CloseClicked | Typed(text: string) | Submitted(reply: StreamOutcome)

  /** One user interaction. Nothing reaches a widget that renders nothing; the closed chat box
      takes no mouse input; typing and submitting need the enabled controls. */
  function Step(st: ChatState, ev: UiEvent): (r: ChatState)
    ensures !IsRendered(st) ==> r == st
    ensures |st.messages| <= |r.messages| && r.messages[..|st.messages|] == st.messages
    ensures r.isAvailable == st.isAvailable && r.service == st.service
    ensures !st.isLoading ==> !r.isLoading
    ensures ev.ToggleClicked? && IsRendered(st) ==> r.isOpen == !st.isOpen
    ensures ev.CloseClicked? ==> !r.isOpen
    ensures ev.ToggleClicked? || ev.CloseClicked? ==> r == st.(isOpen := r.isOpen)
    ensures ev.Typed? && st.isOpen && InputEnabled(st) ==> r == st.(input := ev.text)
    ensures ev.Submitted? && st.isOpen && InputEnabled(st) ==> r == HandleSend(st, ev.reply)
    ensures (ev.Typed? || ev.Submitted?) && !(st.isOpen && InputEnabled(st)) ==> r == st
    ensures r.messages != st.messages ==> ev.Submitted? && st.isOpen && InputEnabled(st)
  {
    if !IsRendered(st) then st
    else
      match ev
      case ToggleClicked => st.(isOpen := !st.isOpen)
      case CloseClicked => if st.isOpen then st.(isOpen := false) else st
      case Typed(text) => if st.isOpen && InputEnabled(st) then st.(input := text) else st
      case Submitted(reply) => if st.isOpen && InputEnabled(st) then HandleSend(st, reply) else st
  }

  /** A sequence of user interactions, in order. */
  function Run(st: ChatState, evs: seq<UiEvent>): (r: ChatState)
    ensures |st.messages| <= |r.messages| && r.messages[..|st.messages|] == st.messages
    ensures r.isAvailable == st.isAvailable && r.service == st.service
    ensures !st.isLoading ==> !r.isLoading
    decreases |evs|
  {
    if |evs| == 0 then st
    else
      var next := Step(st, evs[0]);
      var r := Run(next, evs[1..]);
      assert r.messages[..|st.messages|] == r.messages[..|next.messages|][..|st.messages|];
      r
  }

  /** A widget that renders nothing stays so: no interaction changes it. */
  lemma {:induction false} HiddenWidgetIsInert(st: ChatState, evs: seq<UiEvent>)
    requires !IsRendered(st)
    ensures Run(st, evs) == st
    decreases |evs|
  {
    if |evs| > 0 {
      HiddenWidgetIsInert(Step(st, evs[0]), evs[1..]);
    }
  }

  /** Before chat initialisation finishes, and for good once it yields a disabled session,
      the widget shows nothing and its transcript never changes. */
  lemma DisabledChatNeverShown(notice: string, before: seq<UiEvent>, after: seq<UiEvent>)
    ensures Run(Initial, before) == Initial
    ensures var st := InitializeChat(Run(Initial, before), Unavailable(notice));
      Run(st, after) == st && !IsRendered(st)
      && st.messages == [Message(Bot, UnavailableGreeting)]
  {
    HiddenWidgetIsInert(Initial, before);
    HiddenWidgetIsInert(InitializeChat(Initial, Unavailable(notice)), after);
  }

  /** Every message the user sends has non-blank text and is answered by a bot message. */
  predicate UserTurnsAnswered(ms: seq<Message>)
  {
    forall i :: 0 <= i < |ms| && ms[i].sender == User ==>
      NonBlank(ms[i].text) && i + 1 < |ms| && ms[i + 1].sender == Bot
  }

  /** A non-blank user message answered by the bot, and any further bot messages, keep
      the turns answered. */
  lemma AppendTurnKeepsTurnsAnswered(ms: seq<Message>, text: string, answer: string, extra: seq<Message>)
    requires UserTurnsAnswered(ms)
    requires NonBlank(text)
    requires forall j :: 0 <= j < |extra| ==> extra[j].sender == Bot
    ensures UserTurnsAnswered(ms + [Message(User, text), Message(Bot, answer)] + extra)
    ensures var r := ms + [Message(User, text), Message(Bot, answer)] + extra;
      forall j :: |ms| < j < |r| ==> r[j].sender == Bot
  {
    var r := ms + [Message(User, text), Message(Bot, answer)] + extra;
    var n := |ms|;
    assert forall i :: 0 <= i < n ==> r[i] == ms[i];
    assert r[n] == Message(User, text) && r[n + 1] == Message(Bot, answer);
    assert forall i :: n + 2 <= i < |r| ==> r[i] == extra[i - n - 2];
    forall i | 0 <= i < |r| && r[i].sender == User
      ensures NonBlank(r[i].text) && i + 1 < |r| && r[i + 1].sender == Bot
    {
      if i < n && i + 1 < n {
        assert r[i + 1] == ms[i + 1];
      }
    }
  }

  lemma SendKeepsTurnsAnswered(st: ChatState, reply: StreamOutcome)
    requires UserTurnsAnswered(st.messages)
    ensures UserTurnsAnswered(HandleSend(st, reply).messages)
    ensures AcceptsSend(st) ==>
      var ms := HandleSend(st, reply).messages;
      ms[|st.messages|].sender == User && NonBlank(ms[|st.messages|].text)
      && forall j :: |st.messages| < j < |ms| ==> ms[j].sender == Bot
  {
    if AcceptsSend(st) {
      var stream := ReplyStream(st, reply);
      var extra := if stream.Threw? then [Message(Bot, ErrorReply)] else [];
      AppendTurnKeepsTurnsAnswered(st.messages, st.input, Accumulated(stream.chunks), extra);
    }
  }

  lemma StepKeepsTurnsAnswered(st: ChatState, ev: UiEvent)
    requires UserTurnsAnswered(st.messages)
    ensures UserTurnsAnswered(Step(st, ev).messages)
  {
    if ev.Submitted? {
      SendKeepsTurnsAnswered(st, ev.reply);
    }
  }

  /** However the user interacts with the widget, every user message in the transcript is
      non-blank and is followed by a bot message. */
  lemma {:induction false} RunKeepsTurnsAnswered(st: ChatState, evs: seq<UiEvent>)
    requires UserTurnsAnswered(st.messages)
    ensures UserTurnsAnswered(Run(st, evs).messages)
    decreases |evs|
  {
    if |evs| > 0 {
      StepKeepsTurnsAnswered(st, evs[0]);
      RunKeepsTurnsAnswered(Step(st, evs[0]), evs[1..]);
    }
  }

  /** Once initialised, a widget's transcript always starts with its greeting, and every user
      message in it is non-blank and answered. */
  lemma SessionTranscript(session: ChatSession, evs: seq<UiEvent>)
    ensures var ms := Run(InitializeChat(Initial, session), evs).messages;
      |ms| >= 1 && ms[0] == Message(Bot, Greeting(session.Available?)) && UserTurnsAnswered(ms)
  {
    var st := InitializeChat(Initial, session);
    RunKeepsTurnsAnswered(st, evs);
    var ms := Run(st, evs).messages;
    assert ms[0] == ms[..1][0];
  }
}
