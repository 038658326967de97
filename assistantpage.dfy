/** The assistant chat page (src/pages/AssistantPage.tsx): a message log that each send
    extends by the user's question and then by one reply, the input box, the loading flag,
    the example questions and the referenced reports shown under a reply. */
module AssistantPage {
  import opened Wrappers
  import opened JsString
  import I18n
  import opened Api

  datatype Role = User | Assistant

  /** A chat message; `reports` is the `reports_used` list of a reply, absent otherwise. */
  datatype Message = Message(role: Role, content: string, reports: Option<seq<ReportRef>>)

  /** `query || input.trim()`: an explicit, non-empty question wins, otherwise the typed
      input without its surrounding whitespace. */
  function SendText(query: Option<string>, input: string): (text: string)
    ensures query.Some? && query.value != "" ==> text == query.value
    ensures query.None? || query.value == "" ==> text == Trim(input)
  {
    if query.Some? && query.value != "" then query.value else Trim(input)
  }

  /** There is nothing to send exactly when no question is given and the input is blank. */
  lemma NothingToSendIffBlank(query: Option<string>, input: string)
    ensures SendText(query, input) == "" <==> (query.None? || query.value == "") && IsBlank(input)
  {
    TrimEmptyIffBlank(input);
  }

  /** The message a finished call appends: the answer and its referenced reports, or the
      translated error text with no reports when the call threw. The reply's `success`
      flag is not consulted. */
  function ReplyMessage(reply: Result<MoraqibResponse, ClientError>, lang: I18n.Language): (m: Message)
    ensures m.role == Assistant
    ensures reply.Success? ==> m.content == reply.value.answer && m.reports == reply.value.reportsUsed
    ensures reply.Failure? ==> m.content == I18n.Entry(lang, I18n.ErrorOccurred) && m.reports == None
  {
    match reply
    case Success(response) => Message(Assistant, response.answer, response.reportsUsed)
    case Failure(_) =>
      I18n.TranslateIsEntry(I18n.ErrorOccurred, lang);
      Message(Assistant, I18n.Translate(I18n.ErrorOccurred, lang), None)
  }

  /** The page's state as a value. */
  datatype Chat = Chat(messages: seq<Message>, input: string, loading: bool)

  /** One complete `handleSend(query?)` answered by `reply`: with nothing to send the state
      is unchanged; otherwise the question and the reply are appended, the input is cleared
      and loading is over. */
  function Send(chat: Chat, query: Option<string>, reply: Result<MoraqibResponse, ClientError>, lang: I18n.Language): Chat {
    var text := SendText(query, chat.input);
    if text == "" then chat
    else Chat(chat.messages + [Message(User, text, None), ReplyMessage(reply, lang)], "", false)
  }

  /** A send keeps every earlier message in place and adds either nothing or exactly the
      question followed by one reply. */
  lemma SendAppendsQuestionAndReply(chat: Chat, query: Option<string>, reply: Result<MoraqibResponse, ClientError>, lang: I18n.Language)
    ensures var after := Send(chat, query, reply, lang);
            var text := SendText(query, chat.input);
            && (text == "" ==> after == chat)
            && (text != "" ==> && |after.messages| == |chat.messages| + 2
                               && after.messages[..|chat.messages|] == chat.messages
                               && after.messages[|chat.messages|] == Message(User, text, None)
                               && after.messages[|chat.messages| + 1] == ReplyMessage(reply, lang)
                               && after.input == "" && !after.loading)
  {
  }

  /** What the user does on the page: type into the box, or send (the submit button with
      no argument, or an example question) and receive the call's outcome. */
  datatype Event =
    | Typed(text: string)
    | Sent(query: Option<string>, reply: Result<MoraqibResponse, ClientError>)

  function Step(chat: Chat, e: Event, lang: I18n.Language): Chat {
    match e
    case Typed(text) => chat.(input := text)
    case Sent(query, reply) => Send(chat, query, reply, lang)
  }

  function Session(chat: Chat, events: seq<Event>, lang: I18n.Language): Chat
    decreases |events|
  {
    if events == [] then chat else Session(Step(chat, events[0], lang), events[1..], lang)
  }

  /** The log of a page: questions and replies alternate, starting with a question, and no
      question is empty. */
  ghost predicate WellFormedLog(messages: seq<Message>) {
    && |messages| % 2 == 0
    && (forall i :: 0 <= i < |messages| ==> (messages[i].role == User <==> i % 2 == 0))
    && (forall i :: 0 <= i < |messages| && messages[i].role == User ==> messages[i].content != "")
  }

  /** The log only grows: whatever the user does, earlier messages stay, unchanged and in
      order, at the front of the log. */
  lemma {:induction false} SessionOnlyAppends(chat: Chat, events: seq<Event>, lang: I18n.Language)
    ensures chat.messages <= Session(chat, events, lang).messages
    decreases |events|
  {
    if events != [] {
      var next := Step(chat, events[0], lang);
      assert chat.messages <= next.messages;
      SessionOnlyAppends(next, events[1..], lang);
    }
  }

  /** Appending a non-empty question and then a reply to a well-formed log keeps it
      well-formed. */
  lemma AppendExchangeKeepsLogWellFormed(messages: seq<Message>, question: Message, answer: Message)
    requires WellFormedLog(messages)
    requires question.role == User && question.content != ""
    requires answer.role == Assistant
    ensures WellFormedLog(messages + [question, answer])
  {
    var n := |messages|;
    var log := messages + [question, answer];
    forall i | 0 <= i < |log|
      ensures (log[i].role == User <==> i % 2 == 0)
      ensures log[i].role == User ==> log[i].content != ""
    {
      if i < n {
        assert log[i] == messages[i];
      } else if i == n {
        assert log[i] == question;
      } else {
        assert i == n + 1 && log[i] == answer;
      }
    }
  }

  /** One send appends a question with non-empty content at an even position and then a
      reply, so a well-formed log stays well-formed. */
  lemma SendKeepsLogWellFormed(chat: Chat, query: Option<string>, reply: Result<MoraqibResponse, ClientError>, lang: I18n.Language)
    requires WellFormedLog(chat.messages)
    ensures WellFormedLog(Send(chat, query, reply, lang).messages)
  {
    var text := SendText(query, chat.input);
    if text != "" {
      AppendExchangeKeepsLogWellFormed(chat.messages, Message(User, text, None), ReplyMessage(reply, lang));
    }
  }

  /** Starting from a well-formed log and no call in flight, every session leaves a
      well-formed log and no call in flight. */
  lemma {:induction false} SessionKeepsLogWellFormed(chat: Chat, events: seq<Event>, lang: I18n.Language)
    requires WellFormedLog(chat.messages) && !chat.loading
    ensures WellFormedLog(Session(chat, events, lang).messages)
    ensures !Session(chat, events, lang).loading
    decreases |events|
  {
    if events != [] {
      if events[0].Sent? {
        SendKeepsLogWellFormed(chat, events[0].query, events[0].reply, lang);
      }
      SessionKeepsLogWellFormed(Step(chat, events[0], lang), events[1..], lang);
    }
  }

  /** The example questions of each language, four per language. */
  function ExampleQueries(lang: I18n.Language): (queries: seq<string>)
    ensures |queries| == 4
    ensures forall i :: 0 <= i < |queries| ==> queries[i] != ""
  {
    if lang == I18n.En then [
      "How many detections in the last 24 hours?",
      "Show high-severity alerts from today",
      "What's the average soldier count per detection?",
      "List all detections with more than 3 soldiers"]
    else [
      "كم عدد الاكتشافات في آخر 24 ساعة؟",
      "أظهر التنبيهات عالية الخطورة من اليوم",
      "ما هو متوسط عدد الجنود لكل اكتشاف؟",
      "اعرض جميع الاكتشافات بأكثر من 3 جنود"]
  }

  /** Clicking an example sends that question verbatim, whatever the input box holds. */
  lemma ExampleIsSentVerbatim(lang: I18n.Language, i: nat, input: string)
    requires i < 4
    ensures SendText(Some(ExampleQueries(lang)[i]), input) == ExampleQueries(lang)[i]
  {
  }

  /** The ids shown under a message: those of its first five referenced reports, in order;
      none when it references no report. */
  function ShownReportIds(m: Message): (ids: seq<string>)
    ensures |ids| <= 5
    ensures m.reports.None? ==> ids == []
    ensures m.reports.Some? ==> |ids| == if |m.reports.value| < 5 then |m.reports.value| else 5
    ensures m.reports.Some? ==> forall i :: 0 <= i < |ids| ==> ids[i] == m.reports.value[i].reportId
  {
    match m.reports
    case None => []
    case Some(reports) =>
      var shown := if |reports| < 5 then reports else reports[..5];
      seq(|shown|, i requires 0 <= i < |shown| => shown[i].reportId)
  }

  /** The page's state, updated in place by its handlers. */
  class AssistantState {
    var messages: seq<Message>
    var input: string
    var loading: bool

    function State(): Chat
      reads this
    {
      Chat(messages, input, loading)
    }

    constructor ()
      ensures messages == [] && input == "" && !loading
    {
      messages, input, loading := [], "", false;
    }

    /** The input box's change handler. */
    method SetInput(text: string)
      modifies this
      ensures input == text && messages == old(messages) && loading == old(loading)
    {
      input := text;
    }

    /** The part of `handleSend` before the call: with nothing to send, nothing changes and
        no request is made; otherwise the question is appended, the input cleared and
        loading set, and the question goes out as the `query` field of the form. */
    method BeginSend(base: string, query: Option<string>) returns (request: Option<Request>)
      modifies this
      ensures var text := SendText(query, old(input));
              && (text == "" ==> request == None && State() == old(State()))
              && (text != "" ==> && messages == old(messages) + [Message(User, text, None)]
                                 && input == "" && loading
                                 && request.Some?
                                 && request.value.verb == Post && request.value.query == []
                                 && request.value.url == base + "/api/moraqib_query"
                                 && request.value.body == Multipart([FormEntry("query", TextValue(text))]))
    {
      var text := SendText(query, input);
      if text == "" {
        request := None;
        return;
      }
      messages := messages + [Message(User, text, None)];
      input := "";
      loading := true;
      var r := QueryMoraqibRequest(base, text);
      request := Some(r);
    }

    /** The part after the call: one reply is appended and loading ends, on either path. */
    method FinishSend(reply: Result<MoraqibResponse, ClientError>, lang: I18n.Language)
      modifies this
      ensures messages == old(messages) + [ReplyMessage(reply, lang)]
      ensures input == old(input) && !loading
    {
      messages := messages + [ReplyMessage(reply, lang)];
      loading := false;
    }

    /** `handleSend(query?)` as one step, answered by `reply`. */
    method HandleSend(base: string, query: Option<string>, reply: Result<MoraqibResponse, ClientError>, lang: I18n.Language)
      returns (request: Option<Request>)
      modifies this
      ensures State() == Send(old(State()), query, reply, lang)
      ensures request.Some? <==> SendText(query, old(input)) != ""
      ensures request.Some? ==>
                request.value == Request(Post, base + "/api/moraqib_query", [],
                                         Multipart([FormEntry("query", TextValue(SendText(query, old(input))))]))
    {
      ghost var before := State();
      ghost var text := SendText(query, input);
      request := BeginSend(base, query);
      if request.Some? {
        FinishSend(reply, lang);
        assert messages == before.messages + [Message(User, text, None), ReplyMessage(reply, lang)];
      }
    }
  }
}
