/**
 * The conversation held by the chat component (`ChatInterface`): its
 * message list, typing flag and input buffer, the canned reply generator,
 * and the way user input and inbound socket payloads update them.
 *
 * Clock readings (`Date.now()`, `new Date()`) are parameters `now` in
 * milliseconds; the parsed JSON of an inbound socket message is a
 * `Payload`, with `ParseError` for text that `JSON.parse` rejects.
 */
module Chat {
  import opened Wrappers
  import opened Text
  import opened Transport

  datatype Sender = User | Bot | System

  datatype InputType = TextInput | VoiceInput

  /** The `metadata` record; the component only ever stores `inputType` in it. */
  datatype Metadata = Metadata(inputType: InputType)

  datatype ChatMessage = ChatMessage(id: string, sender: Sender, content: string, timestamp: int, metadata: Option<Metadata>)

  /**
   * Inbound socket data after `JSON.parse`, classified by its `type` field:
   * "message", "typing", anything else, or text that does not parse.
   */
  datatype Payload =
    | MessagePayload(id: Option<string>, content: string, timestamp: int)
    | TypingPayload(isTyping: bool)
    /** Any other `type`: the one case, besides a parse error, that the effect ignores. */
    | OtherPayload(kind: string)
    | ParseError

  const GreetingText: string := "Hello! I'm your AI assistant. How can I help you today?"

  /** The only message of a fresh or cleared conversation. */
  function GreetingMessage(now: int): ChatMessage
  {
    ChatMessage("1", Bot, GreetingText, now, None)
  }

  predicate IsGreeting(m: ChatMessage)
  {
    m.id == "1" && m.sender == Bot && m.content == GreetingText && m.metadata == None
  }

  function InputTypeName(t: InputType): string
  {
    match t
    case TextInput => "text"
    case VoiceInput => "voice"
  }

  // ---------------------------------------------------------------------
  // The canned reply generator


  /** `generateBotResponse`: the reply of the branch its if-chain takes on the lower-cased input. */
  function GenerateBotResponse(userInput: string): string
  {
    ReplyFor(Branch(LowerCase(userInput)))
  }

  /** The if-chain of `generateBotResponse` on the lower-cased `input`: which of its six returns is taken. */
  function Branch(input: string): Topic
  {
    if Contains(input, "hello") || Contains(input, "hi") then Greeting
    else if Contains(input, "product") || Contains(input, "search") || Contains(input, "find") then Products
    else if Contains(input, "weather") then Weather
    else if Contains(input, "voice") || Contains(input, "speak") then VoiceTopic
    else if Contains(input, "help") then Help
    else Fallback
  }

  /** The reply groups: the six returns of the generator. */
  datatype Topic = Greeting | Products | Weather | VoiceTopic | Help | Fallback

  function Keywords(t: Topic): seq<string>
  {
    match t
    case Greeting => ["hello", "hi"]
    case Products => ["product", "search", "find"]
    case Weather => ["weather"]
    case VoiceTopic => ["voice", "speak"]
    case Help => ["help"]
    case Fallback => []
  }

  /** The order in which the groups are tested. */
  const Priority: seq<Topic> := [Greeting, Products, Weather, VoiceTopic, Help]

  /** The reply each branch of the generator returns. */
  function ReplyFor(t: Topic): string
  {
    match t
    case Greeting =>
      "Hello! I'm your AI assistant. I can help you with various tasks. Try asking me about products, weather, or just have a conversation!"
    case Products =>
      "I'd be happy to help you find products! In a production environment, I would connect to product catalogs and search APIs. What specific product are you looking for?"
    case Weather =>
      "I can help with weather information! However, I'm currently running in demo mode without live API connections. In production, I would integrate with weather services like OpenWeatherMap or AccuWeather to provide real-time forecasts, current conditions, and weather alerts for your location."
    case VoiceTopic =>
      "Great! You can switch to voice mode using the toggle in the header. I support both speech-to-text and text-to-speech capabilities."
    case Help =>
      "I'm an AI assistant with multiple capabilities:\n\n\U{2022} Voice and text conversation\n\U{2022} Product search and recommendations\n\U{2022} Weather information\n\U{2022} General question answering\n\U{2022} Multi-language support\n\nWhat would you like to try?"
    case Fallback =>
      "That's interesting! I'm designed to handle various types of conversations and tasks. In a production environment, I would process your request through advanced NLU systems and provide more contextual responses. How else can I assist you?"
  }

  /** Some keyword of group `t` occurs in `input`. */
  predicate Mentions(input: string, t: Topic)
  {
    exists i :: 0 <= i < |Keywords(t)| && Contains(input, Keywords(t)[i])
  }

  /** The first group in `topics` that `input` mentions, or `Fallback`. */
  function FirstMatch(input: string, topics: seq<Topic>): (t: Topic)
    ensures t == Fallback || t in topics
  {
    if topics == [] then Fallback
    else if Mentions(input, topics[0]) then topics[0]
    else FirstMatch(input, topics[1..])
  }

  function Classify(userInput: string): Topic
  {
    FirstMatch(LowerCase(userInput), Priority)
  }

  /** The keyword groups spelled out. */
  lemma MentionsSpelledOut(input: string)
    ensures Mentions(input, Greeting) <==> Contains(input, "hello") || Contains(input, "hi")
    ensures Mentions(input, Products) <==> Contains(input, "product") || Contains(input, "search") || Contains(input, "find")
    ensures Mentions(input, Weather) <==> Contains(input, "weather")
    ensures Mentions(input, VoiceTopic) <==> Contains(input, "voice") || Contains(input, "speak")
    ensures Mentions(input, Help) <==> Contains(input, "help")
  {
    assert Keywords(Greeting)[0] == "hello" && Keywords(Greeting)[1] == "hi";
    assert Keywords(Products)[0] == "product" && Keywords(Products)[1] == "search" && Keywords(Products)[2] == "find";
    assert Keywords(Weather)[0] == "weather";
    assert Keywords(VoiceTopic)[0] == "voice" && Keywords(VoiceTopic)[1] == "speak";
    assert Keywords(Help)[0] == "help";
  }

  /** The if-chain is the first-match lookup in the keyword table, an independent definition of the branch taken. */
  lemma BranchIsFirstMatch(input: string)
    ensures Branch(input) == FirstMatch(input, Priority)
  {
    MentionsSpelledOut(input);
    var p1 := [Products, Weather, VoiceTopic, Help];
    var p2 := [Weather, VoiceTopic, Help];
    var p3 := [VoiceTopic, Help];
    var p4 := [Help];
    assert Priority[0] == Greeting && Priority[1..] == p1;
    assert p1[0] == Products && p1[1..] == p2;
    assert p2[0] == Weather && p2[1..] == p3;
    assert p3[0] == VoiceTopic && p3[1..] == p4;
    assert p4[0] == Help && p4[1..] == [];
    assert FirstMatch(input, Priority) == if Mentions(input, Greeting) then Greeting else FirstMatch(input, p1);
    assert FirstMatch(input, p1) == if Mentions(input, Products) then Products else FirstMatch(input, p2);
    assert FirstMatch(input, p2) == if Mentions(input, Weather) then Weather else FirstMatch(input, p3);
    assert FirstMatch(input, p3) == if Mentions(input, VoiceTopic) then VoiceTopic else FirstMatch(input, p4);
    assert FirstMatch(input, p4) == if Mentions(input, Help) then Help else Fallback;
  }

  /** The generator's reply is the reply of the table lookup on the lower-cased input. */
  lemma ResponseIsFirstMatch(userInput: string)
    ensures GenerateBotResponse(userInput) == ReplyFor(Classify(userInput))
  {
    BranchIsFirstMatch(LowerCase(userInput));
  }

  lemma {:induction false} FirstMatchIff(input: string, topics: seq<Topic>, k: nat)
    requires k < |topics|
    requires forall i, j :: 0 <= i < j < |topics| ==> topics[i] != topics[j]
    requires Fallback !in topics
    ensures FirstMatch(input, topics) == topics[k] <==>
      Mentions(input, topics[k]) && forall j :: 0 <= j < k ==> !Mentions(input, topics[j])
    decreases k
  {
    if k > 0 {
      var tail := topics[1..];
      assert tail[k - 1] == topics[k];
      forall i, j | 0 <= i < j < |tail| ensures tail[i] != tail[j] {
        assert tail[i] == topics[i + 1] && tail[j] == topics[j + 1];
      }
      FirstMatchIff(input, tail, k - 1);
      if Mentions(input, topics[0]) {
        assert topics[0] != topics[k];
      } else {
        forall j | 0 < j < k ensures topics[j] == tail[j - 1] { }
      }
    }
  }

  lemma {:induction false} FirstMatchFallback(input: string, topics: seq<Topic>)
    requires Fallback !in topics
    ensures FirstMatch(input, topics) == Fallback <==> forall j :: 0 <= j < |topics| ==> !Mentions(input, topics[j])
    decreases |topics|
  {
    if topics != [] {
      FirstMatchFallback(input, topics[1..]);
      if !Mentions(input, topics[0]) {
        forall j | 0 < j < |topics| ensures topics[j] == topics[1..][j - 1] { }
      }
    }
  }

  /**
   * First-match precedence: the input falls in group k exactly when its
   * lower-cased form mentions group k and none of the groups tested before
   * it, and in the default group exactly when it mentions no group.
   */
  lemma ResponsePrecedence(userInput: string, k: nat)
    requires k < |Priority|
    ensures Classify(userInput) == Priority[k] <==>
      Mentions(LowerCase(userInput), Priority[k]) &&
      forall j :: 0 <= j < k ==> !Mentions(LowerCase(userInput), Priority[j])
    ensures Classify(userInput) == Fallback <==>
      forall j :: 0 <= j < |Priority| ==> !Mentions(LowerCase(userInput), Priority[j])
  {
    FirstMatchIff(LowerCase(userInput), Priority, k);
    FirstMatchFallback(LowerCase(userInput), Priority);
  }

  /** Any input whose lower-cased form contains "hi" (say "which weather") gets the greeting reply. */
  lemma HiMeansGreeting(userInput: string)
    requires Contains(LowerCase(userInput), "hi")
    ensures Classify(userInput) == Greeting
  {
    BranchIsFirstMatch(LowerCase(userInput));
  }

  /** Case does not matter: the lower-cased input gets the same reply. */
  lemma ResponseIgnoresCase(userInput: string)
    ensures GenerateBotResponse(LowerCase(userInput)) == GenerateBotResponse(userInput)
  {
    LowerCaseIdempotent(userInput);
  }

  /** A string with no capital letter, U+0130 or U+212A is its own lower-case form. */
  lemma {:induction false} LowerCaseOfLower(s: string)
    requires forall i :: 0 <= i < |s| ==> !('A' <= s[i] <= 'Z') && s[i] != '\U{130}' && s[i] != '\U{212A}'
    ensures LowerCase(s) == s
    decreases |s|
  {
    if s != [] {
      LowerCaseOfLower(s[1..]);
    }
  }

  /** Worked examples: an input mentioning several groups gets the reply of the first. */
  lemma WhichWeatherIsGreeting(s: string)
    requires s == "which weather"
    ensures Classify(s) == Greeting
  {
    var a, b := s[..3], s[3..];
    assert s == a + b;
    LowerCaseAppend(a, b);
    LowerCaseOfLower(a);
    var t := LowerCase(s);
    assert t[1..3] == a[1..3] == "hi";
    ContainsAt(t, "hi", 1);
    HiMeansGreeting(s);
  }

  lemma HelloWeatherIsGreeting(s: string)
    requires s == "hello weather"
    ensures Classify(s) == Greeting
  {
    var a, b := s[..5], s[5..];
    assert s == a + b;
    LowerCaseAppend(a, b);
    LowerCaseOfLower(a);
    var t := LowerCase(s);
    assert t[..5] == a;
    ContainsAt(t, "hello", 0);
    BranchIsFirstMatch(t);
  }

  lemma HiThereIsGreeting(s: string)
    requires s == "Hi there"
    ensures Classify(s) == Greeting
  {
    var b := s[1..];
    assert s == [s[0]] + b;
    LowerCaseAppend([s[0]], b);
    LowerCaseOfLower(b);
    assert LowerCase([s[0]]) == LowerChar(s[0]) + LowerCase([]);
    var t := LowerCase(s);
    assert t == ['h'] + b;
    assert t[..2] == "hi";
    ContainsAt(t, "hi", 0);
    BranchIsFirstMatch(t);
  }

  lemma EmptyInputIsDefault(s: string)
    requires s == ""
    ensures Classify(s) == Fallback
  {
    BranchIsFirstMatch(s);
  }

  // ---------------------------------------------------------------------
  // The component's state

  /** The payload `handleSendMessage` forwards over the socket. */
  function Outbound(userId: string, content: string, inputType: InputType, voiceMode: bool): (m: OutboundMessage)
    ensures m.kind == "message" && m.userId == userId && m.text == content
    ensures m.channel == "voice" <==> voiceMode
    ensures !voiceMode ==> m.channel == "web"
    ensures m.inputType == InputTypeName(inputType)
  {
    OutboundMessage("message", userId, if voiceMode then "voice" else "web", content, InputTypeName(inputType))
  }

  /** `data.id || Date.now().toString()`: an empty id counts as missing, so the id is never empty. */
  function InboundId(id: Option<string>, now: nat): (r: string)
    ensures r != ""
    ensures id.Some? && id.value != "" ==> r == id.value
  {
    if id.Some? && id.value != "" then id.value else DecimalString(now)
  }

  class ChatInterface {
    /** `useAuth().user`, by its id. */
    const user: Option<string>
    const socket: WebSocketHook
    var messages: seq<ChatMessage>
    var inputValue: string
    var isVoiceMode: bool
    var isTyping: bool
    /** The contents captured by local-reply timers still to fire; equal delays fire in the order they were set. */
    var replyTimers: seq<string>

    /** The conversation always starts with the greeting, and the socket hook is enabled exactly when there is a user. */
    ghost predicate Valid()
      reads this, socket
    {
      && |messages| >= 1 && IsGreeting(messages[0])
      && socket.Valid()
      && socket.config == Config(user.Some?, true)
    }

    /** Mounting: the greeting, an empty input in text mode, and the socket hook for `ws://localhost:8080/ws`, a well-formed URL. */
    constructor (user: Option<string>, now: int)
      ensures Valid() && this.user == user && fresh(socket)
      ensures messages == [GreetingMessage(now)]
      ensures inputValue == "" && !isVoiceMode && !isTyping && replyTimers == []
      ensures socket.State() == Mounted(Config(user.Some?, true))
    {
      this.user := user;
      socket := new WebSocketHook(Config(user.Some?, true));
      messages := [GreetingMessage(now)];
      inputValue := "";
      isVoiceMode := false;
      isTyping := false;
      replyTimers := [];
    }

    /** The input's `onChange`. */
    method SetInput(value: string)
      requires Valid()
      modifies this
      ensures Valid() && inputValue == value
      ensures messages == old(messages) && isTyping == old(isTyping) && isVoiceMode == old(isVoiceMode)
      ensures replyTimers == old(replyTimers)
    {
      inputValue := value;
    }

    /** The header's mode toggle. */
    method ToggleVoiceMode()
      requires Valid()
      modifies this
      ensures Valid() && isVoiceMode == !old(isVoiceMode)
      ensures messages == old(messages) && isTyping == old(isTyping) && inputValue == old(inputValue)
      ensures replyTimers == old(replyTimers)
    {
      isVoiceMode := !isVoiceMode;
    }

    /** Whether `handleSendMessage` proceeds past its guard. */
    predicate Accepts(content: string)
    {
      Trim(content) != [] && user.Some?
    }

    /**
     * `handleSendMessage`: unless the content is blank or there is no user,
     * append the user's message, clear the input, show the typing
     * indicator, start the local-reply timer, and forward the text over the
     * socket when its status is Open.
     */
    method HandleSendMessage(content: string, inputType: InputType, now: nat)
      requires Valid()
      modifies this, socket
      ensures Valid() && isVoiceMode == old(isVoiceMode)
      ensures !Accepts(content) ==>
        && messages == old(messages) && inputValue == old(inputValue) && isTyping == old(isTyping)
        && replyTimers == old(replyTimers) && socket.State() == old(socket.State())
      ensures Accepts(content) ==>
        && messages == old(messages) + [ChatMessage(DecimalString(now), User, content, now, Some(Metadata(inputType)))]
        && inputValue == "" && isTyping
        && replyTimers == old(replyTimers) + [content]
      ensures Accepts(content) && old(socket.connectionStatus) == Open ==>
        socket.State() == AfterSend(old(socket.State()), Outbound(user.value, content, inputType, isVoiceMode))
      ensures !(Accepts(content) && old(socket.connectionStatus) == Open) ==> socket.State() == old(socket.State())
    {
      if Trim(content) == [] || user.None? {
        return;
      }
      var userMessage := ChatMessage(DecimalString(now), User, content, now, Some(Metadata(inputType)));
      messages := messages + [userMessage];
      inputValue := "";
      isTyping := true;
      replyTimers := replyTimers + [content];
      if socket.connectionStatus == Open {
        socket.SendMessage(Outbound(user.value, content, inputType, isVoiceMode));
      }
    }

    /** Enter in the input, or the send button: send what was typed, as text input. */
    method SubmitInput(now: nat)
      requires Valid()
      modifies this, socket
      ensures Valid() && isVoiceMode == old(isVoiceMode)
      ensures !Accepts(old(inputValue)) ==>
        && messages == old(messages) && inputValue == old(inputValue) && isTyping == old(isTyping)
        && replyTimers == old(replyTimers) && socket.State() == old(socket.State())
      ensures Accepts(old(inputValue)) ==>
        && messages == old(messages) + [ChatMessage(DecimalString(now), User, old(inputValue), now, Some(Metadata(TextInput)))]
        && inputValue == "" && isTyping
        && replyTimers == old(replyTimers) + [old(inputValue)]
      ensures Accepts(old(inputValue)) && old(socket.connectionStatus) == Open ==>
        socket.State() == AfterSend(old(socket.State()), Outbound(user.value, old(inputValue), TextInput, isVoiceMode))
      ensures !(Accepts(old(inputValue)) && old(socket.connectionStatus) == Open) ==> socket.State() == old(socket.State())
    {
      HandleSendMessage(inputValue, TextInput, now);
    }

    /** `handleVoiceInput`: a transcript from the recorder is sent as voice input. */
    method HandleVoiceInput(transcript: string, now: nat)
      requires Valid()
      modifies this, socket
      ensures Valid() && isVoiceMode == old(isVoiceMode)
      ensures !Accepts(transcript) ==>
        && messages == old(messages) && inputValue == old(inputValue) && isTyping == old(isTyping)
        && replyTimers == old(replyTimers) && socket.State() == old(socket.State())
      ensures Accepts(transcript) ==>
        && messages == old(messages) + [ChatMessage(DecimalString(now), User, transcript, now, Some(Metadata(VoiceInput)))]
        && inputValue == "" && isTyping
        && replyTimers == old(replyTimers) + [transcript]
      ensures Accepts(transcript) && old(socket.connectionStatus) == Open ==>
        socket.State() == AfterSend(old(socket.State()), Outbound(user.value, transcript, VoiceInput, isVoiceMode))
      ensures !(Accepts(transcript) && old(socket.connectionStatus) == Open) ==> socket.State() == old(socket.State())
    {
      HandleSendMessage(transcript, VoiceInput, now);
    }

    /** The oldest local-reply timer fires: append the canned reply to the content it captured and hide the typing indicator. */
    method OnLocalReplyTimer(now: nat)
      requires Valid() && |replyTimers| > 0
      modifies this
      ensures Valid() && !isTyping
      ensures messages == old(messages) + [ChatMessage(DecimalString(now + 1), Bot, GenerateBotResponse(old(replyTimers)[0]), now, None)]
      ensures replyTimers == old(replyTimers)[1..]
      ensures inputValue == old(inputValue) && isVoiceMode == old(isVoiceMode)
    {
      var content := replyTimers[0];
      replyTimers := replyTimers[1..];
      var botResponse := GenerateBotResponse(content);
      messages := messages + [ChatMessage(DecimalString(now + 1), Bot, botResponse, now, None)];
      isTyping := false;
    }

    /**
     * The effect on a new `lastMessage`: a `message` payload appends a bot
     * message and hides the typing indicator, a `typing` payload sets the
     * indicator, and anything else, a parse failure included, changes nothing.
     */
    method HandleInbound(p: Payload, now: nat)
      requires Valid()
      modifies this
      ensures Valid()
      ensures inputValue == old(inputValue) && isVoiceMode == old(isVoiceMode) && replyTimers == old(replyTimers)
      ensures p.MessagePayload? ==>
        messages == old(messages) + [ChatMessage(InboundId(p.id, now), Bot, p.content, p.timestamp, None)] && !isTyping
      ensures p.TypingPayload? ==> messages == old(messages) && isTyping == p.isTyping
      ensures p.OtherPayload? || p.ParseError? ==> messages == old(messages) && isTyping == old(isTyping)
    {
      match p
      case MessagePayload(id, content, timestamp) =>
        messages := messages + [ChatMessage(InboundId(id, now), Bot, content, timestamp, None)];
        isTyping := false;
      case TypingPayload(typing) =>
        isTyping := typing;
      case OtherPayload(_) =>
      case ParseError =>
    }

    /** `clearMessages`: back to the single greeting; the typing flag and pending timers are untouched. */
    method ClearMessages(now: int)
      requires Valid()
      modifies this
      ensures Valid() && messages == [GreetingMessage(now)]
      ensures isTyping == old(isTyping) && inputValue == old(inputValue) && isVoiceMode == old(isVoiceMode)
      ensures replyTimers == old(replyTimers)
    {
      messages := [GreetingMessage(now)];
    }
  }
}
