/** The assistant chat (components/ChatBot.tsx): a keyword classifier over the
    lower-cased message, canned replies per category, and the conversation state with
    its pending replies. */
module ChatBot {
  import opened Options
  import Text

  const QuickSuggestions: seq<string> := [
    "What's the best GPU for 1440p gaming?",
    "How much RAM do I need for streaming?",
    "Intel vs AMD for productivity?",
    "Best budget gaming build under $1000?",
    "Do I need liquid cooling?"]

  datatype Category = Greeting | Gaming | Budget | Technical

  const GreetingReplies: seq<string> := [
    "Hi! I'm your AI PC building assistant. How can I help you create the perfect build today?",
    "Hello! Ready to build an amazing PC? I'm here to guide you through every step!",
    "Welcome! I'm your AI expert ready to help you build the PC of your dreams. What's your main use case?"]

  const GamingReplies: seq<string> := [
    "For gaming, I'd recommend focusing on a powerful GPU and balanced CPU. What's your target resolution and frame rate?",
    "Gaming builds benefit from high-performance graphics cards. Are you looking for 1080p, 1440p, or 4K gaming?",
    "Great choice! Gaming PCs need strong GPUs. What's your budget range and favorite games?"]

  const BudgetReplies: seq<string> := [
    "Budget is key to getting the right balance. For $800-1200 you can get excellent 1440p gaming. For $1500+ you're looking at 4K territory!",
    "I can work with any budget! Under $1000 gets you solid 1080p gaming, $1000-2000 is the sweet spot for most users.",
    "Let's optimize your budget! What's your target price range and primary use case?"]

  const TechnicalReplies: seq<string> := [
    "Great question! DDR5 is becoming the standard, and 16GB is typically enough for gaming, but 32GB future-proofs your build.",
    "For CPUs, both Intel and AMD offer excellent options. AMD Ryzen is great for productivity, Intel excels in gaming performance.",
    "Storage-wise, go for NVMe SSD as your primary drive. 1TB is the sweet spot for most users."]

  /** `botResponses[category]`: three replies in every category. */
  function Replies(c: Category): (r: seq<string>)
    ensures |r| == 3
  {
    match c
    case Greeting => GreetingReplies
    case Gaming => GamingReplies
    case Budget => BudgetReplies
    case Technical => TechnicalReplies
  }

  const GamingWords: seq<string> := ["gaming", "game", "fps", "gpu"]
  const BudgetWords: seq<string> := ["budget", "price", "cost", "$"]
  const TechnicalWords: seq<string> := ["ram", "cpu", "storage", "motherboard"]

  predicate MentionsAny(s: string, words: seq<string>) {
    exists i :: 0 <= i < |words| && Text.Contains(s, words[i])
  }

  /** The category `generateBotResponse` picks: gaming words win over budget words,
      which win over technical words; a message with none of them gets a greeting. */
  function Classify(message: string): Category {
    var lower := Text.ToLower(message);
    if MentionsAny(lower, GamingWords) then Gaming
    else if MentionsAny(lower, BudgetWords) then Budget
    else if MentionsAny(lower, TechnicalWords) then Technical
    else Greeting
  }

  /** The precedence of the categories in the test chain. */
  function Rank(c: Category): nat {
    match c
    case Greeting => 0
    case Technical => 1
    case Budget => 2
    case Gaming => 3
  }

  /** The classifier ignores letter case. */
  lemma ClassifyIgnoresCase(message: string)
    ensures Classify(Text.ToLower(message)) == Classify(message)
  {
    Text.ToLowerIdempotent(message);
  }

  /** A keyword found in a text is found in any text around it. */
  lemma MentionsAnyInConcat(s: string, words: seq<string>, pre: string, post: string)
    requires MentionsAny(s, words)
    ensures MentionsAny(pre + s + post, words)
  {
    var i :| 0 <= i < |words| && Text.Contains(s, words[i]);
    Text.ContainsInConcat(s, words[i], pre, post);
  }

  /** Text added around a message never lowers its category: a gaming message stays a
      gaming message, a budget message becomes a budget or a gaming message, and so on. */
  lemma ClassifyMonotone(message: string, pre: string, post: string)
    ensures Rank(Classify(pre + message + post)) >= Rank(Classify(message))
  {
    var lower := Text.ToLower(message);
    Text.ToLowerConcat(pre + message, post);
    Text.ToLowerConcat(pre, message);
    var whole := Text.ToLower(pre) + lower + Text.ToLower(post);
    assert Text.ToLower(pre + message + post) == whole;
    if MentionsAny(lower, GamingWords) {
      MentionsAnyInConcat(lower, GamingWords, Text.ToLower(pre), Text.ToLower(post));
    } else if MentionsAny(lower, BudgetWords) {
      MentionsAnyInConcat(lower, BudgetWords, Text.ToLower(pre), Text.ToLower(post));
    } else if MentionsAny(lower, TechnicalWords) {
      MentionsAnyInConcat(lower, TechnicalWords, Text.ToLower(pre), Text.ToLower(post));
    }
  }

  /** A message, without its id and time stamp. */
  datatype Message = Message(text: string, isBot: bool, suggestions: Option<seq<string>>)

  /** The suggestions a bot message may carry: `quickSuggestions.slice(from, to)` with
      `from` in 0..2 and `to` in 3..5. */
  ghost predicate SuggestionSlice(s: seq<string>) {
    exists from: nat, to: nat :: from < 3 && 3 <= to <= 5 && s == Suggestions(from, to)
  }

  function Suggestions(from: nat, to: nat): seq<string>
    requires from <= to <= 5
  {
    QuickSuggestions[from..to]
  }

  /** A bot message carries a slice of the quick suggestions. */
  ghost predicate WellFormedBotMessage(m: Message) {
    m.isBot && m.suggestions.Some? && SuggestionSlice(m.suggestions.value)
  }

  /** The greeting that opens the chat; `pick` is `Math.floor(Math.random() * 3)`. */
  function Welcome(pick: nat): (m: Message)
    requires pick < 3
    ensures WellFormedBotMessage(m) && m.text in GreetingReplies
    ensures m.suggestions == Some(QuickSuggestions[..3])
  {
    assert QuickSuggestions[..3] == Suggestions(0, 3);
    Message(GreetingReplies[pick], true, Some(QuickSuggestions[..3]))
  }

  /** `generateBotResponse(text)`: `pick`, `from` and `to - 3` are the three
      `Math.floor(Math.random() * 3)` draws. */
  function BotReply(userText: string, pick: nat, from: nat, to: nat): (m: Message)
    requires pick < 3 && from < 3 && 3 <= to <= 5
    ensures WellFormedBotMessage(m)
    ensures m.text in Replies(Classify(userText))
    ensures m.suggestions.Some? && 1 <= |m.suggestions.value| == to - from <= 5
    ensures forall s :: s in m.suggestions.value ==> s in QuickSuggestions
  {
    var suggestions := Suggestions(from, to);
    Message(Replies(Classify(userText))[pick], true, Some(suggestions))
  }

  /** `messageText || inputMessage.trim()`, and `None` when that is empty and nothing
      is sent. */
  function OutgoingText(messageText: Option<string>, input: string): (r: Option<string>)
    ensures r.Some? ==> r.value != []
    ensures messageText.Some? && messageText.value != [] ==> r == messageText
    ensures messageText.None? || messageText.value == [] ==>
      (r.None? <==> Text.Trim(input) == []) && (r.Some? ==> r.value == Text.Trim(input))
  {
    if messageText.Some? && messageText.value != [] then messageText
    else
      var t := Text.Trim(input);
      if t == [] then None else Some(t)
  }

  /** Without a suggestion, nothing is sent exactly when the input is all white space. */
  lemma BlankInputSendsNothing(messageText: Option<string>, input: string)
    requires messageText.None? || messageText.value == []
    ensures OutgoingText(messageText, input).None? <==>
      forall i :: 0 <= i < |input| ==> Text.IsWhiteSpace(input[i])
  {
    Text.TrimEmptyIff(input);
  }

  /** The number of bot messages (`bot`) or user messages (`!bot`) in a conversation. */
  function Count(ms: seq<Message>, bot: bool): nat {
    if ms == [] then 0 else Count(ms[..|ms| - 1], bot) + (if ms[|ms| - 1].isBot == bot then 1 else 0)
  }

  /** What the conversation always satisfies: it opens with the greeting `welcome`, bot
      messages carry suggestions, user messages are non-empty and carry none, and every
      message sent is answered once, by a reply shown or by one still pending. */
  ghost predicate ValidChat(welcome: Message, messages: seq<Message>, isTyping: bool, awaiting: seq<string>) {
    && (isTyping ==> |awaiting| > 0)
    && |messages| > 0 && messages[0] == welcome && welcome.isBot
    && (forall i :: 0 <= i < |messages| && messages[i].isBot ==> WellFormedBotMessage(messages[i]))
    && (forall i :: 0 <= i < |messages| && !messages[i].isBot ==>
          messages[i].text != [] && messages[i].suggestions.None?)
    && Count(messages, false) + 1 == Count(messages, true) + |awaiting|
  }

  /** Sending a non-empty text keeps the conversation valid. */
  lemma SendKeepsValid(welcome: Message, messages: seq<Message>, isTyping: bool, awaiting: seq<string>, text: string)
    requires ValidChat(welcome, messages, isTyping, awaiting) && text != []
    ensures ValidChat(welcome, messages + [Message(text, false, None)], true, awaiting + [text])
  {
    var ms := messages + [Message(text, false, None)];
    assert ms[..|messages|] == messages;
    assert forall i :: 0 <= i < |messages| ==> ms[i] == messages[i];
  }

  /** A reply arriving for the `k`-th pending message keeps the conversation valid. */
  lemma ReplyKeepsValid(welcome: Message, messages: seq<Message>, isTyping: bool, awaiting: seq<string>,
                        k: nat, reply: Message)
    requires ValidChat(welcome, messages, isTyping, awaiting) && k < |awaiting| && WellFormedBotMessage(reply)
    ensures ValidChat(welcome, messages + [reply], false, awaiting[..k] + awaiting[k + 1..])
  {
    var ms := messages + [reply];
    assert ms[..|messages|] == messages;
    assert forall i :: 0 <= i < |messages| ==> ms[i] == messages[i];
  }

  class Chat {
    var isOpen: bool
    var messages: seq<Message>
    var inputMessage: string
    var isTyping: bool
    /** The texts whose reply timer has not fired yet, in the order they were sent. */
    var awaiting: seq<string>
    /** The greeting the chat opened with. */
    ghost const welcome: Message

    ghost predicate Valid()
      reads this
    {
      ValidChat(welcome, messages, isTyping, awaiting)
    }

    constructor (pick: nat)
      requires pick < 3
      ensures Valid()
      ensures welcome == Welcome(pick)
      ensures !isOpen && messages == [Welcome(pick)] && inputMessage == [] && !isTyping && awaiting == []
    {
      welcome := Welcome(pick);
      isOpen := false;
      messages := [Welcome(pick)];
      inputMessage := [];
      isTyping := false;
      awaiting := [];
    }

    method Open()
      requires Valid()
      modifies this
      ensures Valid() && isOpen
      ensures messages == old(messages) && inputMessage == old(inputMessage)
      ensures isTyping == old(isTyping) && awaiting == old(awaiting)
    {
      isOpen := true;
    }

    method Close()
      requires Valid()
      modifies this
      ensures Valid() && !isOpen
      ensures messages == old(messages) && inputMessage == old(inputMessage)
      ensures isTyping == old(isTyping) && awaiting == old(awaiting)
    {
      isOpen := false;
    }

    /** Typing into the input, which is disabled while a reply is being typed. */
    method SetInput(v: string)
      requires Valid() && !isTyping
      modifies this
      ensures Valid() && inputMessage == v
      ensures isOpen == old(isOpen) && messages == old(messages)
      ensures isTyping == old(isTyping) && awaiting == old(awaiting)
    {
      inputMessage := v;
    }

    /** Whether the send button is enabled. */
    predicate SendEnabled()
      reads this
    {
      Text.Trim(inputMessage) != [] && !isTyping
    }

    /** `handleSendMessage(messageText)`: from a suggestion (`Some`), or from the input
        (`None`: the Enter key and the send button). The user's message is appended, the
        input cleared, and a reply scheduled. */
    method SendMessage(messageText: Option<string>)
      requires Valid()
      modifies this
      ensures Valid() && isOpen == old(isOpen)
      ensures var t := OutgoingText(messageText, old(inputMessage));
        if t.None? then
          messages == old(messages) && inputMessage == old(inputMessage)
          && isTyping == old(isTyping) && awaiting == old(awaiting)
        else
          messages == old(messages) + [Message(t.value, false, None)]
          && inputMessage == [] && isTyping && awaiting == old(awaiting) + [t.value]
    {
      var t := OutgoingText(messageText, inputMessage);
      if t.Some? {
        SendKeepsValid(welcome, messages, isTyping, awaiting, t.value);
        messages := messages + [Message(t.value, false, None)];
        inputMessage := [];
        isTyping := true;
        awaiting := awaiting + [t.value];
      }
    }

    /** The reply timer of the `k`-th pending message fires: its reply is appended and the
        typing indicator goes off, even when other replies are still pending. The timers
        run for random delays, so any pending reply may come first. */
    method ReplyArrives(k: nat, pick: nat, from: nat, to: nat)
      requires Valid() && k < |awaiting|
      requires pick < 3 && from < 3 && 3 <= to <= 5
      modifies this
      ensures Valid()
      ensures messages == old(messages) + [BotReply(old(awaiting)[k], pick, from, to)]
      ensures awaiting == old(awaiting)[..k] + old(awaiting)[k + 1..] && !isTyping
      ensures isOpen == old(isOpen) && inputMessage == old(inputMessage)
    {
      var m := BotReply(awaiting[k], pick, from, to);
      ReplyKeepsValid(welcome, messages, isTyping, awaiting, k, m);
      messages := messages + [m];
      awaiting := awaiting[..k] + awaiting[k + 1..];
      isTyping := false;
    }
  }

  /** With the send button enabled, pressing it sends the trimmed input. */
  lemma SendButtonSendsTrimmedInput(input: string)
    requires Text.Trim(input) != []
    ensures OutgoingText(None, input) == Some(Text.Trim(input))
  {
  }
}
