/**
 The chat widget's conversation state. The React component keeps three
 pieces of state (`messages`, `inputValue`, `isTyping`); sending a message
 appends it, clears the input, shows the typing indicator and schedules a
 reply one second later. The reply comes from a keyword table kept in the
 widget itself.

 The scheduled callback is the explicit step `CompleteReply`; the clock that
 gives message ids and timestamps is the parameter `now`.
 */
module FinanceChatbot {
  import opened Wrappers
  import opened Strings
  import opened KeywordTable

  /** The keys of `predefinedResponses`, in declaration order; the last is `default`. */
  const ResponseKeys: seq<string> := [
      "مرحبا",
      "السلام عليكم",
      "هلا",
      "ما هي الأسهم",
      "ما هو السهم",
      "كيف أشتري أسهم",
      "ما هو المال",
      "كيف أوفر المال",
      "لماذا نوفر المال",
      "ما هو الاستثمار",
      "لماذا أستثمر",
      "هل الأسهم آمنة",
      "ما هي المخاطر",
      "كيف أبدأ الادخار",
      "ما أهمية الادخار",
      "default"
    ]

  /** The replies of `predefinedResponses`, in the order of their keys. */
  const ResponseReplies: seq<string> := [
      "مرحباً بك! أنا مساعدك لتعلم الأسهم والمال بطريقة سهلة وممتعة! 🌟",
      "وعليكم السلام ورحمة الله وبركاته! كيف يمكنني مساعدتك في تعلم الأموال اليوم؟ 😊",
      "أهلاً وسهلاً! هل تريد تعلم شيء جديد عن الأموال والأسهم؟ 🎈",
      "الأسهم هي مثل قطع صغيرة من الشركات! 🧩 عندما تشتري سهماً، تصبح مالكاً لجزء صغير من تلك الشركة. مثل لو كان لديك قطعة من كعكة كبيرة! 🍰",
      "السهم هو مثل تذكرة دخول لتصبح شريكاً في شركة! 🎫 كلما نجحت الشركة أكثر، كلما أصبحت تذكرتك أغلى! 💰",
      "لشراء الأسهم، تحتاج أولاً أن تكبر وتفتح حساباً في البنك أو شركة الوساطة. لكن يمكنك الآن أن تتعلم وتخطط! 📚✨",
      "المال هو وسيلة نستخدمها لشراء الأشياء التي نحتاجها ونريدها! 💰 مثل الطعام والألعاب والكتب. يأتي من العمل والادخار! 🏦",
      "يمكنك توفير المال بوضع جزء من مصروفك في حصالة! 🐷 مثلاً، إذا أعطاك والداك 10 ريال، ضع ريالين في الحصالة واستخدم الباقي! 💡",
      "نوفر المال للأشياء المهمة في المستقبل! 🌟 ��ثل شراء لعبة غالية، أو الدراسة في الجامعة، أو حتى مساعدة الآخرين! ❤️",
      "الاستثمار مثل زراعة البذور! 🌱 تضع مالك في مكان آمن لينمو ويصبح أكثر مع الوقت، مثل الشجرة التي تكبر وتعطي ثماراً! 🌳🍎",
      "نستثمر لأن المال الذي نتركه نائماً لا ينمو! 😴 لكن المال المستثمر يعمل لنا حتى ونحن نائمون! مثل النحلة التي تصنع العسل! 🐝🍯",
      "الأسهم مثل ركوب الأرجوحة! 🎢 أحياناً تصعد وأحياناً تنزل. لهذا نتعلم أولاً ونستثمر أموالاً قليلة فقط! الأمان يأتي من التعلم! 📖",
      "المخاطر مثل المطر! ☔ أحياناً تحدث، لكن إذا كنا مستعدين بالمظلة (التعلم والتخطيط)، لن نبتل كثيراً! 🌂",
      "ابدأ بحصالة صغيرة! 🐷 ضع فيها ريالاً واحداً كل يوم، وستندهش كم ستجمع في الشهر! الادخار مثل لعبة ممتعة! 🎮",
      "الادخار مثل المظلة في يوم ممطر! ☂️ يحمينا عندما نحتاج المال فجأة، ويساعدنا في تحقيق أحلامنا الكبيرة! ✨",
      "هذا سؤال رائع! 🌟 أنا أتخصص في تعليم الأموال والأسهم للأطفال. هل يمكنك أن تسأل عن شيء متعلق بالمال أو الأسهم؟ مثل \"ما هي الأسهم؟\" أو \"كيف أوفر المال؟\" 💰📚"
    ]

  /** The key of the entry used when nothing matches; the scan never tests it. */
  const DefaultKey: string := "default"

  /** `predefinedResponses.default`. */
  const DefaultResponse: string := ResponseReplies[15]

  /** The greeting the conversation starts with. */
  const Welcome: string :=
    "مرحباً بك في مدرسة المال الصغيرة! 🏫💰 أنا هنا لأعلمك كل شيء عن الأموال والأسهم بطريقة سهلة وممتعة! اسألني أي سؤال عن المال! 🌟"

  datatype Sender = User | Bot

  /** A chat bubble; `id` and `timestamp` come from the clock and are otherwise opaque. */
  datatype Message = Message(id: int, text: string, sender: Sender, timestamp: int)

  /** `getBotResponse`: the table applied to the lowercased, trimmed message, passing over the `default` entry. */
  function GetBotResponse(userMessage: string): (r: string)
    ensures r != [] && r in ResponseReplies
    ensures forall k :: IsFirstMatch(ResponseKeys, {DefaultKey}, Normalize(userMessage), k) ==>
      r == ResponseReplies[k] && ResponseKeys[k] != DefaultKey
    ensures NoMatch(ResponseKeys, {DefaultKey}, Normalize(userMessage)) ==> r == DefaultResponse
  {
    ResponseTableShape();
    Lookup(ResponseKeys, ResponseReplies, {DefaultKey}, Normalize(userMessage), DefaultResponse)
  }

  /** One reply per key, no reply is empty, and the last entry is the `default` one. */
  lemma ResponseTableShape()
    ensures |ResponseKeys| == |ResponseReplies| == 16
    ensures RepliesNonEmpty(ResponseReplies)
    ensures ResponseKeys[15] == DefaultKey && DefaultResponse in ResponseReplies
  {
  }

  /** For a message already in normal form, the reply is decided by the message itself. */
  lemma BotResponseForNormalMessage(m: string)
    requires Normalize(m) == m
    ensures forall k :: IsFirstMatch(ResponseKeys, {DefaultKey}, m, k) ==> GetBotResponse(m) == ResponseReplies[k]
    ensures NoMatch(ResponseKeys, {DefaultKey}, m) ==> GetBotResponse(m) == DefaultResponse
  {
  }

  /** The greeting keyword is the first entry, so it is its own first match. */
  lemma GreetingKeyMatchesFirst(m: string)
    requires m == "مرحبا"
    ensures IsFirstMatch(ResponseKeys, {DefaultKey}, m, 0)
  {
    assert OccursAt(m, ResponseKeys[0], 0);
  }

  /** The greeting keyword is already lowercased and trimmed. */
  lemma GreetingIsNormal(m: string)
    requires m == "مرحبا"
    ensures Normalize(m) == m
  {
    assert IsPlain(m);
    PlainMessageIsNormal(m);
  }

  /** The greeting keyword gets the greeting reply. */
  lemma GreetingAnswered(m: string)
    requires m == "مرحبا"
    ensures GetBotResponse(m) == ResponseReplies[0]
  {
    GreetingKeyMatchesFirst(m);
    GreetingIsNormal(m);
    BotResponseForNormalMessage(m);
  }

  /** In the question how to save money, the saving key is the first that occurs. */
  lemma SavingKeyMatchesFirst(m: string)
    requires m == "كيف أوفر المال"
    ensures IsFirstMatch(ResponseKeys, {DefaultKey}, m, 7)
  {
    AbsentCharNotContained(m, ResponseKeys[0], 2);
    AbsentCharNotContained(m, ResponseKeys[1], 2);
    AbsentCharNotContained(m, ResponseKeys[2], 0);
    AbsentCharNotContained(m, ResponseKeys[3], 3);
    AbsentCharNotContained(m, ResponseKeys[4], 3);
    AbsentCharNotContained(m, ResponseKeys[5], 5);
    AbsentCharNotContained(m, ResponseKeys[6], 3);
    assert OccursAt(m, ResponseKeys[7], 0);
  }

  /** The question how to save money is already lowercased and trimmed. */
  lemma SavingQuestionIsNormal(m: string)
    requires m == "كيف أوفر المال"
    ensures Normalize(m) == m
  {
    assert IsPlain(m);
    PlainMessageIsNormal(m);
  }

  /** Asking how to save money gets the piggy-bank reply. */
  lemma SavingQuestionAnswered(m: string)
    requires m == "كيف أوفر المال"
    ensures GetBotResponse(m) == ResponseReplies[7]
  {
    SavingKeyMatchesFirst(m);
    SavingQuestionIsNormal(m);
    BotResponseForNormalMessage(m);
  }

  /** The word "default" contains none of the Arabic keys, and the `default` key itself is skipped. */
  lemma DefaultWordMatchesNoKey(m: string)
    requires m == "default"
    ensures NoMatch(ResponseKeys, {DefaultKey}, m)
  {
    forall k | 0 <= k < |ResponseKeys| - 1
      ensures !Contains(m, ResponseKeys[k])
    {
      AbsentCharNotContained(m, ResponseKeys[k], 0);
    }
  }

  /** The word "default" is already lowercased and trimmed. */
  lemma DefaultWordIsNormal(m: string)
    requires m == "default"
    ensures Normalize(m) == m
  {
    assert IsPlain(m);
    PlainMessageIsNormal(m);
  }

  /** A message that is the word "default" gets the default reply, although a key of that name exists. */
  lemma DefaultKeyIsNeverMatched(m: string)
    requires m == "default"
    ensures NoMatch(ResponseKeys, {DefaultKey}, Normalize(m))
    ensures GetBotResponse(m) == DefaultResponse
  {
    DefaultWordMatchesNoKey(m);
    DefaultWordIsNormal(m);
    BotResponseForNormalMessage(m);
  }

  /** Every key of the table, `default` included, is free of surrounding whitespace. */
  lemma ResponseKeysAreTrimmed()
    ensures KeysAreTrimmed(ResponseKeys)
  {
  }

  /** A whitespace-only message gets the default reply. */
  lemma BlankMessageGetsDefaultResponse(m: string)
    requires IsBlank(m)
    ensures GetBotResponse(m) == DefaultResponse
  {
    ResponseKeysAreTrimmed();
    BlankMessageMatchesNothing(ResponseKeys, {DefaultKey}, m);
  }

  /**
   One message following another in a transcript: the senders alternate, a
   user message is non-blank, and a bot reply is what `respond` answers to the
   user message just before it.
   */
  ghost predicate Follows(respond: string -> string, previous: Message, next: Message) {
    next.sender != previous.sender
    && (next.sender == User ==> !IsBlank(next.text))
    && (next.sender == Bot ==> next.text == respond(previous.text))
  }

  /** A transcript of the widget: a bot message, then each message following the one before it. */
  ghost predicate IsConversation(respond: string -> string, messages: seq<Message>)
    decreases |messages|
  {
    |messages| >= 1 && messages[0].sender == Bot
    && (|messages| >= 2 ==>
      IsConversation(respond, messages[..|messages| - 1])
      && Follows(respond, messages[|messages| - 2], messages[|messages| - 1]))
  }

  /** Appending a message that follows the last one extends a conversation. */
  lemma AppendExtendsConversation(respond: string -> string, messages: seq<Message>, m: Message)
    requires IsConversation(respond, messages) && Follows(respond, messages[|messages| - 1], m)
    ensures IsConversation(respond, messages + [m])
    ensures (messages + [m])[0] == messages[0] && (messages + [m])[|messages|] == m
  {
    var extended := messages + [m];
    DropLastOfAppend(messages, m);
    assert extended[0] == messages[0];
    assert extended[|messages| - 1] == messages[|messages| - 1] && extended[|messages|] == m;
    assert Follows(respond, extended[|messages| - 1], extended[|messages|]);
  }

  lemma DropLastOfAppend<T>(s: seq<T>, x: T)
    ensures (s + [x])[..|s + [x]| - 1] == s
  {
  }

  /**
   Every transcript starts with a bot message, and each of its messages follows
   the one before: senders alternate, user messages are non-blank and each
   bot reply answers the user message before it.
   */
  lemma {:induction false} ConversationSteps(respond: string -> string, messages: seq<Message>, k: nat)
    requires IsConversation(respond, messages) && 1 <= k < |messages|
    ensures messages[0].sender == Bot
    ensures Follows(respond, messages[k - 1], messages[k])
    decreases |messages|
  {
    if k < |messages| - 1 {
      var prefix := messages[..|messages| - 1];
      ConversationSteps(respond, prefix, k);
      assert prefix[k - 1] == messages[k - 1] && prefix[k] == messages[k];
    }
  }

  /**
   The widget's state as values: the transcript is a conversation opened by
   `greeting`, and the typing indicator shows exactly when its last message is
   a user message, whose text is the input the scheduled reply captured.
   */
  ghost predicate IsChatState(respond: string -> string, greeting: Message, messages: seq<Message>, isTyping: bool, pending: Option<string>) {
    IsConversation(respond, messages) && messages[0] == greeting
    && (isTyping <==> messages[|messages| - 1].sender == User)
    && (isTyping <==> pending.Some?)
    && (pending.Some? ==> pending.value == messages[|messages| - 1].text)
  }

  /** The initial transcript, the greeting alone, is a chat state with nothing pending. */
  lemma GreetingStartsChat(respond: string -> string, greeting: Message)
    requires greeting.sender == Bot
    ensures IsChatState(respond, greeting, [greeting], false, None)
  {
  }

  /** Sending a non-blank input appends it as a user message and makes it the pending input. */
  lemma SendKeepsChatState(respond: string -> string, greeting: Message, messages: seq<Message>, text: string, now: int)
    requires IsChatState(respond, greeting, messages, false, None) && !IsBlank(text)
    ensures IsChatState(respond, greeting, messages + [Message(now, text, User, now)], true, Some(text))
  {
    AppendExtendsConversation(respond, messages, Message(now, text, User, now));
  }

  /** Answering the pending input appends the reply as a bot message and clears it. */
  lemma ReplyKeepsChatState(respond: string -> string, greeting: Message, messages: seq<Message>, text: string, now: int)
    requires IsChatState(respond, greeting, messages, true, Some(text))
    ensures IsChatState(respond, greeting, messages + [Message(now + 1, respond(text), Bot, now)], false, None)
  {
    AppendExtendsConversation(respond, messages, Message(now + 1, respond(text), Bot, now));
  }

  /**
   The component's state. `respond` is the component's own `getBotResponse`;
   `greeting` is the message the transcript starts with.
   `pending` is the input that the scheduled reply callback captured when the
   message was sent; it is present exactly while the typing indicator shows.
   */
  class Chatbot {
    const respond: string -> string
    const greeting: Message
    var messages: seq<Message>
    var inputValue: string
    var isTyping: bool
    var pending: Option<string>

    ghost predicate Valid()
      reads this`messages, this`isTyping, this`pending
    {
      IsChatState(respond, greeting, messages, isTyping, pending)
    }

    /** The initial state: the greeting alone, an empty input, no typing indicator. */
    constructor (now: int)
      ensures Valid()
      ensures respond == GetBotResponse && greeting == Message(1, Welcome, Bot, now)
      ensures messages == [greeting]
      ensures inputValue == "" && !isTyping
    {
      respond := GetBotResponse;
      greeting := Message(1, Welcome, Bot, now);
      messages := [greeting];
      inputValue := "";
      isTyping := false;
      pending := None;
      new;
      GreetingStartsChat(respond, greeting);
    }

    /** The input's `onChange`; the field is disabled while the bot is typing. */
    method SetInputValue(value: string)
      requires Valid()
      modifies this`inputValue
      ensures Valid()
      ensures inputValue == value
    {
      inputValue := value;
    }

    /**
     `handleSendMessage`. Both controls that trigger it are disabled while the
     bot is typing, so it is never called then.
     */
    method HandleSendMessage(now: int)
      requires Valid() && !isTyping
      modifies this
      ensures Valid()
      ensures IsBlank(old(inputValue)) ==>
        messages == old(messages) && inputValue == old(inputValue) && !isTyping && pending == old(pending)
      ensures !IsBlank(old(inputValue)) ==>
        messages == old(messages) + [Message(now, old(inputValue), User, now)]
        && inputValue == "" && isTyping && pending == Some(old(inputValue))
    {
      if IsBlank(inputValue) {
        return;
      }
      var submitted := inputValue;
      SendKeepsChatState(respond, greeting, messages, submitted, now);
      messages := messages + [Message(now, submitted, User, now)];
      inputValue := "";
      isTyping := true;
      pending := Some(submitted);
    }

    /** The input's `onKeyPress`: Enter sends the message, any other key does nothing. */
    method HandleKeyPress(key: string, now: int)
      requires Valid() && !isTyping
      modifies this
      ensures Valid()
      ensures key != "Enter" || IsBlank(old(inputValue)) ==>
        messages == old(messages) && inputValue == old(inputValue) && !isTyping && pending == old(pending)
      ensures key == "Enter" && !IsBlank(old(inputValue)) ==>
        messages == old(messages) + [Message(now, old(inputValue), User, now)]
        && inputValue == "" && isTyping && pending == Some(old(inputValue))
    {
      if key == "Enter" {
        HandleSendMessage(now);
      }
    }

    /**
     The `setTimeout` callback: append the reply to the input captured when the
     message was sent, and hide the typing indicator.
     */
    method CompleteReply(now: int)
      requires Valid() && isTyping
      modifies this
      ensures Valid()
      ensures old(pending).Some?
      ensures old(messages)[|old(messages)| - 1].sender == User
      ensures old(pending).value == old(messages)[|old(messages)| - 1].text
      ensures messages == old(messages) + [Message(now + 1, respond(old(pending).value), Bot, now)]
      ensures !isTyping && pending == None && inputValue == old(inputValue)
    {
      var botResponse := Message(now + 1, respond(pending.value), Bot, now);
      ReplyKeepsChatState(respond, greeting, messages, pending.value, now);
      messages := messages + [botResponse];
      isTyping := false;
      pending := None;
    }
  }
}
