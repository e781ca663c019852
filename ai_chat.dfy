/**
 The chat endpoint `POST /api/ai-chat`: validate the request, try the
 language-model provider when a key is configured, and otherwise (or when
 the provider gives no text, or throws) answer from the keyword table.

 The environment variable `ANTHROPIC_API_KEY` is a parameter, and the
 provider call is an outcome parameter: the text it would return, a reply
 whose first content block is not text, or an exception. The handler
 returns the HTTP status and JSON body it would send, together with the
 message list it hands to the provider (`None` when it makes no call).
 */
module AiChat {
  import opened Wrappers
  import opened Strings
  import opened KeywordTable

  /** The keys of the fallback table, in declaration order. */
  const FallbackKeys: seq<string> := [
      "سيولة",
      "مرحبا",
      "ما هي الأسهم",
      "ما هو المال",
      "كيف أوفر المال",
      "ما هو الاستثمار",
      "تضارب",
      "ما هو التداول",
      "ما هي البورصة"
    ]

  /** The replies of the fallback table, in the order of their keys. */
  const FallbackReplies: seq<string> := [
      "السيولة هي سهولة تحويل الأشياء إلى نقود! �� مثل بيع لعبتك بسرعة للحصول على نقود. البيت صعب تحويله لنقود (سيولة قليلة) لكن النقود في البنك سهل سحبها (سيولة عالية)! 🏦💰",
      "مرحباً بك! أنا مساعدك الذكي لتعلم الأسهم والمال بطريقة سهلة وممتعة! 🌟 اسألني أي سؤال عن المال!",
      "الأسهم هي مثل قطع صغيرة من الشركات! 🧩 عندما تشتري سهماً، تصبح مالكاً لجزء صغير من تلك الشركة. مثل لو كان لديك قطعة من كعكة كبيرة! 🍰",
      "المال هو وسيلة نستخدمها لشراء الأشياء التي نحتاجها ونريدها! 💰 مثل الطعام والألعاب والكتب. يأتي من العمل والادخار! 🏦",
      "يمكنك توفير المال بوضع جزء من مصروفك في حصالة! مثلاً، إذا أعطاك والداك 10 ريال، ضع ريالين في الحصالة واستخدم الباقي! 💡",
      "الاستثمار مثل زراعة البذور! 🌱 تضع مالك في مكان آمن لينمو ويصبح أك��ر مع الوقت، مثل الشجرة التي تكبر وتعطي ثماراً! 🌳🍎",
      "التضارب هو شراء وبيع الأسهم بسرعة لربح سريع! 🎢 مثل شراء لعبة اليوم بـ10 ريال وبيعها غداً بـ15 ريال. لكن احذر! قد تنخفض لـ5 ريال! إنها مثل لعبة محفوفة بالمخاطر! 🎯⚠️",
      "التداول هو بيع وشراء الأسهم! 📈📉 مثل تبادل البطاقات مع أصدقائك، لكن بالأسهم! يحتاج صبر وتعلم كثير قبل أن تبدأ!",
      "البورصة مثل سوق كبير للأسهم! 🏪 الناس يأتون ليشتروا ويبيعوا أجزاء من الشركات. مثل سوق الخضار لكن للأسهم! 📊"
    ]

  /** The reply when no key of the fallback table occurs in the message. */
  const FallbackDefault: string :=
    "هذا سؤال رائع! 🌟 أنا أتخصص في تعليم الأموال والأسهم للأطفال. هل يمكنك أن تسأل عن شيء متعلق بالمال أو الأسهم؟ مثل \"ما هي الأسهم؟\" أو \"كيف أوفر المال؟\" 💰📚"

  /** Error text and reply of the 400 answer to a request without a usable message. */
  const MessageRequired: string := "الرسالة مطلوبة"
  const AskForQuestion: string := "يرجى كتابة سؤالك! 😊"

  /** Error text and reply of the 500 answer to an unexpected failure. */
  const ServerError: string := "خطأ في الخادم"
  const TechnicalApology: string :=
    "عذراً، حدث خطأ تقني! 😅 هل يمكنك المحاولة مرة أخرى؟ أنا هنا لأعلمك عن الأموال والأسهم! 💰📚"

  /** The key value that switches the provider off explicitly. */
  const FallbackModeKey: string := "fallback_mode"

  /** How many of the most recent history turns go to the provider (`slice(-6)`). */
  const HistoryWindow: nat := 6

  /** A history turn as the client sent it; `role` is whatever string it carried. */
  datatype Turn = Turn(role: string, content: string)

  datatype Role = User | Assistant

  /** A turn as handed to the provider. */
  datatype ProviderMessage = ProviderMessage(role: Role, content: string)

  /** The `message` field of the body: absent (or null), of another JSON type, or a string. */
  datatype MessageField = Missing | NonString | Str(text: string)

  /**
   The `conversationHistory` field: absent (it then defaults to the empty list),
   a value on which slicing or reading a turn's role throws (null, or a list
   holding null), or a list of turns.
   */
  datatype HistoryField = Absent | Unusable | Turns(turns: seq<Turn>)

  /** The destructured request body. */
  datatype ChatRequest = ChatRequest(message: MessageField, history: HistoryField)

  /** What the provider call would do if it were made. */
  datatype ProviderOutcome = Text(text: string) | NonText | Threw

  /** HTTP status and JSON body `{ error?, response }`. */
  datatype ChatResponse = ChatResponse(status: nat, error: Option<string>, response: string)

  /** `getFallbackResponse`: the keyword table applied to the lowercased, trimmed message. */
  function GetFallbackResponse(message: string): (r: string)
    ensures r != []
    ensures r == FallbackDefault || r in FallbackReplies
    ensures forall k :: IsFirstMatch(FallbackKeys, {}, Normalize(message), k) ==> r == FallbackReplies[k]
    ensures NoMatch(FallbackKeys, {}, Normalize(message)) ==> r == FallbackDefault
  {
    FallbackTableShape();
    Lookup(FallbackKeys, FallbackReplies, {}, Normalize(message), FallbackDefault)
  }

  /** One reply per key, and no reply (the default included) is empty. */
  lemma FallbackTableShape()
    ensures |FallbackKeys| == |FallbackReplies|
    ensures RepliesNonEmpty(FallbackReplies) && FallbackDefault != []
  {
  }

  /**
   The message passes `!message || typeof message !== 'string'`: it is
   rejected when missing, not a string, or the empty string.
   */
  predicate HasMessage(request: ChatRequest)
    ensures !HasMessage(request) <==>
      request.message.Missing? || request.message.NonString? || request.message == Str([])
  {
    request.message.Str? && request.message.text != ""
  }

  /** `ANTHROPIC_API_KEY` is set (non-empty) and is not the switch-off value. */
  predicate ProviderEnabled(apiKey: Option<string>)
    ensures !ProviderEnabled(apiKey) <==> apiKey.None? || apiKey == Some([]) || apiKey == Some(FallbackModeKey)
  {
    apiKey.Some? && apiKey.value != "" && apiKey.value != FallbackModeKey
  }

  /** The history after defaulting an absent field to the empty list. */
  function HistoryTurns(history: HistoryField): (turns: seq<Turn>)
    requires !history.Unusable?
    ensures history.Absent? ==> turns == []
    ensures history.Turns? ==> turns == history.turns
  {
    if history.Turns? then history.turns else []
  }

  /** `conversationHistory.slice(-6)`: the last `min(6, |history|)` turns, in order. */
  function RecentHistory(history: seq<Turn>): (recent: seq<Turn>)
    ensures |recent| == if |history| < HistoryWindow then |history| else HistoryWindow
    ensures recent == history[|history| - |recent|..]
  {
    if |history| <= HistoryWindow then history else history[|history| - HistoryWindow..]
  }

  /**
   What the provider receives: the most recent turns in their original order,
   a `user` role kept and every other role sent as `assistant`, and then the
   current message as a single `user` turn.
   */
  ghost predicate IsProviderMessageList(history: seq<Turn>, message: string, messages: seq<ProviderMessage>) {
    var n := if |history| < HistoryWindow then |history| else HistoryWindow;
    |messages| == n + 1
    && (forall i :: 0 <= i < n ==>
          messages[i].content == history[|history| - n + i].content
          && (messages[i].role == User <==> history[|history| - n + i].role == "user"))
    && messages[n] == ProviderMessage(User, message)
  }

  /** One history turn as sent: same content, `user` kept and every other role sent as `assistant`. */
  function ToProviderMessage(turn: Turn): (m: ProviderMessage)
    ensures m.content == turn.content
    ensures m.role == User <==> turn.role == "user"
  {
    ProviderMessage(if turn.role == "user" then User else Assistant, turn.content)
  }

  /** Builds the provider's message list by pushing the recent turns and then the message. */
  method BuildProviderMessages(history: seq<Turn>, message: string) returns (messages: seq<ProviderMessage>)
    ensures IsProviderMessageList(history, message, messages)
  {
    messages := [];
    var recentHistory := RecentHistory(history);
    for i := 0 to |recentHistory|
      invariant |messages| == i
      invariant forall j :: 0 <= j < i ==> messages[j] == ToProviderMessage(recentHistory[j])
    {
      messages := messages + [ToProviderMessage(recentHistory[i])];
    }
    messages := messages + [ProviderMessage(User, message)];
  }

  /**
   `handleAIChat`. `body` is `None` when the request has no body, so that
   destructuring it throws inside the outer `try`.
   */
  method HandleAIChat(body: Option<ChatRequest>, apiKey: Option<string>, provider: ProviderOutcome)
    returns (res: ChatResponse, sent: Option<seq<ProviderMessage>>)
    // An unexpected failure outside the provider block: 500 with the apology.
    ensures body.None? ==> res == ChatResponse(500, Some(ServerError), TechnicalApology)
    // A missing, empty or non-string message: 400.
    ensures body.Some? && !HasMessage(body.value) ==> res == ChatResponse(400, Some(MessageRequired), AskForQuestion)
    ensures res.status == 200 <==> body.Some? && HasMessage(body.value)
    // The provider is called only for a valid message with a configured key.
    ensures sent.Some? <==>
      body.Some? && HasMessage(body.value) && ProviderEnabled(apiKey) && !body.value.history.Unusable?
    ensures sent.Some? ==>
      IsProviderMessageList(HistoryTurns(body.value.history), body.value.message.text, sent.value)
    // Text from the provider is the answer; anything else falls back to the keyword table.
    ensures sent.Some? && provider.Text? ==> res == ChatResponse(200, None, provider.text)
    ensures body.Some? && HasMessage(body.value) && !(sent.Some? && provider.Text?) ==>
      res == ChatResponse(200, None, GetFallbackResponse(body.value.message.text))
    // The only empty reply is an empty text block passed through from the provider.
    ensures res.response == [] ==> sent.Some? && provider == Text([])
  {
    if body.None? {
      return ChatResponse(500, Some(ServerError), TechnicalApology), None;
    }
    var request := body.value;
    if !request.message.Str? || request.message.text == "" {
      return ChatResponse(400, Some(MessageRequired), AskForQuestion), None;
    }
    var message := request.message.text;
    sent := None;
    if ProviderEnabled(apiKey) && !request.history.Unusable? {
      var messages := BuildProviderMessages(HistoryTurns(request.history), message);
      sent := Some(messages);
      if provider.Text? {
        return ChatResponse(200, None, provider.text), sent;
      }
    }
    res := ChatResponse(200, None, GetFallbackResponse(message));
  }

  /** Every key of the fallback table is free of surrounding whitespace, so trimming never changes its reply. */
  lemma FallbackKeysAreTrimmed()
    ensures KeysAreTrimmed(FallbackKeys)
  {
  }

  /**
   A whitespace-only message gets the default reply; unless it is the empty
   string, it also passes the 400 check, whatever the history.
   */
  lemma BlankMessageGetsDefault(m: string)
    requires IsBlank(m)
    ensures GetFallbackResponse(m) == FallbackDefault
    ensures m != [] ==> forall h :: HasMessage(ChatRequest(Str(m), h))
  {
    FallbackKeysAreTrimmed();
    BlankMessageMatchesNothing(FallbackKeys, {}, m);
  }

  /** For a message already in normal form, the fallback reply is decided by the message itself. */
  lemma FallbackForNormalMessage(m: string)
    requires Normalize(m) == m
    ensures forall k :: IsFirstMatch(FallbackKeys, {}, m, k) ==> GetFallbackResponse(m) == FallbackReplies[k]
    ensures NoMatch(FallbackKeys, {}, m) ==> GetFallbackResponse(m) == FallbackDefault
  {
  }

  /** In a sentence that asks what stocks are, the stocks key is the first that occurs. */
  lemma StocksKeyMatchesFirst(m: string)
    requires m == "أريد أن أعرف ما هي الأسهم اليوم"
    ensures IsFirstMatch(FallbackKeys, {}, m, 2)
  {
    AbsentCharNotContained(m, FallbackKeys[0], 4);
    AbsentCharNotContained(m, FallbackKeys[1], 2);
    assert m == "أريد أن أعرف " + FallbackKeys[2] + " اليوم";
    OccursAfterPrefix("أريد أن أعرف ", FallbackKeys[2], " اليوم");
  }

  /** The sentence about stocks is already lowercased and trimmed. */
  lemma StocksQuestionIsNormal(m: string)
    requires m == "أريد أن أعرف ما هي الأسهم اليوم"
    ensures Normalize(m) == m
  {
    assert IsPlain(m);
    PlainMessageIsNormal(m);
  }

  /** A question about stocks embedded in a longer sentence gets the stocks reply. */
  lemma StocksQuestionAnswered(m: string)
    requires m == "أريد أن أعرف ما هي الأسهم اليوم"
    ensures GetFallbackResponse(m) == FallbackReplies[2]
  {
    StocksKeyMatchesFirst(m);
    StocksQuestionIsNormal(m);
    FallbackForNormalMessage(m);
  }

  /** No fallback key occurs in a question about the weather: each has a letter it lacks. */
  lemma WeatherQuestionMatchesNoKey(m: string)
    requires m == "what is the weather"
    ensures NoMatch(FallbackKeys, {}, m)
  {
    forall k | 0 <= k < |FallbackKeys|
      ensures !Contains(m, FallbackKeys[k])
    {
      AbsentCharNotContained(m, FallbackKeys[k], 0);
    }
  }

  /** The question about the weather is already lowercased and trimmed. */
  lemma WeatherQuestionIsNormal(m: string)
    requires m == "what is the weather"
    ensures Normalize(m) == m
  {
    assert IsPlain(m);
    PlainMessageIsNormal(m);
  }

  /** A message with none of the keys gets exactly the default reply. */
  lemma UnmatchedMessageGetsDefault(m: string)
    requires m == "what is the weather"
    ensures GetFallbackResponse(m) == FallbackDefault
  {
    WeatherQuestionMatchesNoKey(m);
    WeatherQuestionIsNormal(m);
    FallbackForNormalMessage(m);
  }
}
