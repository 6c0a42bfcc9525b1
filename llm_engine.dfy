/** The conversation fallback engine: a bounded conversation history, the
    message list sent to a language-model backend, and the choice between a
    local backend, a cloud backend and a keyword table. The backends
    themselves are oracles passed in as functions from the message list to
    the call's outcome. */
module Llm {
  import opened PyStr
  import opened Wrappers
  import opened Triggers

  datatype Role = SystemRole | UserRole | AssistantRole

  /** `{"role": ..., "content": ...}`. */
  datatype Message = Message(role: Role, content: string)

  /** What a backend call came to: a status-200 reply with its content, a
      reply with another status, or an exception (connection refused,
      timeout). */
  datatype CallResult = Ok(content: string) | HttpError | Unreachable

  /** Which of the three answer sources is used. */
  datatype Tier = Local | Cloud | Keywords

  const ProcessingError: string := "ขออภัยค่ะ เกิดข้อผิดพลาดในการประมวลผลคำตอบ"
  const LocalUnreachable: string := "ขออภัยค่ะ ไม่สามารถเชื่อมต่อกับ Ollama ได้"
  const CloudUnreachable: string := "ขออภัยค่ะ ไม่สามารถเชื่อมต่อกับ cloud API ได้"

  // ---------------------------------------------------------------------
  // History

  /** Python's `xs[-n:]` for `n >= 0`: the last `n` entries, all of them
      when there are fewer, and also all of them when `n == 0`, because
      `-0` is `0`. */
  function PyTail<T>(xs: seq<T>, n: nat): (r: seq<T>)
    ensures |r| <= |xs| && r == xs[|xs| - |r|..]
    ensures n == 0 || |xs| <= n ==> r == xs
    ensures 0 < n <= |xs| ==> |r| == n
  {
    if n == 0 || |xs| <= n then xs else xs[|xs| - n..]
  }

  /** The history after one exchange is appended. */
  function WithExchange(history: seq<Message>, user: string, assistant: string): seq<Message> {
    history + [Message(UserRole, user), Message(AssistantRole, assistant)]
  }

  /** The trim at the end of `_update_history`: only the oldest entries are
      dropped, and with a window of at least one exchange exactly the last
      `2 * window` entries remain when there are more. A window of zero keeps everything. */
  function Retained(history: seq<Message>, window: nat): (r: seq<Message>)
    ensures |r| <= |history| && r == history[|history| - |r|..]
    ensures window >= 1 ==> |r| <= 2 * window
    ensures window >= 1 && |history| > 2 * window ==> |r| == 2 * window
    ensures |history| <= 2 * window ==> r == history
    ensures window == 0 ==> r == history
    ensures |r| >= 2 || r == history
  {
    if |history| > window * 2 then PyTail(history, window * 2) else history
  }

  /** After an exchange is recorded the history ends with it: the user's
      turn, then the assistant's. */
  lemma RetainedEndsWithExchange(history: seq<Message>, window: nat, user: string, assistant: string)
    ensures var r := Retained(WithExchange(history, user, assistant), window);
      |r| >= 2 && r[|r| - 2] == Message(UserRole, user) && r[|r| - 1] == Message(AssistantRole, assistant)
  {
    var h := WithExchange(history, user, assistant);
    var r := Retained(h, window);
    assert r == h[|h| - |r|..];
    assert r[|r| - 2] == h[|h| - 2];
    assert r[|r| - 1] == h[|h| - 1];
  }

  // ---------------------------------------------------------------------
  // Messages

  /** The optional context message. */
  function ContextPart(context: string): seq<Message> {
    if context != "" then [Message(SystemRole, "Context: " + context)] else []
  }

  /** The loop of `_build_messages` that appends the recent history
      entries one at a time. */
  method AppendAll(msgs: seq<Message>, recent: seq<Message>) returns (out: seq<Message>)
    ensures out == msgs + recent
  {
    out := msgs;
    var i := 0;
    while i < |recent|
      invariant 0 <= i <= |recent|
      invariant out == msgs + recent[..i]
    {
      assert recent[..i + 1] == recent[..i] + [recent[i]];
      out := out + [recent[i]];
      i := i + 1;
    }
    assert recent[..i] == recent;
  }

  /** The message list `_build_messages` produces. */
  function Prompt(systemPrompt: string, context: string, history: seq<Message>, window: nat, user: string): seq<Message> {
    [Message(SystemRole, systemPrompt)] + ContextPart(context) + PyTail(history, window) + [Message(UserRole, user)]
  }

  /** The message list opens with the system prompt, carries the context
      message exactly when a context is given, then the most recent
      `window` history entries (counted as messages, not exchanges) in
      order, and closes with the user's turn. */
  lemma PromptShape(systemPrompt: string, context: string, history: seq<Message>, window: nat, user: string)
    ensures var m := Prompt(systemPrompt, context, history, window, user);
      var c := if context != "" then 1 else 0;
      |m| == 2 + c + |PyTail(history, window)| &&
      m[0] == Message(SystemRole, systemPrompt) &&
      m[|m| - 1] == Message(UserRole, user) &&
      (context != "" ==> m[1] == Message(SystemRole, "Context: " + context)) &&
      m[1 + c..|m| - 1] == PyTail(history, window) &&
      (0 < window <= |history| ==> |m| == 2 + c + window)
  {
    var m := Prompt(systemPrompt, context, history, window, user);
    var c := if context != "" then 1 else 0;
    var head := [Message(SystemRole, systemPrompt)] + ContextPart(context);
    assert |head| == 1 + c;
    assert m == head + PyTail(history, window) + [Message(UserRole, user)];
    assert m[1 + c..|m| - 1] == PyTail(history, window);
  }

  // ---------------------------------------------------------------------
  // Keyword tier

  const GreetingWords: seq<string> := ["สวัสดี", "hello", "hi"]
  const NameWords: seq<string> := ["ชื่อ", "name", "คุณคือใคร"]
  const HelpWords: seq<string> := ["ช่วย", "help", "ช่วยเหลือ"]
  const ThanksWords: seq<string> := ["ขอบคุณ", "thank", "thanks"]
  const FoodWords: seq<string> := ["อาหาร", "food", "กิน", "แนะนำอาหาร"]
  const ThailandWords: seq<string> := ["ประเทศไทย", "thailand", "ไทย"]

  /** The keyword groups of `_generate_fallback_response`, in the order
      they are tried. */
  const KeywordGroups: seq<seq<string>> :=
    [GreetingWords, NameWords, HelpWords, ThanksWords, FoodWords, ThailandWords]

  /** The reply for each group. */
  const KeywordReplies: seq<string> := [
    "สวัสดีค่ะ ยูกิยินดีที่ได้รู้จักคุณ!",
    "ฉันชื่อยูกิค่ะ เป็นผู้ช่วย AI ที่พร้อมช่วยเหลือคุณ!",
    "ยูกิสามารถช่วยคุณได้หลายอย่างค่ะ เช่น เปิดแอปพลิเคชัน เปิดเว็บไซต์ เล่นเพลง หรือตอบคำถามต่างๆ",
    "ยินดีค่ะ ยูกิยินดีช่วยเหลือคุณเสมอ!",
    "อาหารไทยมีหลากหลายและอร่อยมากค่ะ เช่น ต้มยำกุ้ง ผัดไทย ส้มตำ แกงเขียวหวาน ลาบ น้ำพริก และข้าวผัดกุ้ง",
    "ประเทศไทยเป็นประเทศที่สวยงามในเอเชียตะวันออกเฉียงใต้ มีวัฒนธรรมที่หลากหลาย อาหารอร่อย และผู้คนเป็นมิตรค่ะ"
  ]

  const Deflection: string :=
    "ขออภัยค่ะ ยูกิยังไม่เข้าใจคำถามนี้ แต่ยูกิสามารถช่วยคุณเปิดแอปพลิเคชัน เปิดเว็บไซต์ หรือเล่นเพลงได้ค่ะ"

  /** `_generate_fallback_response`: the first group, in table order, with a
      keyword in the lower-cased input chooses the reply; no hit gives the
      deflection. */
  function FallbackResponse(userInput: string): (r: string)
    ensures (forall k :: 0 <= k < |KeywordGroups| ==> !AnyIn(Lower(userInput), KeywordGroups[k])) ==>
              r == Deflection
    ensures forall k :: (0 <= k < |KeywordGroups| && AnyIn(Lower(userInput), KeywordGroups[k]) &&
                         (forall j :: 0 <= j < k ==> !AnyIn(Lower(userInput), KeywordGroups[j]))) ==>
              r == KeywordReplies[k]
  {
    match FirstGroup(Lower(userInput), KeywordGroups)
    case None => Deflection
    case Some(k) =>
      assert forall j :: (0 <= j < |KeywordGroups| && AnyIn(Lower(userInput), KeywordGroups[j]) &&
                          (forall i :: 0 <= i < j ==> !AnyIn(Lower(userInput), KeywordGroups[i]))) ==> j == k;
      KeywordReplies[k]
  }

  lemma AskingForFoodLowered(s: string)
    requires s == "ช่วยแนะนำอาหารไทยอร่อยๆ หน่อย"
    ensures Lower(s) == s
  {
  }

  lemma AskingForFoodNoGreeting(s: string)
    requires s == "ช่วยแนะนำอาหารไทยอร่อยๆ หน่อย"
    ensures !AnyIn(s, GreetingWords)
  {
    AskingForFoodMissesGreeting(s);
    NoGreetingWithout(s);
  }

  lemma AskingForFoodMissesGreeting(s: string)
    requires s == "ช่วยแนะนำอาหารไทยอร่อยๆ หน่อย"
    ensures 'ส' !in s && 'h' !in s
  {
  }

  /** Text with neither "ส" nor "h" names no greeting. */
  lemma NoGreetingWithout(s: string)
    requires 'ส' !in s && 'h' !in s
    ensures !AnyIn(s, GreetingWords)
  {
    NotContainsByChar(s, GreetingWords[0], 0);
    NotContainsByChar(s, GreetingWords[1], 0);
    NotContainsByChar(s, GreetingWords[2], 0);
    NoneContained(s, GreetingWords);
  }

  lemma AskingForFoodNoName(s: string)
    requires s == "ช่วยแนะนำอาหารไทยอร่อยๆ หน่อย"
    ensures !AnyIn(s, NameWords)
  {
    AskingForFoodMissesName(s);
    NoNameWithout(s);
  }

  lemma AskingForFoodMissesName(s: string)
    requires s == "ช่วยแนะนำอาหารไทยอร่อยๆ หน่อย"
    ensures 'ื' !in s && 'n' !in s && 'ค' !in s
  {
  }

  /** Text with none of "ื", "n" and "ค" names no name question. */
  lemma NoNameWithout(s: string)
    requires 'ื' !in s && 'n' !in s && 'ค' !in s
    ensures !AnyIn(s, NameWords)
  {
    NotContainsByChar(s, NameWords[0], 1);
    NotContainsByChar(s, NameWords[1], 0);
    NotContainsByChar(s, NameWords[2], 0);
    NoneContained(s, NameWords);
  }

  lemma AskingForFoodHits(s: string)
    requires s == "ช่วยแนะนำอาหารไทยอร่อยๆ หน่อย"
    ensures AnyIn(s, HelpWords)
    ensures AnyIn(s, FoodWords)
  {
    assert s[0..4] == HelpWords[0];
    ContainsAt(s, HelpWords[0], 0);
    Contained(s, HelpWords, 0);
    assert s[9..14] == FoodWords[0];
    ContainsAt(s, FoodWords[0], 9);
    Contained(s, FoodWords, 0);
  }

  /** "Please recommend some tasty Thai food" names food, yet the help
      group comes first and contains "ช่วย", so the help reply is given. */
  lemma FoodRequestGetsHelpReply(s: string)
    requires s == "ช่วยแนะนำอาหารไทยอร่อยๆ หน่อย"
    ensures AnyIn(Lower(s), FoodWords)
    ensures FallbackResponse(s) == KeywordReplies[2]
  {
    AskingForFoodLowered(s);
    AskingForFoodNoGreeting(s);
    AskingForFoodNoName(s);
    AskingForFoodHits(s);
  }

  // ---------------------------------------------------------------------
  // Tier selection

  /** `generate_response`: the local backend when its probe succeeds, the
      cloud backend when enabled and keyed, the keyword table otherwise. */
  function SelectTier(localUp: bool, useCloudApi: bool, hasApiKey: bool): (t: Tier)
    ensures t == Local <==> localUp
    ensures t == Cloud <==> !localUp && useCloudApi && hasApiKey
  {
    if localUp then Local
    else if useCloudApi && hasApiKey then Cloud
    else Keywords
  }

  /** The spoken reply for a backend call. */
  function CallReply(call: CallResult, unreachable: string): (r: string)
    ensures call.Ok? ==> r == call.content
    ensures call.HttpError? ==> r == ProcessingError
    ensures call.Unreachable? ==> r == unreachable
  {
    match call
    case Ok(content) => content
    case HttpError => ProcessingError
    case Unreachable => unreachable
  }

  class LlmEngine {
    /** `llm.context_window`: the history window, in exchanges for the trim
        and in messages for the prompt. */
    const contextWindow: nat
    /** `llm.enable_llm`. */
    const enableLlm: bool
    /** `llm.use_cloud_api`. */
    const useCloudApi: bool
    /** Whether `api_keys.openai_api` is set to a non-empty value. */
    const hasApiKey: bool
    const systemPrompt: string

    /** `conversation_history`, oldest first. */
    var history: seq<Message>

    constructor(contextWindow: nat, enableLlm: bool, useCloudApi: bool, hasApiKey: bool, systemPrompt: string)
      ensures this.contextWindow == contextWindow && this.enableLlm == enableLlm
      ensures this.useCloudApi == useCloudApi && this.hasApiKey == hasApiKey
      ensures this.systemPrompt == systemPrompt && history == []
    {
      this.contextWindow := contextWindow;
      this.enableLlm := enableLlm;
      this.useCloudApi := useCloudApi;
      this.hasApiKey := hasApiKey;
      this.systemPrompt := systemPrompt;
      history := [];
    }

    /** `is_available`: never when the engine is disabled; otherwise when
        the local probe succeeds or the cloud backend is enabled and keyed. */
    function IsAvailable(localUp: bool): (r: bool)
      ensures r ==> enableLlm
      ensures r <==> enableLlm && SelectTier(localUp, useCloudApi, hasApiKey) != Keywords
    {
      if !enableLlm then false
      else if localUp then true
      else useCloudApi && hasApiKey
    }

    /** `_update_history`: append the exchange, then keep the most recent
        `2 * contextWindow` entries. */
    method UpdateHistory(user: string, assistant: string)
      modifies this
      ensures history == Retained(WithExchange(old(history), user, assistant), contextWindow)
    {
      history := history + [Message(UserRole, user), Message(AssistantRole, assistant)];
      if |history| > contextWindow * 2 {
        history := PyTail(history, contextWindow * 2);
      }
    }

    /** `clear_history`. */
    method ClearHistory()
      modifies this
      ensures history == []
    {
      history := [];
    }

    /** `_build_messages`: the history entries are copied one by one. */
    method BuildMessages(user: string, context: string) returns (msgs: seq<Message>)
      ensures msgs == Prompt(systemPrompt, context, history, contextWindow, user)
    {
      msgs := [Message(SystemRole, systemPrompt)];
      if context != "" {
        msgs := msgs + [Message(SystemRole, "Context: " + context)];
      }
      msgs := AppendAll(msgs, PyTail(history, contextWindow));
      msgs := msgs + [Message(UserRole, user)];
    }

    /** `generate_response`. */
    method GenerateResponse(user: string, context: string, backends: Backends) returns (reply: string)
      modifies this
      ensures (reply, history) == Respond(this, old(history), user, context, backends)
    {
      var tier := SelectTier(backends.localUp, useCloudApi, hasApiKey);
      if tier == Keywords {
        reply := FallbackResponse(user);
        return;
      }
      var msgs := BuildMessages(user, context);
      var call := if tier == Local then backends.localChat(msgs) else backends.cloudChat(msgs);
      reply := CallReply(call, if tier == Local then LocalUnreachable else CloudUnreachable);
      if call.Ok? {
        UpdateHistory(user, call.content);
      }
    }
  }

  /** The two backends as oracles: whether the local probe finds the
      model, and what each chat call comes to for a given message list. */
  datatype Backends = Backends(
    localUp: bool,
    localChat: seq<Message> -> CallResult,
    cloudChat: seq<Message> -> CallResult)

  /** The reply and the new history of one `generate_response` call on an
      engine whose history is `history`. */
  function Respond(e: LlmEngine, history: seq<Message>, user: string, context: string, b: Backends): (string, seq<Message>) {
    var tier := SelectTier(b.localUp, e.useCloudApi, e.hasApiKey);
    if tier == Keywords then (FallbackResponse(user), history)
    else
      var call := Called(e, history, user, context, b);
      (CallReply(call, if tier == Local then LocalUnreachable else CloudUnreachable),
       if call.Ok? then Retained(WithExchange(history, user, call.content), e.contextWindow) else history)
  }

  /** What the backend of the chosen tier answers to the message list built
      from the history as it stands. */
  function Called(e: LlmEngine, history: seq<Message>, user: string, context: string, b: Backends): CallResult {
    var sent := Prompt(e.systemPrompt, context, history, e.contextWindow, user);
    if SelectTier(b.localUp, e.useCloudApi, e.hasApiKey) == Local then b.localChat(sent) else b.cloudChat(sent)
  }

  /** The keyword tier answers from the keyword table and never touches
      the history; `enable_llm` plays no part. */
  lemma KeywordTierKeepsHistory(e: LlmEngine, history: seq<Message>, user: string, context: string, b: Backends)
    requires SelectTier(b.localUp, e.useCloudApi, e.hasApiKey) == Keywords
    ensures Respond(e, history, user, context, b).0 == FallbackResponse(user)
    ensures Respond(e, history, user, context, b).1 == history
  {
  }

  /** A call that does not come back with status 200 answers with an
      apology, leaves the history alone and does not fall through to the
      next tier. */
  lemma FailedCallKeepsHistory(e: LlmEngine, history: seq<Message>, user: string, context: string, b: Backends)
    requires SelectTier(b.localUp, e.useCloudApi, e.hasApiKey) != Keywords
    requires !Called(e, history, user, context, b).Ok?
    ensures Respond(e, history, user, context, b).1 == history
    ensures Respond(e, history, user, context, b).0 in {ProcessingError, LocalUnreachable, CloudUnreachable}
  {
  }

  /** A successful call is spoken as it came and recorded: the history ends
      with the user's turn and the reply, after the newest entries of the
      old history. */
  lemma SuccessfulCallRecorded(e: LlmEngine, history: seq<Message>, user: string, context: string, b: Backends)
    requires SelectTier(b.localUp, e.useCloudApi, e.hasApiKey) != Keywords
    requires Called(e, history, user, context, b).Ok?
    ensures var answer := Called(e, history, user, context, b).content;
      var out := Respond(e, history, user, context, b);
      out.0 == answer && |out.1| >= 2 &&
      out.1[|out.1| - 2] == Message(UserRole, user) &&
      out.1[|out.1| - 1] == Message(AssistantRole, answer) &&
      out.1[..|out.1| - 2] == history[|history| + 2 - |out.1|..]
  {
    RecordedExchange(history, e.contextWindow, user, Called(e, history, user, context, b).content);
  }

  /** What a successful call leaves in the history: the newest entries of
      the old history followed by the exchange. */
  lemma RecordedExchange(history: seq<Message>, window: nat, user: string, assistant: string)
    ensures var r := Retained(WithExchange(history, user, assistant), window);
      |r| >= 2 &&
      r[|r| - 2] == Message(UserRole, user) && r[|r| - 1] == Message(AssistantRole, assistant) &&
      r[..|r| - 2] == history[|history| + 2 - |r|..]
  {
    var h := WithExchange(history, user, assistant);
    var r := Retained(h, window);
    RetainedEndsWithExchange(history, window, user, assistant);
    assert r == h[|h| - |r|..];
    assert r[..|r| - 2] == h[|h| - |r|..|h| - 2];
    assert h[..|h| - 2] == history;
  }

  /** Two exchanges recorded with a one-exchange window leave only the
      second. */
  lemma WindowOfOneKeepsLastExchange(h: seq<Message>, u1: string, a1: string, u2: string, a2: string)
    ensures Retained(WithExchange(Retained(WithExchange(h, u1, a1), 1), u2, a2), 1) ==
              [Message(UserRole, u2), Message(AssistantRole, a2)]
  {
    var first := Retained(WithExchange(h, u1, a1), 1);
    var second := WithExchange(first, u2, a2);
    var r := Retained(second, 1);
    RetainedEndsWithExchange(first, 1, u2, a2);
    assert |r| == 2;
  }
}
