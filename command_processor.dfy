/** The utterance router of `src/core/command_processor.py`: one transcribed
    utterance is normalised, checked for the wake word and, when it carries
    a command, sent down a fixed chain of handlers. The clock, the weather
    service, the browser and the conversation backends are parameters. */
module Router {
  import opened PyStr
  import opened Wrappers
  import opened Triggers
  import opened OrderedDict
  import opened Helpers
  import opened Outcomes
  import opened Configuration
  import WebCommands
  import MediaCommands
  import Apps
  import Llm

  // ---------------------------------------------------------------------
  // Tables

  /** `_get_default_commands`: pattern to action tag, in table order. */
  const DefaultCommands: Dict<string, Json> := [
    ("กี่โมงแล้ว", JStr("time")),
    ("ตอนนี้เวลาเท่าไหร่", JStr("time")),
    ("เวลาตอนนี้คือ", JStr("time")),
    ("สวัสดี", JStr("greeting")),
    ("สวัสดียูกิ", JStr("greeting")),
    ("ยูกิสวัสดี", JStr("greeting")),
    ("หวัดดี", JStr("greeting")),
    ("hello", JStr("greeting")),
    ("hi", JStr("greeting")),
    ("ชื่ออะไร", JStr("name")),
    ("คุณชื่ออะไร", JStr("name")),
    ("เธอชื่ออะไร", JStr("name")),
    ("คุณคือใคร", JStr("name")),
    ("เธอคือใคร", JStr("name")),
    ("อากาศวันนี้เป็นอย่างไร", JStr("weather")),
    ("shutdown", JStr("shutdown")),
    ("shut down", JStr("shutdown"))
  ]

  /** `_get_default_responses`. */
  const DefaultResponses: Dict<string, string> := [
    ("greeting", "สวัสดีค่ะ มีอะไรให้ช่วยไหมคะ?"),
    ("name", "ฉันคือผู้ช่วยอัจฉริยะของคุณค่ะ"),
    ("unknown_command", "ขอโทษค่ะ ฉันไม่เข้าใจที่คุณพูด"),
    ("no_command", "กรุณาพูดคำสั่งที่ต้องการค่ะ"),
    ("no_query", "กรุณาระบุสิ่งที่ต้องการค้นหาค่ะ"),
    ("error", "เกิดข้อผิดพลาดในการประมวลผลคำสั่งค่ะ")
  ]

  /** What `_get_response` says for a key the templates lack. */
  const Fallback: string := "ขอโทษค่ะ ฉันไม่เข้าใจที่คุณพูด"

  /** The replies to the first five bare wake calls, in order. */
  const Acknowledgements: seq<string> := [
    "ค่ะ ยูกิอยู่นี่ค่ะ",
    "เรียกใช้ยูกิได้เลยค่ะ",
    "ยูกิพร้อมช่วยเหลือค่ะ",
    "นี่!! ตั้งใจแกล้งกันรึป่าวคะ?",
    "แบบนี้แกล้งกันชัด ๆ เลย!!!"
  ]

  /** The reply to every bare wake call after the fifth. */
  const Scolding: string :=
    "ถ้าไม่อยากคุยกับยูกิแล้วให้พูดว่า 'ยูกิ shutdown' นะคะ มาเรียกแล้วไม่พูดแบบนี้ยูกิก็เสียใจ"

  /** The reply to text that does not address the assistant. */
  const Ignored: string := "..."

  const ShuttingDown: string := "ยูกิกำลังปิดตัวลงค่ะ"

  /** The context handed to the conversation engine. */
  const LlmContext: string :=
    "You are being spoken to through a voice assistant. Keep responses concise and natural for speech."

  /** The action tags `_execute_action` answers itself. */
  const ActionTags: seq<string> := ["time", "greeting", "name", "weather", "shutdown"]

  /** `web_actions` of `_handle_web_action`. */
  const WebActions: Dict<string, string> := [
    ("open_google", "https://www.google.com"),
    ("open_youtube", "https://www.youtube.com"),
    ("open_facebook", "https://www.facebook.com"),
    ("open_instagram", "https://www.instagram.com"),
    ("open_chatgpt", "https://chat.openai.com"),
    ("open_gemini", "https://gemini.google.com/app")
  ]

  /** `service_names` of `_handle_web_action`. */
  const ServiceNames: Dict<string, string> := [
    ("open_google", "Google"),
    ("open_youtube", "YouTube"),
    ("open_facebook", "Facebook"),
    ("open_instagram", "Instagram"),
    ("open_chatgpt", "ChatGPT"),
    ("open_gemini", "Gemini")
  ]

  /** The triggers `_is_web_search` accepts anywhere. */
  const SearchTriggers: seq<string> := ["ค้นหา", "search", "เสิร์ช"]

  /** The triggers `_handle_web_search` removes to find the query. */
  const SearchQueryTriggers: seq<string> := ["ค้นหา", "search", "เสิร์ช", "หา"]

  const GoogleSearch: string := "https://www.google.com/search?q="

  const AppTriggers: seq<string> := ["เปิดแอป", "open app", "เปิดแอปพลิเคชัน", "open application"]

  const MediaTriggers: seq<string> := [
    "เล่นเพลง", "play music", "ฟังเพลง", "listen to music", "ดูวิดีโอ",
    "watch video", "เปิดเพลง", "open music", "เปิดวิดีโอ", "open video"
  ]

  const WebTriggers: seq<string> := [
    "เปิดเว็บ", "open website", "เปิดเว็บไซต์", "open site", "เข้าเว็บ", "เข้าเว็บไซต์"
  ]

  // ---------------------------------------------------------------------
  // Loading the command table

  /** What one top-level entry of the commands file contributes: a nested
      map gives each of its patterns; any other value is a pattern itself. */
  predicate Provides(entry: (string, Json), pattern: string) {
    if entry.1.JMap? then pattern in Keys(entry.1.entries) else pattern == entry.0
  }

  /** Every entry of `d`, written into `acc` in order. */
  function PutAll(acc: Dict<string, Json>, d: Dict<string, Json>): Dict<string, Json>
    decreases |d|
  {
    if |d| == 0 then acc else PutAll(Put(acc, d[0].0, d[0].1), d[1..])
  }

  /** One top-level entry written into the table built so far. */
  function Absorb(acc: Dict<string, Json>, entry: (string, Json)): Dict<string, Json> {
    if entry.1.JMap? then PutAll(acc, entry.1.entries) else Put(acc, entry.0, entry.1)
  }

  /** The flattened table for a commands file whose top level is `raw`. */
  function Flattened(raw: Dict<string, Json>): Dict<string, Json>
    decreases |raw|
  {
    if |raw| == 0 then [] else Absorb(Flattened(raw[..|raw| - 1]), raw[|raw| - 1])
  }

  /** The command table `_load_commands` leaves: the flattened file when it
      holds a JSON object, the built-in table when it is missing or is not
      an object. */
  function Loaded(raw: Option<Json>): Dict<string, Json> {
    if raw.Some? && raw.value.JMap? then Flattened(raw.value.entries) else DefaultCommands
  }

  lemma {:induction false} PutAllValid(acc: Dict<string, Json>, d: Dict<string, Json>)
    requires OrderedDict.Valid(acc)
    ensures OrderedDict.Valid(PutAll(acc, d))
    ensures forall p :: p in Keys(PutAll(acc, d)) <==> p in Keys(acc) || p in Keys(d)
    decreases |d|
  {
    if |d| > 0 {
      PutSpec(acc, d[0].0, d[0].1);
      PutAllValid(Put(acc, d[0].0, d[0].1), d[1..]);
      KeysFirst(d);
    }
  }

  /** The flattened table never lists a pattern twice, and it lists exactly
      the patterns some top-level entry provides. */
  lemma {:induction false} FlattenedKeys(raw: Dict<string, Json>)
    ensures OrderedDict.Valid(Flattened(raw))
    ensures forall p :: p in Keys(Flattened(raw)) <==> exists i :: 0 <= i < |raw| && Provides(raw[i], p)
    decreases |raw|
  {
    if |raw| > 0 {
      var init := raw[..|raw| - 1];
      var last := raw[|raw| - 1];
      FlattenedKeys(init);
      var acc := Flattened(init);
      if last.1.JMap? {
        PutAllValid(acc, last.1.entries);
      } else {
        PutSpec(acc, last.0, last.1);
      }
      forall p ensures p in Keys(Flattened(raw)) <==> exists i :: 0 <= i < |raw| && Provides(raw[i], p) {
        if exists i :: 0 <= i < |init| && Provides(init[i], p) {
          var i :| 0 <= i < |init| && Provides(init[i], p);
          assert raw[i] == init[i];
        }
        if exists i :: 0 <= i < |raw| && Provides(raw[i], p) {
          var i :| 0 <= i < |raw| && Provides(raw[i], p);
          if i < |init| {
            assert Provides(init[i], p);
          }
        }
      }
    }
  }

  /** A file without nested maps and without repeated keys is taken as it
      stands. */
  lemma {:induction false} FlatFileUnchanged(raw: Dict<string, Json>)
    requires OrderedDict.Valid(raw)
    requires forall i :: 0 <= i < |raw| ==> !raw[i].1.JMap?
    ensures Flattened(raw) == raw
    decreases |raw|
  {
    if |raw| > 0 {
      var init := raw[..|raw| - 1];
      var last := raw[|raw| - 1];
      FlatFileUnchanged(init);
      assert forall j :: 0 <= j < |init| ==> Keys(init)[j] != last.0 by {
        assert forall j :: 0 <= j < |init| ==> init[j] == raw[j];
      }
      assert init + [last] == raw;
    }
  }

  // ---------------------------------------------------------------------
  // Responses

  /** `_get_response`: the template for the key, or the generic apology. */
  function GetResponse(responses: Dict<string, string>, key: string): (r: string)
    ensures key in Keys(responses) ==> r == responses[IndexOf(responses, key)].1
    ensures key !in Keys(responses) ==> r == Fallback
  {
    match OrderedDict.Get(responses, key)
    case Some(template) => template
    case None => Fallback
  }

  /** With the built-in templates the reply to an unrecognised command is
      the same apology a missing template gives. */
  lemma DefaultUnknownIsFallback()
    ensures GetResponse(DefaultResponses, "unknown_command") == Fallback
  {
    IndexOfFirst(DefaultResponses, "unknown_command", 2);
  }

  // ---------------------------------------------------------------------
  // Wake words

  /** `_is_wake_word_call`: the stripped, lower-cased text is one of the
      lower-cased wake words. */
  predicate IsWakeCall(words: seq<string>, text: string) {
    exists k :: 0 <= k < |words| && Lower(Strip(text)) == Lower(words[k])
  }

  /** `_starts_with_wake_word`, case-insensitively. */
  predicate StartsWithWake(words: seq<string>, text: string) {
    exists k :: 0 <= k < |words| && StartsWith(Lower(text), Lower(words[k]))
  }

  /** The first wake word, in list order, that begins the text. */
  function FirstWake(words: seq<string>, text: string): (r: Option<nat>)
    ensures r.None? <==> !StartsWithWake(words, text)
    ensures r.Some? ==> r.value < |words| && StartsWith(Lower(text), Lower(words[r.value]))
    ensures r.Some? ==> forall k :: 0 <= k < r.value ==> !StartsWith(Lower(text), Lower(words[k]))
    decreases |words|
  {
    if |words| == 0 then None
    else if StartsWith(Lower(text), Lower(words[0])) then Some(0)
    else
      assert forall k :: 1 <= k < |words| ==> words[k] == words[1..][k - 1];
      match FirstWake(words[1..], text)
      case None => None
      case Some(k) => Some(k + 1)
  }

  /** `_extract_command`: the text after the first wake word that begins
      it, stripped; the text itself when none does. */
  function ExtractCommand(words: seq<string>, text: string): (r: string)
    ensures !StartsWithWake(words, text) ==> r == text
    ensures StartsWithWake(words, text) ==> |r| < |text| || r == text
  {
    match FirstWake(words, text)
    case Some(k) => Strip(text[|words[k]|..])
    case None => text
  }

  /** The wake word removed is the first in list order that begins the
      text, and nothing beyond its length is required of the boundary. */
  lemma ExtractFirstWake(words: seq<string>, text: string, k: nat)
    requires k < |words| && StartsWith(Lower(text), Lower(words[k]))
    requires forall j :: 0 <= j < k ==> !StartsWith(Lower(text), Lower(words[j]))
    ensures ExtractCommand(words, text) == Strip(text[|words[k]|..])
  {
    var r := FirstWake(words, text);
    assert r.Some?;
    if r.value < k {
    } else if r.value > k {
    }
  }

  /** Without a word boundary "yukiko" is the wake word "yuki" followed by
      the command "ko". */
  lemma YukikoLowered(text: string, w0: string, w1: string)
    requires text == "yukiko" && w0 == "ยูกิ" && w1 == "yuki"
    ensures Lower(text) == text && Lower(w0) == w0 && Lower(w1) == w1
  {
  }

  lemma YukikoPrefixes(text: string, w0: string, w1: string)
    requires text == "yukiko" && w0 == "ยูกิ" && w1 == "yuki"
    ensures !StartsWith(text, w0) && StartsWith(text, w1) && text[|w1|..] == "ko"
  {
    assert text[0] != w0[0];
    assert text[..4] == w1;
  }

  lemma YukikoFirstWake(words: seq<string>, text: string)
    requires words == ["ยูกิ", "yuki", "ยูกิ"] && text == "yukiko"
    ensures FirstWake(words, text) == Some(1)
  {
    YukikoLowered(text, words[0], words[1]);
    YukikoPrefixes(text, words[0], words[1]);
  }

  lemma NoWordBoundary(words: seq<string>, text: string)
    requires words == ["ยูกิ", "yuki", "ยูกิ"] && text == "yukiko"
    ensures ExtractCommand(words, text) == "ko"
  {
    YukikoFirstWake(words, text);
    YukikoPrefixes(text, words[0], words[1]);
    StripNoop("ko");
  }

  /** The reply to a bare wake call when `previous` calls came before it. */
  function WakeReply(previous: nat): string {
    if previous < |Acknowledgements| then Acknowledgements[previous] else Scolding
  }

  /** The replies to `n` bare wake calls in a row, starting from a counter
      of `from`. */
  function WakeReplies(from: nat, n: nat): seq<string>
    decreases n
  {
    if n == 0 then [] else [WakeReply(from)] + WakeReplies(from + 1, n - 1)
  }

  lemma {:induction false} WakeRepliesAt(from: nat, n: nat)
    ensures |WakeReplies(from, n)| == n
    ensures forall i :: 0 <= i < n ==> WakeReplies(from, n)[i] == WakeReply(from + i)
    decreases n
  {
    if n > 0 {
      WakeRepliesAt(from + 1, n - 1);
    }
  }

  /** From a fresh counter the calls are answered by the five
      acknowledgements in order and then by the scolding line for ever:
      the counter never wraps. */
  lemma FreshWakeReplies(n: nat)
    ensures |WakeReplies(0, n)| == n
    ensures forall i :: 0 <= i < n && i < 5 ==> WakeReplies(0, n)[i] == Acknowledgements[i]
    ensures forall i :: 5 <= i < n ==> WakeReplies(0, n)[i] == Scolding
  {
    WakeRepliesAt(0, n);
  }

  // ---------------------------------------------------------------------
  // Classifying a command

  /** `re.search(pattern, command_lower, re.IGNORECASE)` for a pattern with
      no regular-expression operators. */
  predicate PatternMatches(command: string, pattern: string) {
    Contains(Lower(command), Lower(pattern))
  }

  function LoweredPatterns(commands: Dict<string, Json>): (ps: seq<string>)
    ensures |ps| == |commands|
    ensures forall i :: 0 <= i < |commands| ==> ps[i] == Lower(commands[i].0)
  {
    seq(|commands|, i requires 0 <= i < |commands| => Lower(commands[i].0))
  }

  /** The first entry of the command table, in table order, whose pattern
      matches. */
  function FirstPattern(commands: Dict<string, Json>, command: string): (r: Option<nat>)
    ensures r.None? <==> forall i :: 0 <= i < |commands| ==> !PatternMatches(command, commands[i].0)
    ensures r.Some? ==> r.value < |commands| && PatternMatches(command, commands[r.value].0)
    ensures r.Some? ==> forall i :: 0 <= i < r.value ==> !PatternMatches(command, commands[i].0)
  {
    AnyInIff(Lower(command), LoweredPatterns(commands));
    FirstIn(Lower(command), LoweredPatterns(commands))
  }

  /** `_is_web_search`. */
  predicate IsWebSearch(command: string) {
    var lower := Lower(command);
    AnyIn(lower, SearchTriggers) ||
    (Contains(lower, "หา") && (StartsWith(lower, "หา") || Contains(lower, " หา ")))
  }

  /** The outer test for "หา" adds nothing: a command is a search exactly
      when it contains one of the three search words, starts with "หา" or
      contains "หา" between spaces. */
  lemma WebSearchIff(command: string)
    ensures IsWebSearch(command) <==>
      AnyIn(Lower(command), SearchTriggers) || StartsWith(Lower(command), "หา") ||
      Contains(Lower(command), " หา ")
  {
    var lower := Lower(command);
    if StartsWith(lower, "หา") {
      assert OccursAt(lower, "หา", 0);
      ContainsAt(lower, "หา", 0);
    }
    if Contains(lower, " หา ") {
      assert OccursAt(" หา ", "หา", 1);
      ContainsAt(" หา ", "หา", 1);
      ContainsTransitive(lower, " หา ", "หา");
    }
  }

  /** `_is_web_service_command`. */
  predicate IsWebServiceCommand(command: string) {
    AnyIn(Lower(command), WebTriggers)
  }

  /** `_is_app_command`. */
  predicate IsAppCommand(command: string) {
    AnyIn(Lower(command), AppTriggers)
  }

  /** `_is_media_command`. */
  predicate IsMediaCommand(command: string) {
    AnyIn(Lower(command), MediaTriggers)
  }

  /** The handler `_execute_command` hands a command to. */
  datatype Stage =
    | PatternStage(index: nat)
    | WebSearchStage
    | WebServiceStage
    | AppStage
    | MediaStage
    | ConversationStage
    | UnknownStage

  /** The fixed priority of `_execute_command`: a stage is reached only
      when every earlier one declined. */
  function StageFor(commands: Dict<string, Json>, command: string, hasLlm: bool): (s: Stage)
    ensures s.PatternStage? <==> FirstPattern(commands, command).Some?
    ensures s.PatternStage? ==> s.index < |commands| && PatternMatches(command, commands[s.index].0)
    ensures s.PatternStage? ==> forall i :: 0 <= i < s.index ==> !PatternMatches(command, commands[i].0)
    ensures !s.PatternStage? ==> forall i :: 0 <= i < |commands| ==> !PatternMatches(command, commands[i].0)
    ensures s == WebSearchStage <==> !s.PatternStage? && IsWebSearch(command)
    ensures s == WebServiceStage <==>
      !s.PatternStage? && !IsWebSearch(command) && IsWebServiceCommand(command)
    ensures s == AppStage <==>
      !s.PatternStage? && !IsWebSearch(command) && !IsWebServiceCommand(command) && IsAppCommand(command)
    ensures s == MediaStage <==>
      !s.PatternStage? && !IsWebSearch(command) && !IsWebServiceCommand(command) &&
      !IsAppCommand(command) && IsMediaCommand(command)
    ensures s == ConversationStage <==>
      !s.PatternStage? && !IsWebSearch(command) && !IsWebServiceCommand(command) &&
      !IsAppCommand(command) && !IsMediaCommand(command) && hasLlm
    ensures s == UnknownStage <==>
      !s.PatternStage? && !IsWebSearch(command) && !IsWebServiceCommand(command) &&
      !IsAppCommand(command) && !IsMediaCommand(command) && !hasLlm
  {
    match FirstPattern(commands, command)
    case Some(k) => PatternStage(k)
    case None =>
      if IsWebSearch(command) then WebSearchStage
      else if IsWebServiceCommand(command) then WebServiceStage
      else if IsAppCommand(command) then AppStage
      else if IsMediaCommand(command) then MediaStage
      else if hasLlm then ConversationStage
      else UnknownStage
  }

  /** Of two table entries where the earlier pattern occurs inside the
      later one, the later can never decide a command. */
  lemma {:induction false} Shadowed(commands: Dict<string, Json>, command: string, i: nat, j: nat)
    requires i < j < |commands| && Contains(Lower(commands[j].0), Lower(commands[i].0))
    ensures FirstPattern(commands, command) != Some(j)
  {
    if PatternMatches(command, commands[j].0) {
      ContainsTransitive(Lower(command), Lower(commands[j].0), Lower(commands[i].0));
    }
  }

  lemma GreetingPatternsNested(a: string, b: string, c: string)
    requires a == "สวัสดี" && b == "สวัสดียูกิ" && c == "ยูกิสวัสดี"
    ensures Contains(Lower(b), Lower(a)) && Contains(Lower(c), Lower(a))
  {
    assert Lower(a) == a && Lower(b) == b && Lower(c) == c;
    assert OccursAt(b, a, 0);
    ContainsAt(b, a, 0);
    assert OccursAt(c, a, 4);
    ContainsAt(c, a, 4);
  }

  lemma NamePatternsNested(a: string, b: string, c: string)
    requires a == "ชื่ออะไร" && b == "คุณชื่ออะไร" && c == "เธอชื่ออะไร"
    ensures Contains(Lower(b), Lower(a)) && Contains(Lower(c), Lower(a))
  {
    assert Lower(a) == a && Lower(b) == b && Lower(c) == c;
    assert OccursAt(b, a, 3);
    ContainsAt(b, a, 3);
    assert OccursAt(c, a, 3);
    ContainsAt(c, a, 3);
  }

  /** "สวัสดียูกิ" and "ยูกิสวัสดี" contain "สวัสดี", and "คุณชื่ออะไร" and
      "เธอชื่ออะไร" contain "ชื่ออะไร", which come earlier: those four
      built-in patterns never decide a command. */
  lemma DefaultPatternsShadowed(command: string)
    ensures FirstPattern(DefaultCommands, command) !in {Some(4), Some(5), Some(10), Some(11)}
  {
    var d := DefaultCommands;
    GreetingPatternsNested(d[3].0, d[4].0, d[5].0);
    NamePatternsNested(d[9].0, d[10].0, d[11].0);
    Shadowed(d, command, 3, 4);
    Shadowed(d, command, 3, 5);
    Shadowed(d, command, 9, 10);
    Shadowed(d, command, 9, 11);
  }

  // ---------------------------------------------------------------------
  // Answering a matched pattern

  /** Everything outside the assistant the router consults: the OS and the
      file system, the clock, the weather service's answer and the
      conversation backends. */
  datatype Env = Env(
    world: World,
    hour: nat,
    minute: nat,
    second: nat,
    weather: string,
    now: int,
    backends: Llm.Backends)

  /** `_get_current_time`. */
  function TimeReply(hour: nat, minute: nat, second: nat): string {
    "ขณะนี้เวลา " + NatToString(hour) + " นาฬิกา " + NatToString(minute) + " นาที " +
    NatToString(second) + " วินาที"
  }

  lemma ServiceNamesCover()
    ensures Keys(ServiceNames) == Keys(WebActions)
  {
  }

  /** `_handle_web_action`: one of the six known actions opens its page
      and names the service; any other action is apologised for. */
  function HandleWebAction(action: string): (r: Reply)
    ensures r.effects != [] <==> action in Keys(WebActions)
    ensures action in Keys(WebActions) ==>
      OrderedDict.Get(ServiceNames, action).Some? &&
      r == Reply("เปิด " + OrderedDict.Get(ServiceNames, action).value + " แล้วค่ะ",
                 [OpenUrl(OrderedDict.Get(WebActions, action).value)])
    ensures action !in Keys(WebActions) ==> r == Say("ขออภัยค่ะ ไม่สามารถเปิด " + action + " ได้")
  {
    ServiceNamesCover();
    match OrderedDict.Get(WebActions, action)
    case Some(url) => Reply("เปิด " + OrderedDict.Get(ServiceNames, action).value + " แล้วค่ะ", [OpenUrl(url)])
    case None => Say("ขออภัยค่ะ ไม่สามารถเปิด " + action + " ได้")
  }

  lemma YouTubeEntries(action: string)
    requires action == "open_youtube"
    ensures action in Keys(WebActions)
    ensures OrderedDict.Get(WebActions, action) == Some("https://www.youtube.com")
    ensures OrderedDict.Get(ServiceNames, action) == Some("YouTube")
  {
    IndexOfFirst(WebActions, action, 1);
    IndexOfFirst(ServiceNames, action, 1);
  }

  lemma OpenYouTubeAction(action: string)
    requires action == "open_youtube"
    ensures HandleWebAction(action) == Reply("เปิด YouTube แล้วค่ะ", [OpenUrl("https://www.youtube.com")])
  {
    YouTubeEntries(action);
    YouTubeReplyText("เปิด ", OrderedDict.Get(ServiceNames, action).value, " แล้วค่ะ");
  }

  lemma YouTubeReplyText(a: string, b: string, c: string)
    requires a == "เปิด " && b == "YouTube" && c == " แล้วค่ะ"
    ensures a + b + c == "เปิด YouTube แล้วค่ะ"
  {
  }

  /** None of the tags `_execute_action` answers itself starts with "open_". */
  lemma ActionTagsNotOpen()
    ensures forall k :: 0 <= k < |ActionTags| ==> !StartsWith(ActionTags[k], "open_")
  {
    assert forall k :: 0 <= k < |ActionTags| ==> ActionTags[k][0] != 'o';
  }

  /** `_execute_action`. An action that is not a string fails at
      `startswith` and is answered with the error template. */
  function ExecuteAction(action: Json, responses: Dict<string, string>, env: Env): (r: Reply)
    ensures !action.JStr? ==> r == Say(GetResponse(responses, "error"))
    ensures action.JStr? && action.s !in ActionTags && !StartsWith(action.s, "open_") ==>
      r == Say(action.s)
    ensures action.JStr? && StartsWith(action.s, "open_") && action.s !in Keys(WebActions) ==>
      r == Say("ขออภัยค่ะ ไม่สามารถเปิด " + action.s + " ได้")
    ensures r.effects != [] ==> action.JStr? && action.s in Keys(WebActions)
  {
    ActionTagsNotOpen();
    match action
    case JStr(tag) =>
      if tag == "time" then Say(TimeReply(env.hour, env.minute, env.second))
      else if tag == "greeting" then Say(GetResponse(responses, "greeting"))
      else if tag == "name" then Say(GetResponse(responses, "name"))
      else if tag == "weather" then Say(env.weather)
      else if tag == "shutdown" then Say(ShuttingDown)
      else if StartsWith(tag, "open_") then HandleWebAction(tag)
      else Say(tag)
    case _ => Say(GetResponse(responses, "error"))
  }

  // ---------------------------------------------------------------------
  // Web search

  /** `_handle_web_search`: a non-empty query opens the Google results
      page; an empty one asks for a query and opens nothing. */
  function HandleWebSearch(command: string, responses: Dict<string, string>): (r: Reply)
    ensures r.effects == [] <==> ExtractQuery(command, SearchQueryTriggers) == []
    ensures !AnyIn(Lower(command), SearchQueryTriggers) ==> r == Say(GetResponse(responses, "no_query"))
    ensures r.effects == [] ==> r == Say(GetResponse(responses, "no_query"))
    ensures r.effects != [] ==>
      var query := ExtractQuery(command, SearchQueryTriggers);
      r == Reply("ค้นหา " + query + " บน Google แล้วค่ะ", [OpenUrl(GoogleSearch + query)])
  {
    var query := ExtractQuery(command, SearchQueryTriggers);
    if query != [] then
      Reply("ค้นหา " + query + " บน Google แล้วค่ะ", [OpenUrl(GoogleSearch + query)])
    else Say(GetResponse(responses, "no_query"))
  }

  /** The tables and the engine the router dispatches with. */
  datatype Setup = Setup(
    commands: Dict<string, Json>,
    responses: Dict<string, string>,
    webServices: Dict<string, string>,
    applications: Dict<string, string>,
    engine: Llm.LlmEngine,
    engineLoaded: bool)

  /** The reply to a command and the conversation history after it. Only
      the conversation stage touches the history, and only the pattern,
      search, web, application and media stages ask for effects. */
  function Route(setup: Setup, command: string, env: Env, history: seq<Llm.Message>): (r: (Reply, seq<Llm.Message>))
    ensures var s := StageFor(setup.commands, command, setup.engineLoaded);
      (s != ConversationStage ==> r.1 == history) &&
      (s == ConversationStage ==> r.0.effects == []) &&
      (s == UnknownStage ==> r.0 == Say(GetResponse(setup.responses, "unknown_command")))
  {
    Dispatch(setup, StageFor(setup.commands, command, setup.engineLoaded), command, env, history)
  }

  /** The handler of stage `stage` at work on `command`. */
  function Dispatch(setup: Setup, stage: Stage, command: string, env: Env, history: seq<Llm.Message>): (Reply, seq<Llm.Message>)
    requires stage.PatternStage? ==> stage.index < |setup.commands|
  {
    match stage
    case PatternStage(k) => (ExecuteAction(setup.commands[k].1, setup.responses, env), history)
    case WebSearchStage => (HandleWebSearch(command, setup.responses), history)
    case WebServiceStage => (WebCommands.ProcessCommand(setup.webServices, command), history)
    case AppStage => (Apps.ProcessCommand(setup.applications, env.world, command), history)
    case MediaStage => (MediaCommands.ProcessCommand(env.world, command), history)
    case ConversationStage =>
      var out := Llm.Respond(setup.engine, history, command, LlmContext, env.backends);
      (Say(out.0), out.1)
    case UnknownStage => (Say(GetResponse(setup.responses, "unknown_command")), history)
  }

  // ---------------------------------------------------------------------
  // One utterance

  /** What the front of `process_command` makes of an utterance. */
  datatype Step =
    | Silent
    | WakeCall
    | NotAddressed
    | NoCommand
    | Command(command: string)

  /** The normalisation `process_command` applies first. */
  function Normalised(text: string): string {
    ThaiRewritten(CleanText(text))
  }

  function StepFor(words: seq<string>, text: string): (s: Step)
    ensures s == Silent <==> text == []
    ensures s == NotAddressed ==> !IsWakeCall(words, Normalised(text)) && !StartsWithWake(words, Normalised(text))
    ensures s.Command? ==> s.command != [] && StartsWithWake(words, Normalised(text))
  {
    if text == [] then Silent
    else
      var t := Normalised(text);
      if IsWakeCall(words, t) then WakeCall
      else if !StartsWithWake(words, t) then NotAddressed
      else
        var command := ExtractCommand(words, t);
        if command == [] then NoCommand else Command(command)
  }

  /** What one utterance leaves behind: the reply, the wake-call counter,
      the time of the last command and the conversation history. */
  datatype Turn = Turn(reply: Reply, callCount: nat, lastCommandTime: int, history: seq<Llm.Message>)

  /** `process_command` on a router whose counter stands at `callCount`,
      whose last command ran at `lastTime` and whose engine holds
      `history`. */
  function Process(setup: Setup, words: seq<string>, callCount: nat, lastTime: int,
                   history: seq<Llm.Message>, text: string, env: Env): Turn
  {
    Advance(setup, StepFor(words, text), callCount, lastTime, history, env)
  }

  /** What the router does once the text has been classified as `step`. */
  function Advance(setup: Setup, step: Step, callCount: nat, lastTime: int,
                   history: seq<Llm.Message>, env: Env): Turn
  {
    match step
    case Silent => Turn(Say(""), callCount, lastTime, history)
    case WakeCall => Turn(Say(WakeReply(callCount)), callCount + 1, lastTime, history)
    case NotAddressed => Turn(Say(Ignored), callCount, lastTime, history)
    case NoCommand => Turn(Say(GetResponse(setup.responses, "no_command")), callCount, lastTime, history)
    case Command(command) =>
      var out := Route(setup, command, env, history);
      Turn(out.0, callCount, env.now, out.1)
  }

  /** Empty text is answered with `""` and changes nothing. */
  lemma EmptyTextChangesNothing(setup: Setup, words: seq<string>, callCount: nat, lastTime: int,
                                history: seq<Llm.Message>, env: Env)
    ensures Process(setup, words, callCount, lastTime, history, "", env) ==
            Turn(Say(""), callCount, lastTime, history)
  {
    assert StepFor(words, "") == Silent;
  }

  /** A bare wake call moves the counter on by exactly one and is answered
      from the counter as it stood. */
  lemma WakeCallCounts(setup: Setup, words: seq<string>, callCount: nat, lastTime: int,
                       history: seq<Llm.Message>, text: string, env: Env)
    requires text != [] && IsWakeCall(words, Normalised(text))
    ensures Process(setup, words, callCount, lastTime, history, text, env) ==
            Turn(Say(WakeReply(callCount)), callCount + 1, lastTime, history)
  {
    assert StepFor(words, text) == WakeCall;
  }

  /** Text that neither is a bare wake word nor starts with one is answered
      with "..." and changes nothing. */
  lemma UnaddressedIgnored(setup: Setup, words: seq<string>, callCount: nat, lastTime: int,
                           history: seq<Llm.Message>, text: string, env: Env)
    requires text != [] && !IsWakeCall(words, Normalised(text)) && !StartsWithWake(words, Normalised(text))
    ensures Process(setup, words, callCount, lastTime, history, text, env) ==
            Turn(Say("..."), callCount, lastTime, history)
  {
    assert StepFor(words, text) == NotAddressed;
  }

  /** Only a command stamps the time. */
  lemma OnlyCommandsStampTime(setup: Setup, words: seq<string>, callCount: nat, lastTime: int,
                              history: seq<Llm.Message>, text: string, env: Env)
    requires Process(setup, words, callCount, lastTime, history, text, env).lastCommandTime != lastTime
    ensures StepFor(words, text).Command?
  {
  }

  /** The counter moves only on a bare wake call. */
  lemma OnlyWakeCallsCount(setup: Setup, words: seq<string>, callCount: nat, lastTime: int,
                           history: seq<Llm.Message>, text: string, env: Env)
    requires Process(setup, words, callCount, lastTime, history, text, env).callCount != callCount
    ensures StepFor(words, text) == WakeCall
  {
  }

  class CommandProcessor {
    /** `self.commands`: pattern to action, in table order. */
    var commands: Dict<string, Json>
    /** `self.responses`: reply templates by key. */
    var responses: Dict<string, string>
    /** `self.call_count`: bare wake calls so far. */
    var callCount: nat
    /** `self.last_command_time`. */
    var lastCommandTime: int
    /** The configured wake word and its alternatives. */
    const wakeWord: string
    const alternatives: seq<string>
    /** The `web_services` table the web handler is built with. */
    const webServices: Dict<string, string>
    /** The configured application table the application handler reads. */
    const applications: Dict<string, string>
    /** The conversation engine, and whether it could be loaded at all. */
    const llm: Llm.LlmEngine
    const llmLoaded: bool

    /** `__init__`: the command table from the commands file (`None` when
        it is missing or unreadable), the templates from the responses file
        or the built-in ones. */
    constructor(rawCommands: Option<Json>, loadedResponses: Option<Dict<string, string>>,
                wakeWord: string, alternatives: seq<string>, webServices: Dict<string, string>,
                applications: Dict<string, string>, llm: Llm.LlmEngine, llmLoaded: bool)
      ensures commands == Loaded(rawCommands)
      ensures responses == (if loadedResponses.Some? then loadedResponses.value else DefaultResponses)
      ensures callCount == 0 && lastCommandTime == 0
      ensures this.wakeWord == wakeWord && this.alternatives == alternatives
      ensures this.webServices == webServices && this.applications == applications
      ensures this.llm == llm && this.llmLoaded == llmLoaded
    {
      this.wakeWord := wakeWord;
      this.alternatives := alternatives;
      this.webServices := webServices;
      this.applications := applications;
      this.llm := llm;
      this.llmLoaded := llmLoaded;
      commands := [];
      responses := if loadedResponses.Some? then loadedResponses.value else DefaultResponses;
      callCount := 0;
      lastCommandTime := 0;
      new;
      LoadCommands(rawCommands);
    }

    /** `_load_commands`: the top-level entries are flattened one by one
        into the table. */
    method LoadCommands(raw: Option<Json>)
      modifies this
      ensures commands == Loaded(raw)
      ensures responses == old(responses) && callCount == old(callCount)
      ensures lastCommandTime == old(lastCommandTime)
    {
      if !(raw.Some? && raw.value.JMap?) {
        commands := DefaultCommands;
        return;
      }
      var d := raw.value.entries;
      commands := [];
      var i := 0;
      while i < |d|
        invariant 0 <= i <= |d|
        invariant commands == Flattened(d[..i])
        invariant responses == old(responses) && callCount == old(callCount)
        invariant lastCommandTime == old(lastCommandTime)
      {
        assert d[..i + 1][..i] == d[..i];
        if d[i].1.JMap? {
          var inner := d[i].1.entries;
          var j := 0;
          while j < |inner|
            invariant 0 <= j <= |inner|
            invariant PutAll(commands, inner[j..]) == PutAll(Flattened(d[..i]), inner)
            invariant responses == old(responses) && callCount == old(callCount)
            invariant lastCommandTime == old(lastCommandTime)
          {
            assert inner[j..][1..] == inner[j + 1..];
            commands := Put(commands, inner[j].0, inner[j].1);
            j := j + 1;
          }
        } else {
          commands := Put(commands, d[i].0, d[i].1);
        }
        i := i + 1;
      }
      assert d[..i] == d;
    }

    /** `[self.wake_word] + self.alternative_wake_words`. */
    function WakeWords(): seq<string> {
      [wakeWord] + alternatives
    }

    /** `_handle_wake_word_call`. */
    method HandleWakeCall() returns (reply: string)
      modifies this
      ensures callCount == old(callCount) + 1
      ensures reply == WakeReply(old(callCount))
      ensures commands == old(commands) && responses == old(responses)
      ensures lastCommandTime == old(lastCommandTime)
    {
      callCount := callCount + 1;
      if callCount <= |Acknowledgements| {
        reply := Acknowledgements[callCount - 1];
      } else {
        reply := Scolding;
      }
    }

    /** The tables and the engine `_execute_command` works with. */
    function Current(): Setup
      reads this`commands, this`responses
    {
      Setup(commands, responses, webServices, applications, llm, llmLoaded)
    }

    /** `_execute_command`. */
    method ExecuteCommand(command: string, env: Env) returns (reply: Reply)
      modifies llm
      ensures (reply, llm.history) == Route(Current(), command, env, old(llm.history))
    {
      var stage := StageFor(commands, command, llmLoaded);
      reply := Perform(stage, command, env);
    }

    /** The handler of the chosen stage, as `_execute_command` calls it. */
    method Perform(stage: Stage, command: string, env: Env) returns (reply: Reply)
      requires stage.PatternStage? ==> stage.index < |commands|
      modifies llm
      ensures (reply, llm.history) == Dispatch(Current(), stage, command, env, old(llm.history))
    {
      match stage
      case PatternStage(k) =>
        reply := ExecuteAction(commands[k].1, responses, env);
      case WebSearchStage =>
        reply := HandleWebSearch(command, responses);
      case WebServiceStage =>
        reply := WebCommands.ProcessCommand(webServices, command);
      case AppStage =>
        reply := Apps.ProcessCommand(applications, env.world, command);
      case MediaStage =>
        reply := MediaCommands.ProcessCommand(env.world, command);
      case ConversationStage =>
        var text := llm.GenerateResponse(command, LlmContext, env.backends);
        reply := Say(text);
      case UnknownStage =>
        reply := Say(GetResponse(responses, "unknown_command"));
    }

    /** `process_command`. */
    method ProcessCommand(text: string, env: Env) returns (reply: Reply)
      modifies this, llm
      ensures commands == old(commands) && responses == old(responses)
      ensures Turn(reply, callCount, lastCommandTime, llm.history) ==
        Process(old(Current()), WakeWords(), old(callCount), old(lastCommandTime), old(llm.history), text, env)
    {
      var step := Classify(text);
      reply := Answer(step, env);
    }

    /** The rest of `process_command` once the text is classified. */
    method Answer(step: Step, env: Env) returns (reply: Reply)
      modifies this, llm
      ensures commands == old(commands) && responses == old(responses)
      ensures Turn(reply, callCount, lastCommandTime, llm.history) ==
        Advance(old(Current()), step, old(callCount), old(lastCommandTime), old(llm.history), env)
    {
      match step
      case Silent =>
        reply := Say("");
      case WakeCall =>
        var spoken := HandleWakeCall();
        reply := Say(spoken);
      case NotAddressed =>
        reply := Say(Ignored);
      case NoCommand =>
        reply := Say(GetResponse(responses, "no_command"));
      case Command(command) =>
        reply := ExecuteCommand(command, env);
        lastCommandTime := env.now;
    }

    /** The front of `process_command`: normalise the text, then test for a
        bare wake word, for a wake-word prefix and for an empty command. */
    method Classify(text: string) returns (step: Step)
      ensures step == StepFor(WakeWords(), text)
    {
      if text == [] {
        return Silent;
      }
      var t := CleanText(text);
      t := ProcessThaiText(t);
      var words := WakeWords();
      if IsWakeCall(words, t) {
        return WakeCall;
      }
      if !StartsWithWake(words, t) {
        return NotAddressed;
      }
      var command := ExtractCommand(words, t);
      if command == [] {
        return NoCommand;
      }
      return Command(command);
    }
  }
}
