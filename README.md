# Yuki: the text-routing core of a Thai voice assistant, in Dafny

Yuki is a voice assistant. It turns one transcribed utterance into a
reply, and sometimes into an action such as opening a URL or launching
an application. This project models the part of it that is plain string
work:

- the text helpers: normalisation, the polite pronoun rewrite, query
  extraction, filename sanitising, search URLs and spoken durations;
- the utterance router: empty input, the bare wake call and its counter,
  the wake prefix, then the fixed chain of pattern table, web search, web
  service, application, media, conversation engine and unknown-command
  reply;
- the conversation engine: a bounded history, the prompt it builds, and
  the choice between a local backend, a cloud backend and a keyword
  table;
- the four command handlers for web, media, applications and the system;
- the dot-path configuration store;
- the older stand-alone script's pronoun rewrite, its wake counter, which
  wraps modulo six, and its addressing gate.

Python's string operations are written out in module `PyStr`:

| Python | Dafny |
|---|---|
| `in` | `Contains` |
| `str.replace` (every non-overlapping occurrence, left to right) | `ReplaceAll` |
| `strip` | `Strip` |
| `split` | `Split` |
| `lower()` | `Lower`, which maps ASCII A–Z and leaves every other character alone |

Python dicts keep insertion order, so every table is a sequence of
key/value pairs. Module `OrderedDict` gives it `Put` (update in place or
append) and `Remove`.

What the outside world does is passed in as data:

- a clock reading;
- whether a path exists;
- the platform;
- whether each backend is reachable and what it answers.

What the assistant does to the outside world is returned as data: each
reply is a text plus a list of effects (`Outcomes.Reply`). Mutable
objects are classes whose fields change:

- the router's call counter and last-command time;
- the engine's history;
- the application table;
- the configuration tree;
- the script's persisted counter.

Each of these methods is proved against a function of the old state.

The router and the script differ on the wake counter. The router's
counter only grows: calls one to five get the five acknowledgements in
order, and every later call gets the scolding line. The script stores
`(count + 1) % 6`, so a fresh counter's first call gets the second
acknowledgement, the fifth call is scolded, and the sixth starts over
with the first. Both variants are modelled, and
`Legacy.LegacyAndRouterDiverge` sets them side by side.

## Model

| member | source | states |
|---|---|---|
| PyStr.Lower | src/utils/helpers.py:35 | lower-casing keeps the length, leaves no upper-case letter and maps every character through the ASCII lower-case map |
| PyStr.LowerIdempotent | src/utils/helpers.py:35 | lower-casing twice is lower-casing once |
| PyStr.Find | src/utils/helpers.py:67 | for a pattern that occurs, an index where it occurs with no occurrence before it |
| PyStr.ContainsIffOccurs | src/utils/helpers.py:67 | substring containment holds iff the pattern occurs at some index |
| PyStr.ReplaceRemoves | src/utils/helpers.py:57 | after replacing every occurrence of a pattern by a text that cannot recreate it, the pattern no longer occurs |
| PyStr.ReplaceAbsent | src/utils/helpers.py:57 | replacing a pattern that does not occur changes nothing |
| PyStr.StripNoop | src/utils/helpers.py:35 | stripping text with no outer whitespace gives it back |
| PyStr.JoinSplit | src/utils/config.py:42 | joining the parts of a split with the separator gives back the original key |
| PyStr.SplitJoin | src/utils/config.py:42 | splitting parts that hold no separator, once joined, gives back the parts |
| PyStr.DecimalRoundTrip | src/utils/helpers.py:208-212 | the decimal rendering of a count reads back to the count |
| Triggers.AnyInIff | src/commands/system_commands.py:59 | `any(t in s for t in ts)` holds iff some trigger is a substring |
| Triggers.FirstIn | src/commands/media_commands.py:123-127 | the first trigger in list order that occurs, or none when none occurs |
| Triggers.FirstGroup | src/core/llm_engine.py:218-236 | the first group in order with a hit, earlier groups having none |
| OrderedDict.PutSpec | src/commands/app_commands.py:178 | assignment keeps keys unique, reads back the new value, leaves other keys' values unchanged, and appends a new key at the end |
| OrderedDict.RemoveSpec | src/commands/app_commands.py:191 | deletion keeps keys unique, drops the key and leaves other keys' values unchanged |
| OrderedDict.Get | src/utils/config.py:48 | a lookup succeeds exactly for a present key, with that key's value |
| Helpers.CollapseSpaces | src/utils/helpers.py:38 | collapsing whitespace runs leaves single spaces only, never lengthens the text, and keeps its first and last visible characters |
| Helpers.CollapseSingleSpaced | src/utils/helpers.py:38 | collapsing text that is already single-spaced gives it back |
| Helpers.CleanText | src/utils/helpers.py:29-41 | empty text cleans to empty; otherwise the result is lower-case, trimmed, single-spaced and no longer than the input |
| Helpers.CleanTextIdempotent | src/utils/helpers.py:35-38 | cleaning cleaned text changes nothing |
| Helpers.CleanTextKeepsVisible | src/utils/helpers.py:29-41 | cleaning keeps exactly the lower-cased visible characters, in order |
| Helpers.CleanTextExample | tests/test_basic.py:24-26 | `"  Hello   World  "` cleans to `"hello world"` |
| Helpers.ProcessThaiText | src/utils/helpers.py:43-60 | the loop computes the ordered rewrite, and its result holds neither "ผม" nor "ครับ" |
| Helpers.ThaiLaterRulesDead | src/utils/helpers.py:49-57 | the four-rule table acts as its first two rules alone, because "ผมจะ" and "ผมอยาก" can never match once every "ผม" is gone |
| Helpers.ThaiRewrittenPolite | tests/test_basic.py:31-34 | the rewritten text holds neither "ผม" nor "ครับ" |
| Helpers.ThaiRewrittenExample | src/utils/helpers.py:49-57 | "ผมจะไปครับ" becomes "ฉันเองก็จะไปค่ะ" |
| Helpers.ExtractQuery | src/utils/helpers.py:62-73 | no trigger in the lower-cased command gives ""; the result is always trimmed |
| Helpers.ExtractQueryFirstTrigger | src/utils/helpers.py:66-72 | when trigger k is the first one present, the query is the lower-cased command with every occurrence of trigger k removed, trimmed |
| Helpers.SanitizeFilename | src/utils/helpers.py:75-86 | the loop computes the sanitised name; it holds none of `<>:"/\|?*`, neither begins nor ends with a dot or space, and is never longer than the input |
| Helpers.CreateSearchUrl | src/utils/helpers.py:182-190 | the URL starts with the base and ends with the query; a google.com base adds `/search?q=`, otherwise a youtube.com base adds `/results?search_query=`, otherwise `?q=` |
| Helpers.SplitSeconds | src/utils/helpers.py:205-207 | minutes and seconds are below sixty and hours·3600 + minutes·60 + seconds is the total |
| Helpers.FormatTimeSpeaksParts | src/utils/helpers.py:203-214 | the spoken duration is the rendering of its parts, each as number, space, Thai unit |
| Helpers.SpokenPartsAddUp | src/utils/helpers.py:208-214 | the hour part is spoken only when nonzero, a leading minute part only when nonzero, the seconds always last, and the parts add up to the total |
| Configuration.SetPath | src/utils/config.py:53-63 | a successful set keeps the top-level keys, appending the first segment if it was new; a missing first segment never blocks it |
| Configuration.SetThenLookup | src/utils/config.py:40-63 | after a set, a get of the same path finds the value |
| Configuration.SetLeavesOthers | src/utils/config.py:53-63 | a set leaves every path that diverges from the key's path reading as before |
| Configuration.SetFailsIffBlocked | src/utils/config.py:58-63 | a set fails exactly when an existing intermediate on the path is not a map |
| Configuration.Config.Get | src/utils/config.py:40-51 | the value at the dotted key, or the default |
| Configuration.Config.Set | src/utils/config.py:53-63 | the tree becomes the set tree when no intermediate blocks the path, and is otherwise left as it was |
| Configuration.Config.GetSection | src/utils/config.py:66-92 | a section is its stored map, or `{}` when absent |
| Configuration.GetAfterSet | src/utils/config.py:40-63 | `get(k, d)` after `set(k, v)` is `v` |
| Configuration.MissingKeyGivesDefault | tests/test_basic.py:50-51 | `get('non.existent', default)` on the default tree is the default |
| Configuration.DefaultSectionNames | src/utils/config.py:94-134 | the default tree has the sections voice, audio, applications, web_services, api_keys, weather and logging, in that order |
| Configuration.DefaultVoice | src/utils/config.py:97-104 | the default voice language is 'th-TH', the wake word 'ยูกิ', the alternatives ['yuki', 'ยูกิ'] |
| Llm.PyTail | src/core/llm_engine.py:274-276 | `xs[-n:]` is a suffix; it is the whole list when n is 0 or at least the length, and otherwise n long |
| Llm.Retained | src/core/llm_engine.py:274-276 | the kept history is a suffix: exactly the last 2·window entries when the history is longer and the window is at least one; the whole history when that is short or the window is 0 |
| Llm.RecordedExchange | src/core/llm_engine.py:263-276 | after an update the history ends with the user turn then the assistant turn, and is preceded by a suffix of the old history |
| Llm.WindowOfOneKeepsLastExchange | src/core/llm_engine.py:263-276 | with a window of one, two updates leave only the second exchange |
| Llm.PromptShape | src/core/llm_engine.py:238-261 | the messages are the system prompt, a context message iff the context is non-empty, the last `window` history entries, then the user turn |
| Llm.FallbackResponse | src/core/llm_engine.py:212-236 | the first keyword group with a hit decides the reply, and no hit gives the deflection |
| Llm.FoodRequestGetsHelpReply | test_llm.py:34 | "ช่วยแนะนำอาหารไทยอร่อยๆ หน่อย" hits the food keywords yet gets the help reply |
| Llm.SelectTier | src/core/llm_engine.py:114-126 | the local backend is used iff it answers the probe; the cloud iff not, and cloud use is on and a key is set |
| Llm.CallReply | src/core/llm_engine.py:156-170 | a 200 reply gives its content, another status the processing apology, no connection the backend's own apology |
| Llm.LlmEngine.IsAvailable | src/core/llm_engine.py:68-81 | available iff the engine is enabled and some backend tier is usable; never when disabled |
| Llm.LlmEngine.UpdateHistory | src/core/llm_engine.py:263-276 | the history becomes the retained window of the old history plus the exchange |
| Llm.LlmEngine.ClearHistory | src/core/llm_engine.py:278-281 | the history is empty |
| Llm.LlmEngine.BuildMessages | src/core/llm_engine.py:238-261 | the loop builds exactly the prompt described above |
| Llm.LlmEngine.GenerateResponse | src/core/llm_engine.py:114-130 | reply and new history are those of the selected tier |
| Llm.KeywordTierKeepsHistory | src/core/llm_engine.py:124-126 | the keyword tier answers from the table and leaves the history alone |
| Llm.FailedCallKeepsHistory | src/core/llm_engine.py:160-170 | a failed backend call returns an apology, leaves the history alone and does not fall through |
| Llm.SuccessfulCallRecorded | src/core/llm_engine.py:156-159 | a successful call returns the backend's answer and records the exchange |
| WebCommands.MatchesServiceNamesIt | src/commands/web_commands.py:53-63 | a service match means the command holds a space followed by the service name |
| WebCommands.FirstService | src/commands/web_commands.py:39-41 | the first configured service, in table order, that the command names |
| WebCommands.SearchCommandCore | src/commands/web_commands.py:74-81 | the eight search triggers amount to "search", "เสิร์ช" or "หา" |
| WebCommands.SearchEngineFor | src/commands/web_commands.py:105-114 | the engine is always a key of the engine table; youtube iff mentioned, google iff none of youtube, bing, duckduckgo is |
| WebCommands.HandleSearch | src/commands/web_commands.py:83-103 | an empty query gives the prompt; otherwise one URL is opened, starting with the engine's base and ending with the query |
| WebCommands.CaptureFrom | src/commands/web_commands.py:128-140 | a capture exists iff the lead occurs followed by a non-empty line; the capture holds no newline and follows the lead in the command |
| WebCommands.WebsiteUrl | src/commands/web_commands.py:157-163 | the URL starts with "https://" and ends with ".com" |
| WebCommands.WebsiteUrlBareName | src/commands/web_commands.py:157-163 | a bare name becomes `https://name.com` |
| WebCommands.WebsiteUrlThaiDomain | src/commands/web_commands.py:157-163 | `name.co.th` also becomes `https://name.com` |
| WebCommands.HandleWebsitePattern | src/commands/web_commands.py:126-155 | no capture, or a blank one, gives the prompt; otherwise the site opened is that of the trimmed group of the first matching lead |
| WebCommands.FirstCapture | src/commands/web_commands.py:137-142 | the group of the first lead in list order that matches, earlier leads matching nothing; none iff no lead matches |
| WebCommands.ProcessCommand | src/commands/web_commands.py:34-51 | a service match, then search, then website pattern, and "not understood" iff none applies |
| WebCommands.WebsiteCaseMismatch | src/commands/web_commands.py:48-49 | "Open Website Pantip" passes detection on the lower-cased text yet gets the prompt, since capture matches case-sensitively |
| MediaCommands.MusicPlatformFor | src/commands/media_commands.py:151-164 | never Netflix; Spotify iff mentioned; Apple Music iff apple is mentioned and neither Spotify nor YouTube is |
| MediaCommands.HandleMusic | src/commands/media_commands.py:65-83 | an empty query asks for a song; otherwise the query is searched on Spotify iff that is the platform, and played on YouTube for every other platform (Apple Music, SoundCloud, Deezer, the default); no URL is opened directly |
| MediaCommands.VideoPlatformFor | src/commands/media_commands.py:166-173 | only Netflix or YouTube, and Netflix iff mentioned |
| MediaCommands.HandleVideo | src/commands/media_commands.py:94-112 | an empty query asks for a video; otherwise the query is searched on Netflix iff "netflix" is mentioned, and played on YouTube otherwise |
| MediaCommands.VideoQueryKeepsVideoWord | src/commands/media_commands.py:97-98 | "ดูวิดีโอ x" yields the query "วิดีโอ x" |
| MediaCommands.HandleStreaming | src/commands/media_commands.py:121-132 | the first service key in table order found in the command is opened, and no key gives the unknown-service reply |
| MediaCommands.ProcessCommand | src/commands/media_commands.py:35-55 | music, then video, then streaming, then general media, then "not understood" |
| MediaCommands.NotUnderstoodIffUnclassified | src/commands/media_commands.py:35-55 | the reply is "not understood" iff no classifier fires |
| MediaCommands.AppleMusicNeverOpened | src/commands/media_commands.py:26-55 | the Apple Music URL is never opened, since "apple_music" holds "music" and routes to the music handler |
| MediaCommands.PlaySpecificSong | src/commands/media_commands.py:215-218 | the played query is song and artist joined by a space, trimmed |
| Apps.MatchesAppLowered | src/commands/app_commands.py:48-61 | on lower-cased text a match is a hit of one of the five lower-cased phrasings |
| Apps.FirstApp | src/commands/app_commands.py:34-36 | the first configured app, in table order, that the command names |
| Apps.FirstAlias | src/commands/app_commands.py:38-43 | the first alias, in table order, that occurs and whose application has a non-empty path |
| Apps.OpenApplication | src/commands/app_commands.py:63-74 | an existing path is launched; otherwise the alternatives are tried |
| Apps.AlternativeOpen | src/commands/app_commands.py:76-109 | nothing is launched exactly when the not-found reply is given, always on an unknown platform |
| Apps.HandleCommonApps | src/commands/app_commands.py:111-147 | the first group with an alias hit decides, and no hit gives "not understood" |
| Apps.ProcessCommand | src/commands/app_commands.py:29-46 | configured apps, then aliases with a configured path, then the common groups |
| Apps.AppCommands.ListAvailableApps | src/commands/app_commands.py:171-173 | the configured names in insertion order, one per entry |
| Apps.AppCommands.AddApplication | src/commands/app_commands.py:175-185 | the table becomes the assignment of the path to the name, and the result is true |
| Apps.AppCommands.RemoveApplication | src/commands/app_commands.py:187-199 | the result is true iff the name was present, and the table loses that name |
| Apps.AddThenList | src/commands/app_commands.py:175-185 | after adding, the name is listed with its path and other names read as before |
| Apps.RemoveTwice | src/commands/app_commands.py:187-199 | removing a name twice is removing it once |
| SystemCmds.HandleInfo | src/commands/system_commands.py:61-70 | the resource reading iff a resource word occurs; the disk reading iff a disk word occurs and no resource word; then uptime rendered in spoken time, then the full summary; never "not understood" |
| SystemCmds.HandleControl | src/commands/system_commands.py:72-89 | shutdown, then restart, then sleep, each running its own platform's commands; with none of them the control apology and no effect |
| SystemCmds.HandleProcess | src/commands/system_commands.py:99-106 | a kill word asks which process; otherwise a list word gives the process listing; with neither the process apology |
| SystemCmds.HandleFile | src/commands/system_commands.py:116-123 | create beats delete, both constant replies; otherwise the file apology |
| SystemCmds.ProcessCommand | src/commands/system_commands.py:30-50 | info, control, process, file in that order; "not understood" iff no classifier fires; only control runs commands |
| SystemCmds.ProgramIsResourceRequest | src/commands/system_commands.py:52-59 | "program" holds "ram" and so is a resource request |
| SystemCmds.UpperCpuGetsFullInfo | src/commands/system_commands.py:32-36 | "CPU" is detected lower-cased but the handler sees it upper-case and gives the full summary |
| SystemCmds.HibernateRefused | src/commands/system_commands.py:72-89 | "hibernate" passes control detection and gets the control apology |
| SystemCmds.ThaiKillRefused | src/commands/system_commands.py:91-106 | "ฆ่าโปรเซส" passes process detection and gets the process apology |
| Router.FlattenedKeys | src/core/command_processor.py:84-90 | flattening keeps keys unique and keeps exactly the keys that the top-level entries provide, nested maps merged in |
| Router.FlatFileUnchanged | src/core/command_processor.py:84-90 | a flat command table is kept as it is |
| Router.GetResponse | src/core/command_processor.py:433-435 | a present key gives its template, a missing one the fallback apology |
| Router.DefaultUnknownIsFallback | src/core/command_processor.py:459-472 | the default unknown_command template is the fallback apology |
| Router.FirstWake | src/core/command_processor.py:161-176 | the first wake word in order that lower-cased prefixes the text, none iff the text is not wake-prefixed |
| Router.ExtractFirstWake | src/core/command_processor.py:167-176 | the command is the text after the first matching wake word, trimmed |
| Router.NoWordBoundary | src/core/command_processor.py:167-176 | "yukiko" yields the command "ko" |
| Router.FreshWakeReplies | src/core/command_processor.py:178-193 | from a fresh counter, calls one to five get the acknowledgements in order and every later call the scolding line |
| Router.FirstPattern | src/core/command_processor.py:199-203 | the first table entry, in order, whose pattern occurs in the lower-cased command |
| Router.DefaultPatternsShadowed | src/core/command_processor.py:437-457 | four default patterns can never be the first match, because an earlier pattern is inside each |
| Router.WebSearchIff | src/core/command_processor.py:325-342 | a web search iff the command holds "ค้นหา", "search" or "เสิร์ช", starts with "หา" or holds " หา " |
| Router.StageFor | src/core/command_processor.py:195-228 | each stage is chosen iff every earlier stage declined and it accepts |
| Router.HandleWebAction | src/core/command_processor.py:287-323 | a URL is opened iff the tag is a known web action; an unknown one gets the "ไม่สามารถเปิด" apology |
| Router.ExecuteAction | src/core/command_processor.py:230-249 | an unknown tag not starting with "open_" is returned verbatim, an unknown "open_" tag gets the apology, and only known web actions open anything |
| Router.HandleWebSearch | src/core/command_processor.py:344-356 | a URL is opened iff the query is non-empty, as a Google search for it; otherwise the no_query template |
| Router.Route | src/core/command_processor.py:195-228 | only the conversation stage touches the history and it opens nothing; the unknown stage gives the unknown_command template |
| Router.StepFor | src/core/command_processor.py:126-147 | silent iff the text is empty; ignored text is neither a wake call nor wake-prefixed; a command is non-empty and came from wake-prefixed text |
| Router.EmptyTextChangesNothing | src/core/command_processor.py:128-129 | empty text gets "" and changes no state |
| Router.WakeCallCounts | src/core/command_processor.py:135-137 | a bare wake call gets the reply for the current count and adds one to it, nothing else changing |
| Router.UnaddressedIgnored | src/core/command_processor.py:139-141 | text that does not address the assistant gets "..." and changes no state |
| Router.OnlyCommandsStampTime | src/core/command_processor.py:148-152 | the last-command time moves only when a command was executed |
| Router.OnlyWakeCallsCount | src/core/command_processor.py:178-180 | the call counter moves only on a bare wake call |
| Router.CommandProcessor.constructor | src/core/command_processor.py:62-98 | the commands are the loaded table flattened, or the defaults; the counter and time start at 0 |
| Router.CommandProcessor.LoadCommands | src/core/command_processor.py:62-98 | the command table becomes the loaded and flattened one, nothing else changing |
| Router.CommandProcessor.HandleWakeCall | src/core/command_processor.py:178-193 | the counter grows by one and the reply is the one for the old count |
| Router.CommandProcessor.ExecuteCommand | src/core/command_processor.py:195-228 | reply and history are those of the routing chain |
| Router.CommandProcessor.ProcessCommand | src/core/command_processor.py:126-154 | the reply, counter, time and history after the call are those of one step of the utterance function |
| Router.CommandProcessor.Classify | src/core/command_processor.py:126-147 | the classification of the utterance |
| Legacy.ProcessTextIsThaiRewrite | test.py:55-60 | the guarded replacements are the two unguarded ones, which is what the helper's four-rule table computes |
| Legacy.ProcessTextPolite | test.py:55-60 | the rewritten text holds neither "ผม" nor "ครับ" |
| Legacy.NextCount | test.py:117 | the new count is in 0..5 and congruent to the old count plus one modulo six |
| Legacy.WakeRunSplit | test.py:111-125 | a run of calls splits into its first calls and the run that the counter they leave goes on with |
| Legacy.WakeRunPeriodic | test.py:117 | from a stored count in 0..5 the replies repeat with period six |
| Legacy.LegacyAndRouterDiverge | test.py:111-122 | a fresh script counter answers acknowledgements two to five, the scolding line, then the first, while the router answers the five in order then scolds |
| Legacy.WakeCounter.Call | test.py:111-125 | the stored count becomes the next count and the reply is the one for it |
| Legacy.WakeCounter.Execute | test.py:90-133 | outcome and stored count are those of one step of the gate |
| Legacy.CountMovesOnlyOnWake | test.py:100-125 | the count moves only on a bare wake call, and is then in 0..5 |
| Legacy.WakeSkipsAhead | test.py:117-120 | below four, a bare wake call answers the next acknowledgement, so a fresh counter's first reply is "เรียกใช้ยูกิได้เลยค่ะ" |
| Legacy.EnglishPrefixIgnored | test.py:126-133 | text starting with "yuki" that is not a bare call is ignored, since only the Thai wake word is stripped |

## Left out

- Speech capture, text-to-speech, the listening loop, logging and process exit are I/O around the core. They are not modelled.
- Opening a browser, launching a program, running a shell command and `pywhatkit` are returned as effects, not performed. Their exceptions are not modelled; `webbrowser.open` reports failure by its result and does not raise.
- The clock, the weather service, the backend probe and the backend chat replies are parameters.
- The path-exists test and the platform are parameters.
- The commands file, the responses file, the YAML configuration and `yuki_call_count.json` are not read or written. The loaded tables and the persisted count are parameters.
- Pattern-table keys are matched with `re.search`. The model matches them as literal case-insensitive substrings, which is all the default table holds.
- Percent-encoding of queries (`urllib.parse.quote`) is not modelled: URLs carry the query as it is.
- Floating-point figures are not modelled: the psutil percentages and gigabyte sizes, the top-five process listing, the LLM temperature, `format_duration` and `get_file_size_mb`. The system handlers say which report they give, not its figures.
- `validate_url`, `retry_operation`, `load_model`, `get_model_info`, `play_artist` and `open_playlist` lie outside the routing core.
- The `ImportError` branches of the router's handler loading and the catch-all exception branch of the conversation call are not modelled.
- The application table is owned by `Apps.AppCommands`. In the program it is the same dict the configuration holds, so `config.set` inside `remove_application` writes the key back with `None`. That aliasing is not modelled.
- The system-command handler is not reached from the router's chain, just as in the program. It is modelled on its own.
- The script's weather block (test.py:93-98) and everything after the gate (test.py:134-403) are network calls, hard-coded paths and a call to an undefined function. They are not modelled.
- PyStr.Lower: Python's Unicode case mapping is not modelled. Only ASCII A–Z is lowered, so a non-ASCII capital such as "É" or the Kelvin sign is kept as it is, and the length never changes, whereas Python's `lower()` can lengthen a string ("İ"). Queries and URLs built from such input differ from the program's.
- Apps.AppCommands.AddApplication: the result is always true. The program also writes the entry back to the configuration inside the same `try`. For a dotted name such as "node.js" while "node" is already a configured application, that write meets a string and raises, and the program returns False with the table already updated. The write-back is not modelled, because the table is not shared with the configuration here.
- Apps.AppCommands.RemoveApplication: the result is true exactly when the name was present. The program also clears the entry in the configuration inside the same `try`. For a dotted name such as "node.js" while "node" is a configured application, that write meets a string and raises, and the program returns False with the entry already deleted from the table. The write-back is not modelled, for the same reason as above.
