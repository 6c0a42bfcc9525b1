/** The configuration store: a nested map read and written by dot-separated
    key paths such as `llm.context_window`. Loading and saving the YAML
    file are not modelled; the store starts from the default
    configuration. */
module Configuration {
  import opened PyStr
  import opened Wrappers
  import opened OrderedDict

  /** A configuration value as YAML loads it. */
  datatype Json =
    | JNull
    | JBool(b: bool)
    | JInt(i: int)
    | JReal(x: real)
    | JStr(s: string)
    | JList(items: seq<Json>)
    | JMap(entries: Dict<string, Json>)

  /** The value at a key path: each segment must name an entry of a map. */
  function Lookup(v: Json, path: seq<string>): (r: Option<Json>)
    ensures path == [] ==> r == Some(v)
    decreases |path|
  {
    if path == [] then Some(v)
    else match v
      case JMap(m) =>
        (match Get(m, path[0])
         case Some(child) => Lookup(child, path[1..])
         case None => None)
      case _ => None
  }

  /** `Config.get(key, default)`. */
  function Resolve(data: Dict<string, Json>, key: string, default: Json): Json {
    match Lookup(JMap(data), Split(key, '.'))
    case Some(v) => v
    case None => default
  }

  /** `Config.set`'s walk: missing intermediate maps are created; an
      existing intermediate that is not a map makes the assignment fail
      (Python raises `TypeError` there), and then nothing has been changed,
      because maps are only created once the walk is past every existing
      entry. */
  function SetPath(m: Dict<string, Json>, path: seq<string>, v: Json): (r: Option<Dict<string, Json>>)
    requires |path| >= 1
    ensures r.Some? ==> Keys(r.value) == if path[0] in Keys(m) then Keys(m) else Keys(m) + [path[0]]
    ensures Get(m, path[0]).None? ==> r.Some?
    decreases |path|
  {
    if |path| == 1 then Some(Put(m, path[0], v))
    else match Get(m, path[0])
      case None => Some(Put(m, path[0], JMap(SetPath([], path[1..], v).value)))
      case Some(existing) =>
        if !existing.JMap? then None
        else match SetPath(existing.entries, path[1..], v)
          case Some(c) => Some(Put(m, path[0], JMap(c)))
          case None => None
  }

  /** The map the walk continues in below key `k`: the existing one, or a
      fresh empty one. */
  function ChildOf(m: Dict<string, Json>, k: string): Dict<string, Json> {
    if Get(m, k).Some? && Get(m, k).value.JMap? then Get(m, k).value.entries else []
  }

  /** One level of a successful walk: the rest of the path is set in the
      child map, and the result is stored back under the first segment. */
  lemma SetPathStep(m: Dict<string, Json>, path: seq<string>, v: Json)
    requires |path| >= 2 && SetPath(m, path, v).Some?
    ensures SetPath(ChildOf(m, path[0]), path[1..], v).Some?
    ensures SetPath(m, path, v).value == Put(m, path[0], JMap(SetPath(ChildOf(m, path[0]), path[1..], v).value))
  {
  }

  /** After a successful set the path reads back the value set. */
  lemma {:induction false} SetThenLookup(m: Dict<string, Json>, path: seq<string>, v: Json)
    requires |path| >= 1 && SetPath(m, path, v).Some?
    ensures Lookup(JMap(SetPath(m, path, v).value), path) == Some(v)
    decreases |path|
  {
    var k := path[0];
    var r := SetPath(m, path, v).value;
    if |path| == 1 {
      PutReads(m, k, v);
    } else {
      var child := ChildOf(m, k);
      SetPathStep(m, path, v);
      SetThenLookup(child, path[1..], v);
      PutReads(m, k, JMap(SetPath(child, path[1..], v).value));
    }
  }

  /** Two paths that part ways: at some position both have a segment and
      the segments differ. */
  predicate Diverge(p: seq<string>, q: seq<string>)
    decreases |p|
  {
    |p| > 0 && |q| > 0 && (p[0] != q[0] || Diverge(p[1..], q[1..]))
  }

  /** Looking anything up under a freshly created empty map finds nothing. */
  lemma LookupInEmpty(q: seq<string>)
    requires |q| > 0
    ensures Lookup(JMap([]), q) == None
  {
  }

  /** Every path that parts ways with the one set reads as before. */
  lemma {:induction false} SetLeavesOthers(m: Dict<string, Json>, path: seq<string>, v: Json, q: seq<string>)
    requires |path| >= 1 && SetPath(m, path, v).Some? && Diverge(path, q)
    ensures Lookup(JMap(SetPath(m, path, v).value), q) == Lookup(JMap(m), q)
    decreases |path|
  {
    var k := path[0];
    var r := SetPath(m, path, v).value;
    if |path| == 1 {
      PutReads(m, k, v);
    } else {
      var child := ChildOf(m, k);
      SetPathStep(m, path, v);
      var newChild := SetPath(child, path[1..], v).value;
      PutReads(m, k, JMap(newChild));
      if q[0] == k {
        assert Diverge(path[1..], q[1..]);
        SetLeavesOthers(child, path[1..], v, q[1..]);
        if Get(m, k).None? {
          LookupInEmpty(q[1..]);
        }
      }
    }
  }

  /** The walk fails exactly when a proper prefix of the path leads to an
      existing value that is not a map. */
  predicate Blocked(m: Dict<string, Json>, path: seq<string>) {
    exists i :: 1 <= i < |path| && Lookup(JMap(m), path[..i]).Some? && !Lookup(JMap(m), path[..i]).value.JMap?
  }

  lemma {:induction false} SetFailsIffBlocked(m: Dict<string, Json>, path: seq<string>, v: Json)
    requires |path| >= 1
    ensures SetPath(m, path, v).None? <==> Blocked(m, path)
    decreases |path|
  {
    var k := path[0];
    assert path[..1] == [k];
    if |path| > 1 {
      match Get(m, k)
      case None =>
        forall i | 1 <= i < |path|
          ensures Lookup(JMap(m), path[..i]) == None
        {
          assert path[..i][0] == k;
        }
      case Some(existing) =>
        if !existing.JMap? {
          assert Lookup(JMap(m), path[..1]) == Some(existing);
        } else {
          var child := existing.entries;
          SetFailsIffBlocked(child, path[1..], v);
          forall i | 1 <= i < |path|
            ensures Lookup(JMap(m), path[..i]) == Lookup(JMap(child), path[1..][..i - 1])
          {
            assert path[..i][0] == k && path[..i][1..] == path[1..][..i - 1];
          }
          if Blocked(child, path[1..]) {
            var i :| 1 <= i < |path[1..]| && Lookup(JMap(child), path[1..][..i]).Some? &&
                     !Lookup(JMap(child), path[1..][..i]).value.JMap?;
            assert Lookup(JMap(m), path[..i + 1]) == Lookup(JMap(child), path[1..][..i]);
          }
          if Blocked(m, path) {
            var i :| 1 <= i < |path| && Lookup(JMap(m), path[..i]).Some? && !Lookup(JMap(m), path[..i]).value.JMap?;
            assert i != 1;
            assert Lookup(JMap(child), path[1..][..i - 1]) == Lookup(JMap(m), path[..i]);
          }
        }
    }
  }

  /** A dotted key with no dot is a single segment. */
  lemma {:induction false} SplitWithoutSeparator(s: string, sep: char)
    requires sep !in s
    ensures Split(s, sep) == [s]
    decreases |s|
  {
    if |s| > 0 {
      SplitWithoutSeparator(s[1..], sep);
      assert [s[0]] + s[1..] == s;
    }
  }

  /** The seven configuration sections with getters. */
  datatype Section = Voice | Audio | Applications | WebServices | ApiKeys | Weather | Logging

  function SectionName(s: Section): (name: string)
    ensures '.' !in name && |name| > 0
  {
    match s
    case Voice => "voice"
    case Audio => "audio"
    case Applications => "applications"
    case WebServices => "web_services"
    case ApiKeys => "api_keys"
    case Weather => "weather"
    case Logging => "logging"
  }

  /** `_get_default_config`. */
  function DefaultConfig(): Dict<string, Json> {
    [("voice", JMap([
        ("language", JStr("th-TH")),
        ("tts_language", JStr("th")),
        ("speech_rate", JReal(1.0)),
        ("volume", JReal(1.0)),
        ("wake_word", JStr("ยูกิ")),
        ("alternative_wake_words", JList([JStr("yuki"), JStr("ยูกิ")]))])),
     ("audio", JMap([
        ("sample_rate", JInt(16000)),
        ("chunk_size", JInt(1024)),
        ("format", JStr("mp3")),
        ("output_directory", JStr("output")),
        ("signal_sound", JStr("assets/audio/signal.mp3")),
        ("error_sound", JStr("assets/audio/error.mp3"))])),
     ("applications", JMap([])),
     ("web_services", JMap([
        ("google", JStr("https://www.google.com")),
        ("youtube", JStr("https://www.youtube.com")),
        ("facebook", JStr("https://www.facebook.com")),
        ("instagram", JStr("https://www.instagram.com"))])),
     ("api_keys", JMap([])),
     ("weather", JMap([
        ("default_location", JStr("Thailand")),
        ("units", JStr("metric"))])),
     ("logging", JMap([
        ("level", JStr("INFO")),
        ("format", JStr("%(asctime)s - %(name)s - %(levelname)s - %(message)s")),
        ("file", JStr("logs/yuki_ai.log"))]))]
  }

  class Config {
    /** `self._config`. */
    var data: Dict<string, Json>

    /** Start from the default configuration, as `load_config` does when
        no file exists. */
    constructor()
      ensures data == DefaultConfig()
    {
      data := DefaultConfig();
    }

    /** `get`: walk the segments through nested maps, giving up with the
        default at the first missing segment or non-map value. */
    method Get(key: string, default: Json) returns (v: Json)
      ensures v == Resolve(data, key, default)
    {
      var path := Split(key, '.');
      var current := JMap(data);
      var i := 0;
      while i < |path|
        invariant 0 <= i <= |path|
        invariant Lookup(JMap(data), path) == Lookup(current, path[i..])
      {
        if current.JMap? && OrderedDict.Get(current.entries, path[i]).Some? {
          assert path[i..][1..] == path[i + 1..];
          current := OrderedDict.Get(current.entries, path[i]).value;
          i := i + 1;
        } else {
          return default;
        }
      }
      return current;
    }

    /** `set`: assign at the key path, creating missing maps on the way.
        `ok` is false where Python raises, and then nothing changes. */
    method Set(key: string, value: Json) returns (ok: bool)
      modifies this
      ensures ok <==> SetPath(old(data), Split(key, '.'), value).Some?
      ensures ok <==> !Blocked(old(data), Split(key, '.'))
      ensures ok ==> data == SetPath(old(data), Split(key, '.'), value).value
      ensures !ok ==> data == old(data)
    {
      var path := Split(key, '.');
      SetFailsIffBlocked(data, path, value);
      match SetPath(data, path, value)
      case Some(d) =>
        data := d;
        ok := true;
      case None =>
        ok := false;
    }

    /** The section getters: `get(<section>, {})`. */
    method GetSection(s: Section) returns (v: Json)
      ensures SectionName(s) !in Keys(data) ==> v == JMap([])
      ensures SectionName(s) in Keys(data) ==> v == OrderedDict.Get(data, SectionName(s)).value
    {
      SplitWithoutSeparator(SectionName(s), '.');
      v := Get(SectionName(s), JMap([]));
    }
  }

  /** After `set(key, v)` succeeds, `get(key, d)` gives `v`. */
  lemma GetAfterSet(data: Dict<string, Json>, key: string, v: Json, default: Json)
    requires SetPath(data, Split(key, '.'), v).Some?
    ensures Resolve(SetPath(data, Split(key, '.'), v).value, key, default) == v
  {
    SetThenLookup(data, Split(key, '.'), v);
  }

  /** Splitting at the first separator. */
  lemma {:induction false} SplitAtFirst(a: string, sep: char, b: string)
    requires sep !in a
    ensures Split(a + [sep] + b, sep) == [a] + Split(b, sep)
    decreases |a|
  {
    if |a| == 0 {
      assert a + [sep] + b == [sep] + b;
    } else {
      var s := a + [sep] + b;
      SplitAtFirst(a[1..], sep, b);
      assert s[0] == a[0] != sep;
      assert s[1..] == a[1..] + [sep] + b;
      var rest := Split(s[1..], sep);
      assert rest[0] == a[1..] && rest[1..] == Split(b, sep);
      assert [s[0]] + rest[0] == a;
    }
  }

  lemma NonExistentPath(key: string, first: string, rest: string)
    requires key == "non.existent" && first == "non" && rest == "existent"
    ensures Split(key, '.') == [first, rest]
  {
    NonExistentJoined(key, first, rest);
    SplitAtFirst(first, '.', rest);
    SplitWithoutSeparator(rest, '.');
  }

  lemma NonExistentJoined(key: string, a: string, b: string)
    requires key == "non.existent" && a == "non" && b == "existent"
    ensures key == a + ['.'] + b
  {
  }

  lemma DefaultSectionNames()
    ensures Keys(DefaultConfig()) ==
              ["voice", "audio", "applications", "web_services", "api_keys", "weather", "logging"]
  {
  }

  /** `get('non.existent', 'default')` on the default configuration gives
      the default. */
  lemma MissingKeyGivesDefault(key: string, default: Json)
    requires key == "non.existent"
    ensures Resolve(DefaultConfig(), key, default) == default
  {
    NonExistentPath(key, "non", "existent");
    DefaultSectionNames();
    assert "non" !in Keys(DefaultConfig());
    ResolveMissing(DefaultConfig(), key, default, ["non", "existent"]);
  }

  /** A key whose first segment names no section resolves to the default. */
  lemma ResolveMissing(data: Dict<string, Json>, key: string, default: Json, path: seq<string>)
    requires Split(key, '.') == path && |path| > 0 && path[0] !in Keys(data)
    ensures Resolve(data, key, default) == default
  {
  }

  function DefaultVoiceEntries(): Dict<string, Json> {
    DefaultConfig()[0].1.entries
  }

  lemma DefaultVoiceSection()
    ensures Lookup(JMap(DefaultConfig()), ["voice"]) == Some(JMap(DefaultVoiceEntries()))
  {
    IndexOfFirst(DefaultConfig(), "voice", 0);
  }

  /** A setting of the voice section, read through the whole store. */
  lemma VoiceSetting(name: string, v: Json)
    requires Get(DefaultVoiceEntries(), name) == Some(v)
    ensures Lookup(JMap(DefaultConfig()), ["voice", name]) == Some(v)
  {
    DefaultVoiceSection();
    LookupTwoLevels(DefaultConfig(), "voice", DefaultVoiceEntries(), name, v);
  }

  /** A setting read through its section. */
  lemma LookupTwoLevels(d: Dict<string, Json>, section: string, entries: Dict<string, Json>, name: string, v: Json)
    requires Get(d, section) == Some(JMap(entries)) && Get(entries, name) == Some(v)
    ensures Lookup(JMap(d), [section, name]) == Some(v)
  {
    assert [section, name][1..] == [name];
  }

  lemma DefaultLanguage()
    ensures Get(DefaultVoiceEntries(), "language") == Some(JStr("th-TH"))
  {
    IndexOfFirst(DefaultVoiceEntries(), "language", 0);
  }

  lemma DefaultWakeWord()
    ensures Get(DefaultVoiceEntries(), "wake_word") == Some(JStr("ยูกิ"))
  {
    IndexOfFirst(DefaultVoiceEntries(), "wake_word", 4);
  }

  lemma DefaultAlternatives()
    ensures Get(DefaultVoiceEntries(), "alternative_wake_words") == Some(JList([JStr("yuki"), JStr("ยูกิ")]))
  {
    IndexOfFirst(DefaultVoiceEntries(), "alternative_wake_words", 5);
  }

  /** The default voice settings: Thai, woken by "ยูกิ" or "yuki". */
  lemma DefaultVoice()
    ensures Lookup(JMap(DefaultConfig()), ["voice", "language"]) == Some(JStr("th-TH"))
    ensures Lookup(JMap(DefaultConfig()), ["voice", "wake_word"]) == Some(JStr("ยูกิ"))
    ensures Lookup(JMap(DefaultConfig()), ["voice", "alternative_wake_words"]) ==
              Some(JList([JStr("yuki"), JStr("ยูกิ")]))
  {
    DefaultLanguage();
    VoiceSetting("language", JStr("th-TH"));
    DefaultWakeWord();
    VoiceSetting("wake_word", JStr("ยูกิ"));
    DefaultAlternatives();
    VoiceSetting("alternative_wake_words", JList([JStr("yuki"), JStr("ยูกิ")]));
  }

}
