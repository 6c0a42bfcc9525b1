/** Application commands: an ordered table from application name to
    executable path, consulted by name, then through an alias table, then
    through fixed groups of well-known applications; plus adding and
    removing entries. */
module Apps {
  import opened PyStr
  import opened Wrappers
  import opened Triggers
  import opened OrderedDict
  import opened Outcomes

  /** Well-known applications and the phrases that name them, in table
      order. */
  const CommonApps: seq<(string, seq<string>)> := [
    ("vscode", ["vscode", "vs code", "visual studio code", "code editor"]),
    ("chrome", ["chrome", "google chrome", "browser"]),
    ("safari", ["safari", "apple browser"]),
    ("firefox", ["firefox", "mozilla"]),
    ("terminal", ["terminal", "command line", "cmd"]),
    ("calculator", ["calculator", "calc", "เครื่องคิดเลข"]),
    ("calendar", ["calendar", "ปฏิทิน"]),
    ("mail", ["mail", "email", "อีเมล"]),
    ("spotify", ["spotify", "music player", "เพลง"]),
    ("discord", ["discord", "chat"]),
    ("slack", ["slack", "team chat"]),
    ("zoom", ["zoom", "video call", "meeting"]),
    ("teams", ["teams", "microsoft teams"]),
    ("photoshop", ["photoshop", "adobe photoshop", "photo editor"]),
    ("premiere", ["premiere", "adobe premiere", "video editor"]),
    ("illustrator", ["illustrator", "adobe illustrator", "vector editor"]),
    ("figma", ["figma", "design tool"]),
    ("canva", ["canva", "design"]),
    ("steam", ["steam", "game launcher"]),
    ("minecraft", ["minecraft", "game"]),
    ("obs", ["obs", "streaming", "recording"]),
    ("vlc", ["vlc", "media player", "video player"]),
    ("itunes", ["itunes", "music", "apple music"])
  ]

  /** `_get_app_aliases`: alias to application name, in table order. */
  const AppAliases: Dict<string, string> := [
    ("code", "vscode"), ("editor", "vscode"),
    ("browser", "chrome"), ("web browser", "chrome"),
    ("music", "spotify"), ("player", "spotify"),
    ("chat", "discord"), ("messaging", "discord"),
    ("video", "vlc"), ("media", "vlc"),
    ("photo", "photoshop"), ("image", "photoshop"),
    ("video editor", "premiere"), ("design", "figma"),
    ("game", "steam"), ("stream", "obs"), ("record", "obs")
  ]

  const NotUnderstood: string := "ไม่เข้าใจคำสั่งเปิดแอปพลิเคชันค่ะ กรุณาลองใหม่อีกครั้ง"

  function Opened(name: string): string { "เปิด " + name + " แล้วค่ะ" }
  function NotFound(name: string): string { "ไม่พบ " + name + " ในระบบค่ะ" }

  // ---------------------------------------------------------------------
  // Matching by name

  /** The nine phrasings that name a configured application: four with the
      name as configured, five with it lower-cased. */
  function AppPatterns(name: string): (ps: seq<string>)
    ensures |ps| == 9
  {
    ["เปิดแอป " + name, "open app " + name, "เปิดแอปพลิเคชัน " + name, "open application " + name,
     "เปิดแอป " + Lower(name), "open app " + Lower(name), "เปิดแอปพลิเคชัน " + Lower(name),
     "เปิด application " + Lower(name), "open application " + Lower(name)]
  }

  /** `_matches_app`. */
  predicate MatchesApp(command: string, name: string) {
    AnyIn(command, AppPatterns(name))
  }

  /** A substring of a lower-case string is lower-case. */
  lemma {:induction false} LowerSubstring(s: string, p: string)
    requires IsLower(s) && Contains(s, p)
    ensures IsLower(p)
  {
    var i := Find(s, p);
    forall j | 0 <= j < |p| ensures !IsUpper(p[j]) {
      assert p[j] == s[i + j];
    }
  }

  /** On a lower-cased command the four phrasings with the configured name
      add nothing: one of them can occur only when the name is already
      lower-case, and then it equals its lower-cased twin. */
  lemma MatchesAppLowered(command: string, name: string)
    ensures MatchesApp(Lower(command), name) <==> AnyIn(Lower(command), AppPatterns(name)[4..])
  {
    var lower := Lower(command);
    var ps := AppPatterns(name);
    var tail := ps[4..];
    AnyInIff(lower, ps);
    AnyInIff(lower, tail);
    if MatchesApp(lower, name) {
      var k :| 0 <= k < 9 && Contains(lower, ps[k]);
      if k < 4 {
        var lead := ["เปิดแอป ", "open app ", "เปิดแอปพลิเคชัน ", "open application "][k];
        assert ps[k] == lead + name;
        LowerSubstring(lower, ps[k]);
        assert IsLower(name) by {
          forall j | 0 <= j < |name| ensures !IsUpper(name[j]) {
            assert name[j] == ps[k][|lead| + j];
          }
        }
        LowerOfLower(name);
        var twin := [0, 1, 2, 4][k];
        assert tail[twin] == ps[k];
      } else {
        assert tail[k - 4] == ps[k];
      }
    }
    if AnyIn(lower, tail) {
      var k :| 0 <= k < 5 && Contains(lower, tail[k]);
      assert ps[k + 4] == tail[k];
    }
  }

  /** Position of the first configured application, in table order, that
      the command names. */
  function FirstApp(apps: Dict<string, string>, command: string): (r: Option<nat>)
    ensures r.None? <==> forall k :: 0 <= k < |apps| ==> !MatchesApp(command, apps[k].0)
    ensures r.Some? ==> r.value < |apps| && MatchesApp(command, apps[r.value].0)
    ensures r.Some? ==> forall k :: 0 <= k < r.value ==> !MatchesApp(command, apps[k].0)
    decreases |apps|
  {
    if |apps| == 0 then None
    else if MatchesApp(command, apps[0].0) then Some(0)
    else match FirstApp(apps[1..], command)
      case None =>
        assert forall k :: 1 <= k < |apps| ==> apps[k] == apps[1..][k - 1];
        None
      case Some(k) =>
        assert forall j :: 1 <= j < k + 1 ==> apps[j] == apps[1..][j - 1];
        Some(k + 1)
  }

  /** `if app_path:` on a configured path. */
  predicate Configured(apps: Dict<string, string>, name: string) {
    Get(apps, name).Some? && Get(apps, name).value != []
  }

  /** An alias fires when it occurs in the command and its application has
      a configured path. */
  predicate AliasFires(apps: Dict<string, string>, command: string, k: nat)
    requires k < |AppAliases|
  {
    Contains(command, AppAliases[k].0) && Configured(apps, AppAliases[k].1)
  }

  /** Position of the first alias, from `k` on, that fires. */
  function FirstAlias(apps: Dict<string, string>, command: string, k: nat): (r: Option<nat>)
    requires k <= |AppAliases|
    ensures r.None? <==> forall j :: k <= j < |AppAliases| ==> !AliasFires(apps, command, j)
    ensures r.Some? ==> k <= r.value < |AppAliases| && AliasFires(apps, command, r.value)
    ensures r.Some? ==> forall j :: k <= j < r.value ==> !AliasFires(apps, command, j)
    decreases |AppAliases| - k
  {
    if k == |AppAliases| then None
    else if AliasFires(apps, command, k) then Some(k)
    else FirstAlias(apps, command, k + 1)
  }

  // ---------------------------------------------------------------------
  // Opening

  /** Every program a reply launches or opens exists in the world, and it
      requests at most one. */
  predicate Grounded(world: World, r: Reply) {
    |r.effects| <= 1 &&
    (|r.effects| == 1 ==>
       match r.effects[0]
       case Launch(p) => world.pathExists(p)
       case Run(argv) => |argv| == 2 && argv[0] == "open" && world.pathExists(argv[1])
       case _ => false)
  }

  /** The Windows install locations tried, in order. */
  function WindowsCandidates(world: World, name: string): seq<string> {
    ["C:\\Program Files\\" + name + "\\" + name + ".exe",
     "C:\\Program Files (x86)\\" + name + "\\" + name + ".exe",
     "C:\\Users\\" + world.userName + "\\AppData\\Local\\Programs\\" + name + "\\" + name + ".exe"]
  }

  /** The first existing candidate path, if any. */
  function FirstExisting(world: World, paths: seq<string>): (r: Option<nat>)
    ensures r.None? <==> forall k :: 0 <= k < |paths| ==> !world.pathExists(paths[k])
    ensures r.Some? ==> r.value < |paths| && world.pathExists(paths[r.value])
    ensures r.Some? ==> forall k :: 0 <= k < r.value ==> !world.pathExists(paths[k])
    decreases |paths|
  {
    if |paths| == 0 then None
    else if world.pathExists(paths[0]) then Some(0)
    else match FirstExisting(world, paths[1..])
      case None =>
        assert forall k :: 1 <= k < |paths| ==> paths[k] == paths[1..][k - 1];
        None
      case Some(k) =>
        assert forall j :: 1 <= j < k + 1 ==> paths[j] == paths[1..][j - 1];
        Some(k + 1)
  }

  /** `_try_alternative_open`: on macOS the bundle `/Applications/<name>.app`,
      then the same with spaces removed, opened with `open`; on Windows the
      first existing install location, launched; "not found" otherwise. */
  function AlternativeOpen(world: World, name: string): (r: Reply)
    ensures Grounded(world, r)
    ensures r.effects == [] <==> r == Say(NotFound(name))
    ensures world.platform == OtherOS ==> r == Say(NotFound(name))
  {
    match world.platform
    case MacOS =>
      var bundle := "/Applications/" + name + ".app";
      var squeezed := "/Applications/" + ReplaceAll(name, " ", "") + ".app";
      if world.pathExists(bundle) then Reply(Opened(name), [Run(["open", bundle])])
      else if world.pathExists(squeezed) then Reply(Opened(name), [Run(["open", squeezed])])
      else Say(NotFound(name))
    case Windows =>
      var paths := WindowsCandidates(world, name);
      (match FirstExisting(world, paths)
       case Some(k) => Reply(Opened(name), [Launch(paths[k])])
       case None => Say(NotFound(name)))
    case OtherOS => Say(NotFound(name))
  }

  /** `_open_application`: launch the configured path when it exists, try
      the alternatives otherwise. */
  function OpenApplication(world: World, name: string, path: string): (r: Reply)
    ensures Grounded(world, r)
    ensures world.pathExists(path) ==> r == Reply(Opened(name), [Launch(path)])
    ensures !world.pathExists(path) ==> r == AlternativeOpen(world, name)
  {
    if world.pathExists(path) then Reply(Opened(name), [Launch(path)])
    else AlternativeOpen(world, name)
  }

  /** The common-app groups' phrase lists. */
  function GroupPhrases(): (gs: seq<seq<string>>)
    ensures |gs| == |CommonApps|
    ensures forall k :: 0 <= k < |gs| ==> gs[k] == CommonApps[k].1
  {
    seq(|CommonApps|, k requires 0 <= k < |CommonApps| => CommonApps[k].1)
  }

  /** Open a well-known application: its configured path if it has one,
      the alternatives otherwise. */
  function OpenCommon(apps: Dict<string, string>, world: World, name: string): (r: Reply)
    ensures Grounded(world, r)
    ensures !Configured(apps, name) ==> r == AlternativeOpen(world, name)
  {
    if Configured(apps, name) then OpenApplication(world, name, Get(apps, name).value)
    else AlternativeOpen(world, name)
  }

  /** `_handle_common_apps`: the first group, in table order, with a phrase
      in the lower-cased command decides; later groups are never tried. */
  function HandleCommonApps(apps: Dict<string, string>, world: World, command: string): (r: Reply)
    ensures Grounded(world, r)
    ensures (forall k :: 0 <= k < |CommonApps| ==> !AnyIn(Lower(command), CommonApps[k].1)) ==>
              r == Say(NotUnderstood)
    ensures forall k :: (0 <= k < |CommonApps| && AnyIn(Lower(command), CommonApps[k].1) &&
                         (forall j :: 0 <= j < k ==> !AnyIn(Lower(command), CommonApps[j].1))) ==>
              r == OpenCommon(apps, world, CommonApps[k].0)
  {
    var gs := GroupPhrases();
    match FirstGroup(Lower(command), gs)
    case None => Say(NotUnderstood)
    case Some(k) =>
      assert forall j :: (0 <= j < |CommonApps| && AnyIn(Lower(command), CommonApps[j].1) &&
                          (forall i :: 0 <= i < j ==> !AnyIn(Lower(command), CommonApps[i].1))) ==> j == k by {
        forall j | 0 <= j < |CommonApps| && AnyIn(Lower(command), CommonApps[j].1) &&
                   (forall i :: 0 <= i < j ==> !AnyIn(Lower(command), CommonApps[i].1))
          ensures j == k
        {
          assert gs[j] == CommonApps[j].1 && gs[k] == CommonApps[k].1;
        }
      }
      OpenCommon(apps, world, CommonApps[k].0)
  }

  // ---------------------------------------------------------------------
  // process_command

  /** `process_command` over the table `applications`: a configured
      application named by one of its phrasings, else a firing alias, else
      the common-app groups. */
  function ProcessCommand(applications: Dict<string, string>, world: World, command: string): (r: Reply)
    ensures Grounded(world, r) || r == Say(NotUnderstood)
    ensures FirstApp(applications, Lower(command)).Some? ==>
              var k := FirstApp(applications, Lower(command)).value;
              r == OpenApplication(world, applications[k].0, applications[k].1)
    ensures (FirstApp(applications, Lower(command)).None? &&
             FirstAlias(applications, Lower(command), 0).Some?) ==>
              var k := FirstAlias(applications, Lower(command), 0).value;
              r == OpenApplication(world, AppAliases[k].1, Get(applications, AppAliases[k].1).value)
    ensures (FirstApp(applications, Lower(command)).None? &&
             FirstAlias(applications, Lower(command), 0).None?) ==>
              r == HandleCommonApps(applications, world, command)
  {
    var lower := Lower(command);
    match FirstApp(applications, lower)
    case Some(k) => OpenApplication(world, applications[k].0, applications[k].1)
    case None =>
      match FirstAlias(applications, lower, 0)
      case Some(k) =>
        OpenApplication(world, AppAliases[k].1, Get(applications, AppAliases[k].1).value)
      case None => HandleCommonApps(applications, world, command)
  }

  // ---------------------------------------------------------------------
  // The application table

  class AppCommands {
    /** `self.applications`: name to executable path, in insertion order. */
    var applications: Dict<string, string>

    /** No name is listed twice. */
    predicate Valid()
      reads this
    {
      OrderedDict.Valid(applications)
    }

    constructor(applications: Dict<string, string>)
      requires OrderedDict.Valid(applications)
      ensures Valid() && this.applications == applications
    {
      this.applications := applications;
    }

    /** `list_available_apps`: the configured names, in insertion order. */
    function ListAvailableApps(): (names: seq<string>)
      reads this
      ensures |names| == |applications|
      ensures forall k :: 0 <= k < |names| ==> names[k] == applications[k].0
      ensures forall name :: name in names <==> Get(applications, name).Some?
    {
      Keys(applications)
    }

    /** `add_application`: `applications[name] = path`, reported as done. */
    method AddApplication(name: string, path: string) returns (ok: bool)
      requires Valid()
      modifies this
      ensures Valid() && ok
      ensures applications == Put(old(applications), name, path)
    {
      PutSpec(applications, name, path);
      applications := Put(applications, name, path);
      ok := true;
    }

    /** `remove_application`: deletes a present name and reports whether it
        was present. */
    method RemoveApplication(name: string) returns (ok: bool)
      requires Valid()
      modifies this
      ensures Valid()
      ensures ok <==> name in Keys(old(applications))
      ensures applications == Remove(old(applications), name)
    {
      RemoveSpec(applications, name);
      ok := name in Keys(applications);
      applications := Remove(applications, name);
    }
  }

  /** With an empty table neither a name nor an alias can fire, so only the
      common-app groups answer. */
  lemma EmptyTableUsesCommonApps(world: World, command: string)
    ensures ProcessCommand([], world, command) == HandleCommonApps([], world, command)
  {
    assert forall k :: 0 <= k < |AppAliases| ==> !Configured([], AppAliases[k].1);
  }

  /** After adding a name, listing shows it and reading it gives the path;
      every other entry reads as before. */
  lemma AddThenList(apps: Dict<string, string>, name: string, path: string)
    requires OrderedDict.Valid(apps)
    ensures name in Keys(Put(apps, name, path))
    ensures Get(Put(apps, name, path), name) == Some(path)
    ensures forall other :: other != name ==> Get(Put(apps, name, path), other) == Get(apps, other)
  {
    PutSpec(apps, name, path);
  }

  /** After removing a name it is no longer listed, and removing it again
      reports failure and changes nothing. */
  lemma RemoveTwice(apps: Dict<string, string>, name: string)
    requires OrderedDict.Valid(apps)
    ensures name !in Keys(Remove(apps, name))
    ensures Remove(Remove(apps, name), name) == Remove(apps, name)
  {
    RemoveSpec(apps, name);
  }
}
