/** Web commands: open a configured service, run a search on a chosen engine,
    or open a website named after "open website"; tried in that order. */
module WebCommands {
  import opened PyStr
  import opened Wrappers
  import opened Triggers
  import opened OrderedDict
  import opened Helpers
  import opened Outcomes

  /** The search engines and their base URLs, in table order. */
  const SearchEngines: Dict<string, string> := [
    ("google", "https://www.google.com"),
    ("youtube", "https://www.youtube.com"),
    ("bing", "https://www.bing.com"),
    ("duckduckgo", "https://duckduckgo.com")
  ]

  const NotUnderstood: string := "ไม่เข้าใจคำสั่งเว็บค่ะ กรุณาลองใหม่อีกครั้ง"
  const AskForQuery: string := "กรุณาระบุสิ่งที่ต้องการค้นหาค่ะ"
  const AskForSite: string := "กรุณาระบุชื่อเว็บไซต์ที่ต้องการเปิดค่ะ"

  // ---------------------------------------------------------------------
  // Configured services

  /** The six phrasings that name a configured service. */
  function ServicePatterns(name: string): (ps: seq<string>)
    ensures |ps| == 6
  {
    ["เปิดเว็บ " + name, "open website " + name, "เปิดเว็บไซต์ " + name,
     "open site " + name, "เข้าเว็บ " + name, "เข้าเว็บไซต์ " + name]
  }

  /** `_matches_service`: one of the six phrasings occurs in the command. */
  predicate MatchesService(command: string, name: string) {
    AnyIn(command, ServicePatterns(name))
  }

  /** Every phrasing ends with a space and the service name, so a matched
      service is always named in the command after a space. */
  lemma MatchesServiceNamesIt(command: string, name: string)
    requires MatchesService(command, name)
    ensures Contains(command, " " + name)
  {
    var ps := ServicePatterns(name);
    AnyInIff(command, ps);
    var k :| 0 <= k < 6 && Contains(command, ps[k]);
    var lead := ["เปิดเว็บ", "open website", "เปิดเว็บไซต์", "open site", "เข้าเว็บ", "เข้าเว็บไซต์"][k];
    assert ps[k] == lead + (" " + name);
    ContainsInSuffix(ps[k], |lead|, " " + name);
    assert ps[k][|lead|..] == " " + name;
    ContainsTransitive(command, ps[k], " " + name);
  }

  /** Position of the first configured service, in table order, whose
      phrasing occurs in the command. */
  function FirstService(services: Dict<string, string>, command: string): (r: Option<nat>)
    ensures r.None? <==> forall k :: 0 <= k < |services| ==> !MatchesService(command, services[k].0)
    ensures r.Some? ==> r.value < |services| && MatchesService(command, services[r.value].0)
    ensures r.Some? ==> forall k :: 0 <= k < r.value ==> !MatchesService(command, services[k].0)
    decreases |services|
  {
    if |services| == 0 then None
    else if MatchesService(command, services[0].0) then Some(0)
    else match FirstService(services[1..], command)
      case None =>
        assert forall k :: 1 <= k < |services| ==> services[k] == services[1..][k - 1];
        None
      case Some(k) =>
        assert forall j :: 1 <= j < k + 1 ==> services[j] == services[1..][j - 1];
        Some(k + 1)
  }

  // ---------------------------------------------------------------------
  // Search

  const SearchCommandTriggers: seq<string> := [
    "ค้นหา", "search", "เสิร์ช", "หา",
    "google search", "youtube search",
    "ค้นหาใน google", "ค้นหาใน youtube"
  ]

  /** The triggers removed from a search command to leave the query. */
  const SearchQueryTriggers: seq<string> := ["ค้นหา", "search", "เสิร์ช", "หา"]

  /** `_is_search_command`. */
  predicate IsSearchCommand(command: string) {
    AnyIn(command, SearchCommandTriggers)
  }

  /** Where a shorter search trigger sits inside a longer one. */
  lemma SearchTriggerInside(t: string, p: string, i: nat)
    requires (t, p, i) in {("ค้นหา", "หา", 3), ("ค้นหาใน google", "หา", 3), ("ค้นหาใน youtube", "หา", 3),
                            ("google search", "search", 7), ("youtube search", "search", 8)}
    ensures Contains(t, p)
  {
    if p == "หา" {
      assert t[3] == p[0] && t[4] == p[1];
      assert t[3..5] == p;
    } else if i == 7 {
      assert t[7..13] == p;
    } else {
      assert t[8..14] == p;
    }
    ContainsAt(t, p, i);
  }

  /** Three of the eight search triggers decide the test: "ค้นหา" and the
      two "ค้นหาใน" forms contain "หา", the two English forms contain
      "search". */
  lemma SearchCommandCore(command: string)
    ensures IsSearchCommand(command) <==> AnyIn(command, ["search", "เสิร์ช", "หา"])
  {
    var core := ["search", "เสิร์ช", "หา"];
    AnyInIff(command, SearchCommandTriggers);
    AnyInIff(command, core);
    if IsSearchCommand(command) {
      var k :| 0 <= k < 8 && Contains(command, SearchCommandTriggers[k]);
      var t := SearchCommandTriggers[k];
      if k == 0 || k == 6 || k == 7 {
        SearchTriggerInside(t, "หา", 3);
        ContainsTransitive(command, t, "หา");
        assert Contains(command, core[2]);
      } else if k == 4 {
        SearchTriggerInside(t, "search", 7);
        ContainsTransitive(command, t, "search");
        assert Contains(command, core[0]);
      } else if k == 5 {
        SearchTriggerInside(t, "search", 8);
        ContainsTransitive(command, t, "search");
        assert Contains(command, core[0]);
      } else {
        assert Contains(command, core[k - 1]);
      }
    }
    if AnyIn(command, core) {
      var k :| 0 <= k < 3 && Contains(command, core[k]);
      assert Contains(command, SearchCommandTriggers[k + 1]);
    }
  }

  /** `_determine_search_engine`: youtube, then bing, then duckduckgo, by
      mention in the lower-cased command; google otherwise. */
  function SearchEngineFor(command: string): (engine: string)
    ensures engine in Keys(SearchEngines)
    ensures engine == "youtube" <==> Contains(Lower(command), "youtube")
    ensures engine == "google" <==>
              !Contains(Lower(command), "youtube") && !Contains(Lower(command), "bing") &&
              !Contains(Lower(command), "duckduckgo")
  {
    var lower := Lower(command);
    assert Keys(SearchEngines) == ["google", "youtube", "bing", "duckduckgo"];
    if Contains(lower, "youtube") then "youtube"
    else if Contains(lower, "bing") then "bing"
    else if Contains(lower, "duckduckgo") then "duckduckgo"
    else "google"
  }

  /** `_handle_search`: no query means the prompt and nothing opened;
      otherwise one search URL on the chosen engine's base, ending in the
      query. */
  function HandleSearch(command: string): (r: Reply)
    ensures ExtractQuery(command, SearchQueryTriggers) == [] ==> r == Say(AskForQuery)
    ensures ExtractQuery(command, SearchQueryTriggers) != [] ==>
              |r.effects| == 1 && r.effects[0].OpenUrl? &&
              StartsWith(r.effects[0].url, Get(SearchEngines, SearchEngineFor(command)).value) &&
              EndsWith(r.effects[0].url, ExtractQuery(command, SearchQueryTriggers))
  {
    var query := ExtractQuery(command, SearchQueryTriggers);
    if query == [] then Say(AskForQuery)
    else
      var engine := SearchEngineFor(command);
      var url := CreateSearchUrl(Get(SearchEngines, engine).value, query);
      Reply("ค้นหา '" + query + "' ใน " + engine + " แล้วค่ะ", [OpenUrl(url)])
  }

  // ---------------------------------------------------------------------
  // "open website <name>"

  /** Regular-expression patterns `<lead> (.+)`, as their literal leads. */
  const WebsiteLeads: seq<string> := ["เปิดเว็บ ", "open website ", "เข้าเว็บ "]

  /** Where the line starting at `j` ends: the first `'\n'` at or after `j`,
      or the end of `s`. */
  function LineEnd(s: string, j: nat): (k: nat)
    requires j <= |s|
    ensures j <= k <= |s|
    ensures forall i :: j <= i < k ==> s[i] != '\n'
    ensures k == |s| || s[k] == '\n'
    decreases |s| - j
  {
    if j == |s| || s[j] == '\n' then j else LineEnd(s, j + 1)
  }

  /** `lead` occurs at `k` and is followed by a character `.` matches. */
  predicate CapturesAt(s: string, lead: string, k: nat) {
    k + |lead| < |s| && OccursAt(s, lead, k) && s[k + |lead|] != '\n'
  }

  /** `re.search(lead + "(.+)", s).group(1)` for a literal `lead`, searching
      from `i`: the leftmost occurrence of `lead` followed by a non-newline
      character; the group runs to the end of that line. */
  function CaptureFrom(s: string, lead: string, i: nat): (r: Option<string>)
    ensures r.None? <==> forall k :: i <= k ==> !CapturesAt(s, lead, k)
    ensures r.Some? ==> |r.value| > 0 && '\n' !in r.value && Contains(s, lead + r.value)
    decreases |s| - i
  {
    if i + |lead| < |s| && MatchFrom(s, lead, i, 0) && s[i + |lead|] != '\n' then
      MatchFromIff(s, lead, i, 0);
      assert lead[0..] == lead;
      var e := LineEnd(s, i + |lead|);
      var g := s[i + |lead|..e];
      assert s[i..i + |lead + g|] == lead + g;
      assert CapturesAt(s, lead, i);
      ContainsAt(s, lead + g, i);
      Some(g)
    else if i < |s| then
      assert !CapturesAt(s, lead, i) by {
        if i + |lead| < |s| {
          MatchFromIff(s, lead, i, 0);
          assert lead[0..] == lead;
        }
      }
      CaptureFrom(s, lead, i + 1)
    else None
  }

  /** `_is_website_pattern`. */
  predicate IsWebsitePattern(command: string) {
    exists k :: 0 <= k < |WebsiteLeads| && CaptureFrom(command, WebsiteLeads[k], 0).Some?
  }

  /** The group of the first lead, in list order, that matches. */
  function FirstCapture(command: string, leads: seq<string>): (r: Option<string>)
    ensures r.None? <==> forall k :: 0 <= k < |leads| ==> CaptureFrom(command, leads[k], 0).None?
    ensures r.Some? ==>
              exists k :: 0 <= k < |leads| && r == CaptureFrom(command, leads[k], 0) &&
                forall j :: 0 <= j < k ==> CaptureFrom(command, leads[j], 0).None?
    decreases |leads|
  {
    if |leads| == 0 then None
    else if CaptureFrom(command, leads[0], 0).Some? then CaptureFrom(command, leads[0], 0)
    else
      var r := FirstCapture(command, leads[1..]);
      assert forall k :: 1 <= k < |leads| ==> leads[k] == leads[1..][k - 1];
      FirstLeadSkipped(command, leads, r);
      r
  }

  /** A group found among the leads after a first one that does not match
      is the group of the first matching lead of the whole list. */
  lemma FirstLeadSkipped(command: string, leads: seq<string>, r: Option<string>)
    requires |leads| > 0 && CaptureFrom(command, leads[0], 0).None?
    requires r.Some? ==>
               exists k :: 0 <= k < |leads[1..]| && r == CaptureFrom(command, leads[1..][k], 0) &&
                 forall j :: 0 <= j < k ==> CaptureFrom(command, leads[1..][j], 0).None?
    ensures r.Some? ==>
              exists k :: 0 <= k < |leads| && r == CaptureFrom(command, leads[k], 0) &&
                forall j :: 0 <= j < k ==> CaptureFrom(command, leads[j], 0).None?
  {
    if r.Some? {
      var k :| 0 <= k < |leads[1..]| && r == CaptureFrom(command, leads[1..][k], 0) &&
               forall j :: 0 <= j < k ==> CaptureFrom(command, leads[1..][j], 0).None?;
      assert leads[k + 1] == leads[1..][k];
      assert forall j :: 1 <= j < k + 1 ==> leads[j] == leads[1..][j - 1];
    }
  }

  /** `_construct_website_url`: every ".com", then ".co.th", then ".org" is
      removed and ".com" put back as the only domain. */
  function WebsiteUrl(name: string): (url: string)
    ensures StartsWith(url, "https://") && EndsWith(url, ".com")
    ensures |url| <= |name| + 12
  {
    var stem := ReplaceAll(ReplaceAll(ReplaceAll(name, ".com", ""), ".co.th", ""), ".org", "");
    RemoveShortens(name, ".com");
    RemoveShortens(ReplaceAll(name, ".com", ""), ".co.th");
    RemoveShortens(ReplaceAll(ReplaceAll(name, ".com", ""), ".co.th", ""), ".org");
    var url := "https://" + stem + ".com";
    assert url[..8] == "https://";
    assert url[|url| - 4..] == ".com";
    url
  }

  /** Removing a non-empty pattern never lengthens a string. */
  lemma {:induction false} RemoveShortens(s: string, pat: string)
    requires |pat| > 0
    ensures |ReplaceAll(s, pat, "")| <= |s|
    decreases |s|
  {
    if |s| > 0 {
      if StartsWith(s, pat) {
        RemoveShortens(s[|pat|..], pat);
      } else {
        RemoveShortens(s[1..], pat);
      }
    }
  }

  /** A bare name is wrapped as `https://<name>.com`. */
  lemma WebsiteUrlBareName(name: string)
    requires '.' !in name
    ensures WebsiteUrl(name) == "https://" + name + ".com"
  {
    NotContainsByChar(name, ".com", 0);
    ReplaceAbsent(name, ".com", "");
    NotContainsByChar(name, ".co.th", 0);
    ReplaceAbsent(name, ".co.th", "");
    NotContainsByChar(name, ".org", 0);
    ReplaceAbsent(name, ".org", "");
  }

  /** A ".com" domain keeps its name. */
  lemma WebsiteUrlDotCom(name: string)
    requires '.' !in name
    ensures WebsiteUrl(name + ".com") == "https://" + name + ".com"
  {
    ReplaceHead(".com", "", "");
    ReplaceSkip(name, ".com", ".com", "");
    assert ".com" + "" == ".com";
    assert name + "" == name;
    NotContainsByChar(name, ".co.th", 0);
    ReplaceAbsent(name, ".co.th", "");
    NotContainsByChar(name, ".org", 0);
    ReplaceAbsent(name, ".org", "");
  }

  /** A Thai ".co.th" domain loses its suffix and becomes a ".com" one. */
  lemma WebsiteUrlThaiDomain(name: string)
    requires '.' !in name
    ensures WebsiteUrl(name + ".co.th") == "https://" + name + ".com"
  {
    ScanDecidesContains(".co.th", ".com");
    ReplaceAbsent(".co.th", ".com", "");
    ReplaceSkip(name, ".co.th", ".com", "");
    ReplaceHead(".co.th", "", "");
    ReplaceSkip(name, ".co.th", ".co.th", "");
    assert ".co.th" + "" == ".co.th";
    assert name + "" == name;
    NotContainsByChar(name, ".org", 0);
    ReplaceAbsent(name, ".org", "");
  }

  /** `_handle_website_pattern`: the group of the first lead that matches
      the command as given (case-sensitively), trimmed; the prompt when
      there is none or it is blank. */
  function HandleWebsitePattern(command: string): (r: Reply)
    ensures FirstCapture(command, WebsiteLeads).None? ==> r == Say(AskForSite)
    ensures r.effects == [] ==> r == Say(AskForSite)
    ensures r.effects != [] ==>
              exists name :: |name| > 0 && Trimmed(name) && r.effects == [OpenUrl(WebsiteUrl(name))]
    ensures FirstCapture(command, WebsiteLeads).Some? ==>
              var name := Strip(FirstCapture(command, WebsiteLeads).value);
              (name == [] ==> r == Say(AskForSite)) &&
              (name != [] ==> r.effects == [OpenUrl(WebsiteUrl(name))])
  {
    match FirstCapture(command, WebsiteLeads)
    case None => Say(AskForSite)
    case Some(group) => SiteReply(group)
  }

  /** The reply to a captured group: the prompt when it is blank, else the
      trimmed name's site. */
  function SiteReply(group: string): (r: Reply)
    ensures Strip(group) == [] ==> r == Say(AskForSite)
    ensures Strip(group) != [] ==> r.effects == [OpenUrl(WebsiteUrl(Strip(group)))]
    ensures r.effects != [] ==> |Strip(group)| > 0 && Trimmed(Strip(group))
  {
    var name := Strip(group);
    if name == [] then Say(AskForSite)
    else
      Reply("เปิดเว็บไซต์ " + name + " แล้วค่ะ", [OpenUrl(WebsiteUrl(name))])
  }

  // ---------------------------------------------------------------------
  // process_command

  /** `WebCommands.process_command` over the configured services: a service
      match, else a search, else a website pattern, else "not understood".
      Detection reads the lower-cased command; the search and website
      handlers get the command as given. */
  function ProcessCommand(services: Dict<string, string>, command: string): (r: Reply)
    ensures |r.effects| <= 1
    ensures FirstService(services, Lower(command)).Some? ==>
              var k := FirstService(services, Lower(command)).value;
              r == Reply("เปิด " + services[k].0 + " แล้วค่ะ", [OpenUrl(services[k].1)])
    ensures FirstService(services, Lower(command)).None? && IsSearchCommand(Lower(command)) ==>
              r == HandleSearch(command)
    ensures (FirstService(services, Lower(command)).None? && !IsSearchCommand(Lower(command)) &&
             IsWebsitePattern(Lower(command))) ==> r == HandleWebsitePattern(command)
    ensures r == Say(NotUnderstood) <==>
              FirstService(services, Lower(command)).None? && !IsSearchCommand(Lower(command)) &&
              !IsWebsitePattern(Lower(command))
  {
    var lower := Lower(command);
    match FirstService(services, lower)
    case Some(k) => Reply("เปิด " + services[k].0 + " แล้วค่ะ", [OpenUrl(services[k].1)])
    case None =>
      if IsSearchCommand(lower) then HandleSearch(command)
      else if IsWebsitePattern(lower) then HandleWebsitePattern(command)
      else Say(NotUnderstood)
  }

  /** A lead that does not occur captures nothing. */
  lemma NoCaptureWithoutLead(s: string, lead: string)
    requires !Contains(s, lead)
    ensures CaptureFrom(s, lead, 0).None?
  {
    forall k: nat | CapturesAt(s, lead, k) ensures false {
      ContainsAt(s, lead, k);
    }
  }

  lemma PantipLowered(command: string)
    requires command == "Open Website Pantip"
    ensures Lower(command) == "open website pantip"
  {
  }

  lemma PantipDetected(lower: string)
    requires lower == "open website pantip"
    ensures IsWebsitePattern(lower)
  {
    assert lower[..13] == WebsiteLeads[1];
    assert CapturesAt(lower, WebsiteLeads[1], 0);
  }

  lemma PantipNotCaptured(command: string)
    requires command == "Open Website Pantip"
    ensures FirstCapture(command, WebsiteLeads).None?
  {
    assert 'o' !in command && 'เ' !in command;
    NotContainsByChar(command, WebsiteLeads[0], 0);
    NotContainsByChar(command, WebsiteLeads[1], 0);
    NotContainsByChar(command, WebsiteLeads[2], 0);
    NoCaptureWithoutLead(command, WebsiteLeads[0]);
    NoCaptureWithoutLead(command, WebsiteLeads[1]);
    NoCaptureWithoutLead(command, WebsiteLeads[2]);
  }

  /** Detection reads the lower-cased command but extraction the command as
      given, so "Open Website Pantip" is recognised as a website request and
      then answered with the prompt for a website name. */
  lemma WebsiteCaseMismatch(command: string)
    requires command == "Open Website Pantip"
    ensures IsWebsitePattern(Lower(command))
    ensures HandleWebsitePattern(command) == Say(AskForSite)
  {
    PantipLowered(command);
    PantipDetected(Lower(command));
    PantipNotCaptured(command);
  }
}
