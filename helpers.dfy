/** The text helpers of `src/utils/helpers.py`: input normalisation, the
    pronoun rewrite, trigger-based query extraction, filename sanitising,
    search-URL building and the spoken duration format. */
module Helpers {
  import opened PyStr
  import opened Triggers
  import opened Wrappers

  // ---------------------------------------------------------------------
  // clean_text

  /** Every whitespace character is a plain space and no two are adjacent. */
  predicate SingleSpaced(s: string) {
    (forall i :: 0 <= i < |s| && IsSpace(s[i]) ==> s[i] == ' ') &&
    (forall i, j :: 0 <= i < |s| && 0 <= j < |s| && j == i + 1 ==> !IsSpace(s[i]) || !IsSpace(s[j]))
  }

  /** No whitespace at either end. */
  predicate Trimmed(s: string) {
    |s| > 0 ==> !IsSpace(s[0]) && !IsSpace(s[|s| - 1])
  }

  /** `re.sub(r'\s+', ' ', s)`: every run of whitespace becomes one space. */
  function CollapseSpaces(s: string): (r: string)
    ensures SingleSpaced(r)
    ensures |r| <= |s|
    ensures |s| > 0 && IsSpace(s[0]) ==> |r| > 0 && r[0] == ' '
    ensures |s| > 0 && !IsSpace(s[0]) ==> |r| > 0 && r[0] == s[0]
    ensures |s| > 0 && !IsSpace(s[|s| - 1]) ==> |r| > 0 && r[|r| - 1] == s[|s| - 1]
    decreases |s|
  {
    if |s| == 0 then ""
    else if IsSpace(s[0]) then
      var t := TrimLeft(s[1..], IsSpace);
      assert |s| > 1 && !IsSpace(s[|s| - 1]) ==> |t| > 0 && t[|t| - 1] == s[|s| - 1];
      var u := CollapseSpaces(t);
      SingleSpacedCons(' ', u);
      " " + u
    else
      var u := CollapseSpaces(s[1..]);
      SingleSpacedCons(s[0], u);
      [s[0]] + u
  }

  /** Collapsing whitespace adds no upper-case letter. */
  lemma {:induction false} CollapseKeepsLower(s: string)
    requires IsLower(s)
    ensures IsLower(CollapseSpaces(s))
    decreases |s|
  {
    if |s| > 0 {
      if IsSpace(s[0]) {
        var t := TrimLeft(s[1..], IsSpace);
        assert forall i :: 0 <= i < |t| ==> t[i] == s[|s| - |t| + i];
        CollapseKeepsLower(t);
        LowerCons(' ', CollapseSpaces(t));
      } else {
        assert forall i :: 0 <= i < |s| - 1 ==> s[1..][i] == s[i + 1];
        CollapseKeepsLower(s[1..]);
        LowerCons(s[0], CollapseSpaces(s[1..]));
      }
    }
  }

  /** A character put in front of a single-spaced string keeps it so when
      it is not a second whitespace character in a row. */
  lemma SingleSpacedCons(c: char, u: string)
    requires SingleSpaced(u) && (IsSpace(c) ==> c == ' ')
    requires IsSpace(c) && |u| > 0 ==> !IsSpace(u[0])
    ensures SingleSpaced([c] + u)
  {
    var r := [c] + u;
    assert forall i :: 1 <= i < |r| ==> r[i] == u[i - 1];
  }

  lemma LowerCons(c: char, u: string)
    ensures !IsUpper(c) && IsLower(u) ==> IsLower([c] + u)
  {
    var r := [c] + u;
    assert forall i :: 1 <= i < |r| ==> r[i] == u[i - 1];
  }

  /** A string that is already single-spaced is left as it is. */
  lemma {:induction false} CollapseSingleSpaced(s: string)
    requires SingleSpaced(s)
    ensures CollapseSpaces(s) == s
    decreases |s|
  {
    if |s| > 0 {
      SingleSpacedTail(s);
      if IsSpace(s[0]) {
        assert |s| > 1 ==> !IsSpace(s[1]);
        TrimLeftNoop(s[1..], IsSpace);
      }
      CollapseSingleSpaced(s[1..]);
      Reassembled(s);
    }
  }

  /** Dropping the first character keeps a string single-spaced. */
  lemma SingleSpacedTail(s: string)
    requires SingleSpaced(s) && |s| > 0
    ensures SingleSpaced(s[1..])
  {
    var t := s[1..];
    forall i | 0 <= i < |t| ensures t[i] == s[i + 1] {}
  }

  /** `clean_text`: empty input gives `""`; otherwise lower-case, strip and
      collapse whitespace runs. */
  function CleanText(text: string): (r: string)
    ensures text == [] ==> r == []
    ensures IsLower(r) && Trimmed(r) && SingleSpaced(r)
    ensures |r| <= |text|
  {
    if text == [] then []
    else
      var t := Strip(Lower(text));
      var r := CollapseSpaces(t);
      assert |t| > 0 ==> Contains(Lower(text), t);
      assert IsLower(t) by {
        forall i | 0 <= i < |t| ensures !IsUpper(t[i]) {
          ContainsChars(Lower(text), t, i);
        }
      }
      CollapseKeepsLower(t);
      r
  }

  /** Cleaning is idempotent. */
  lemma CleanTextIdempotent(text: string)
    ensures CleanText(CleanText(text)) == CleanText(text)
  {
    var r := CleanText(text);
    if r != [] {
      LowerOfLower(r);
      StripNoop(r);
      CollapseSingleSpaced(r);
    }
  }

  /** The characters of `s` that are not whitespace, in order. */
  function Visible(s: string): string
    decreases |s|
  {
    if |s| == 0 then [] else (if IsSpace(s[0]) then [] else [s[0]]) + Visible(s[1..])
  }

  lemma {:induction false} VisibleAppend(a: string, b: string)
    ensures Visible(a + b) == Visible(a) + Visible(b)
    decreases |a|
  {
    if |a| > 0 {
      assert (a + b)[1..] == a[1..] + b;
      VisibleAppend(a[1..], b);
    } else {
      assert a + b == b;
    }
  }

  lemma {:induction false} VisibleAllSpace(s: string)
    requires forall i :: 0 <= i < |s| ==> IsSpace(s[i])
    ensures Visible(s) == []
    decreases |s|
  {
    if |s| > 0 {
      VisibleAllSpace(s[1..]);
    }
  }

  lemma VisibleTrimLeft(s: string)
    ensures Visible(TrimLeft(s, IsSpace)) == Visible(s)
  {
    var t := TrimLeft(s, IsSpace);
    var k := |s| - |t|;
    var lead := s[..k];
    assert s == lead + t;
    assert forall i :: 0 <= i < |lead| ==> IsSpace(lead[i]) by {
      forall i | 0 <= i < |lead| ensures IsSpace(lead[i]) {
        assert lead[i] == s[i];
      }
    }
    VisibleAppend(lead, t);
    VisibleAllSpace(lead);
  }

  lemma VisibleTrimRight(s: string)
    ensures Visible(TrimRight(s, IsSpace)) == Visible(s)
  {
    var t := TrimRight(s, IsSpace);
    assert s == t + s[|t|..];
    VisibleAppend(t, s[|t|..]);
    VisibleAllSpace(s[|t|..]);
  }

  lemma VisibleStrip(s: string)
    ensures Visible(Strip(s)) == Visible(s)
  {
    VisibleTrimLeft(s);
    VisibleTrimRight(TrimLeft(s, IsSpace));
  }

  lemma {:induction false} VisibleCollapse(s: string)
    ensures Visible(CollapseSpaces(s)) == Visible(s)
    decreases |s|
  {
    if |s| > 0 {
      if IsSpace(s[0]) {
        var t := TrimLeft(s[1..], IsSpace);
        VisibleCollapse(t);
        VisibleTrimLeft(s[1..]);
        VisibleAppend(" ", CollapseSpaces(t));
      } else {
        VisibleCollapse(s[1..]);
        VisibleAppend([s[0]], CollapseSpaces(s[1..]));
      }
    }
  }

  /** Cleaning only lowers the case and rewrites whitespace: the visible
      characters are exactly those of the lowered input. */
  lemma CleanTextKeepsVisible(text: string)
    ensures Visible(CleanText(text)) == Visible(Lower(text))
  {
    if text != [] {
      VisibleStrip(Lower(text));
      VisibleCollapse(Strip(Lower(text)));
    }
  }

  predicate AllSpace(s: string) {
    forall i :: 0 <= i < |s| ==> IsSpace(s[i])
  }

  predicate NoSpace(s: string) {
    forall i :: 0 <= i < |s| ==> !IsSpace(s[i])
  }

  lemma {:induction false} TrimLeftSpaces(a: string, b: string)
    requires AllSpace(a) && (|b| == 0 || !IsSpace(b[0]))
    ensures TrimLeft(a + b, IsSpace) == b
    decreases |a|
  {
    if |a| > 0 {
      assert (a + b)[1..] == a[1..] + b;
      TrimLeftSpaces(a[1..], b);
    } else {
      assert a + b == b;
    }
  }

  lemma {:induction false} TrimRightSpaces(a: string, b: string)
    requires AllSpace(b) && (|a| == 0 || !IsSpace(a[|a| - 1]))
    ensures TrimRight(a + b, IsSpace) == a
    decreases |b|
  {
    if |b| > 0 {
      assert (a + b)[..|a + b| - 1] == a + b[..|b| - 1];
      TrimRightSpaces(a, b[..|b| - 1]);
    } else {
      assert a + b == a;
    }
  }

  lemma GapTail(gap: string, b: string)
    requires |gap| > 0 && AllSpace(gap) && (|b| == 0 || !IsSpace(b[0]))
    ensures TrimLeft((gap + b)[1..], IsSpace) == b
  {
    assert (gap + b)[1..] == gap[1..] + b;
    TrimLeftSpaces(gap[1..], b);
  }

  lemma GapHead(gap: string, b: string)
    requires |gap| > 0 && AllSpace(gap)
    ensures CollapseSpaces(gap + b) == " " + CollapseSpaces(TrimLeft((gap + b)[1..], IsSpace))
  {
    assert IsSpace((gap + b)[0]);
  }

  lemma CollapseLeadingGap(gap: string, b: string)
    requires |gap| > 0 && AllSpace(gap)
    requires SingleSpaced(b) && (|b| == 0 || !IsSpace(b[0]))
    ensures CollapseSpaces(gap + b) == " " + b
  {
    GapHead(gap, b);
    GapTail(gap, b);
    CollapseSingleSpaced(b);
  }

  /** A word, a run of whitespace and a single-spaced rest collapse to the
      word, one space and the rest. */
  lemma CollapseGap(a: string, gap: string, b: string)
    requires NoSpace(a) && |gap| > 0 && AllSpace(gap)
    requires SingleSpaced(b) && (|b| == 0 || !IsSpace(b[0]))
    ensures CollapseSpaces(a + gap + b) == a + " " + b
  {
    Assoc(a, gap, b);
    CollapseKeepsWord(a, gap + b);
    CollapseLeadingGap(gap, b);
    Assoc(a, " ", b);
  }

  /** Characters that are not whitespace pass through the collapse. */
  lemma {:induction false} CollapseKeepsWord(a: string, t: string)
    requires NoSpace(a)
    ensures CollapseSpaces(a + t) == a + CollapseSpaces(t)
    decreases |a|
  {
    if |a| > 0 {
      HeadSplit(a, t);
      CollapseVisibleHead(a[0], a[1..] + t);
      assert NoSpace(a[1..]);
      CollapseKeepsWord(a[1..], t);
      HeadSplit(a, CollapseSpaces(t));
    } else {
      assert a + t == t;
    }
  }

  /** A leading character that is not whitespace is kept as it is. */
  lemma CollapseVisibleHead(c: char, rest: string)
    requires !IsSpace(c)
    ensures CollapseSpaces([c] + rest) == [c] + CollapseSpaces(rest)
  {
    assert ([c] + rest)[1..] == rest;
  }

  lemma StripAround(pad: string, core: string, tail: string)
    requires AllSpace(pad) && AllSpace(tail)
    requires |core| > 0 && !IsSpace(core[0]) && !IsSpace(core[|core| - 1])
    ensures Strip(pad + core + tail) == core
  {
    assert pad + core + tail == pad + (core + tail);
    TrimLeftSpaces(pad, core + tail);
    TrimRightSpaces(core, tail);
  }

  lemma ExampleLowered(text: string)
    requires text == "  Hello   World  "
    ensures Lower(text) == "  " + "hello" + "   " + "world" + "  "
  {
  }

  lemma ExampleStripped(lowered: string)
    requires lowered == "  " + "hello" + "   " + "world" + "  "
    ensures Strip(lowered) == "hello" + "   " + "world"
  {
    StripAround("  ", "hello" + "   " + "world", "  ");
    Regrouped(lowered, "  ", "hello", "   ", "world", "  ");
  }

  lemma Regrouped(s: string, a: string, b: string, c: string, d: string, e: string)
    requires s == a + b + c + d + e
    ensures s == a + (b + c + d) + e
  {
  }

  /** The documented example: "  Hello   World  " cleans to "hello world". */
  lemma CleanTextExample(text: string)
    requires text == "  Hello   World  "
    ensures CleanText(text) == "hello world"
  {
    ExampleLowered(text);
    ExampleStripped(Lower(text));
    ExampleCollapsed("hello" + "   " + "world");
  }

  lemma ExampleCollapsed(stripped: string)
    requires stripped == "hello" + "   " + "world"
    ensures CollapseSpaces(stripped) == "hello world"
  {
    CollapseGap("hello", "   ", "world");
    ExampleJoined("hello", " ", "world");
  }

  lemma ExampleJoined(a: string, b: string, c: string)
    requires a == "hello" && b == " " && c == "world"
    ensures a + b + c == "hello world"
  {
  }

  // ---------------------------------------------------------------------
  // process_thai_text

  /** The rewrite table, applied in insertion order. */
  const ThaiRewrites: seq<(string, string)> :=
    [("ผม", "ฉันเองก็"), ("ครับ", "ค่ะ"), ("ผมจะ", "ฉันจะ"), ("ผมอยาก", "ฉันอยาก")]

  /** Applies every `(old, new)` replacement of the table, in order. */
  function ApplyRewrites(text: string, rules: seq<(string, string)>): string
    decreases |rules|
  {
    if |rules| == 0 then text else ApplyRewrites(ReplaceAll(text, rules[0].0, rules[0].1), rules[1..])
  }

  /** What `process_thai_text` computes. */
  function ThaiRewritten(text: string): string {
    if text == [] then [] else ApplyRewrites(text, ThaiRewrites)
  }

  /** `process_thai_text`: the replacement loop over the table. */
  method ProcessThaiText(text: string) returns (r: string)
    ensures r == ThaiRewritten(text)
    ensures !Contains(r, "ผม") && !Contains(r, "ครับ")
  {
    if text == [] {
      return [];
    }
    r := text;
    var i := 0;
    while i < |ThaiRewrites|
      invariant 0 <= i <= |ThaiRewrites|
      invariant ApplyRewrites(r, ThaiRewrites[i..]) == ApplyRewrites(text, ThaiRewrites)
    {
      assert ThaiRewrites[i..][1..] == ThaiRewrites[i + 1..];
      r := ReplaceAll(r, ThaiRewrites[i].0, ThaiRewrites[i].1);
      i := i + 1;
    }
    ThaiRewrittenPolite(text);
  }

  /** Only the first two rules ever fire: once every "ผม" is gone the
      "ผมจะ" and "ผมอยาก" rules find nothing to replace. */
  lemma ThaiLaterRulesDead(text: string)
    ensures ThaiRewritten(text) == ReplaceAll(ReplaceAll(text, "ผม", "ฉันเองก็"), "ครับ", "ค่ะ")
  {
    var a := ReplaceAll(text, "ผม", "ฉันเองก็");
    var b := ReplaceAll(a, "ครับ", "ค่ะ");
    SeparateByFirstChars("ฉันเองก็", "ผม");
    ReplaceRemoves(text, "ผม", "ฉันเองก็");
    SeparateByFirstChars("ค่ะ", "ผม");
    if Contains(b, "ผม") {
      ReplaceReflectsContains(a, "ครับ", "ค่ะ", "ผม");
    }
    ContainsNarrow(b, "ผมจะ", "ผม");
    ReplaceAbsent(b, "ผมจะ", "ฉันจะ");
    ContainsNarrow(b, "ผมอยาก", "ผม");
    ReplaceAbsent(b, "ผมอยาก", "ฉันอยาก");
    if text == [] {
      assert a == [] && b == [];
    }
  }

  /** A string without `q` cannot contain a longer pattern starting with `q`. */
  lemma ContainsNarrow(s: string, p: string, q: string)
    requires StartsWith(p, q) && !Contains(s, q)
    ensures !Contains(s, p)
  {
    if Contains(s, p) {
      assert p[..|q|] == q;
      ContainsAt(p, q, 0);
      ContainsTransitive(s, p, q);
    }
  }

  lemma CrabSeparate()
    ensures Separate("ค่ะ", "ครับ")
  {
    var rep := "ค่ะ";
    var p := "ครับ";
    forall j | 0 <= j < |rep| ensures !Compatible(rep[j..], p) {
      assert rep[j..][0] != p[0] || rep[j..][1] != p[1];
    }
    forall i | 0 <= i < |p| ensures !Compatible(p[i..], rep) {
      assert p[i..][0] != rep[0] || p[i..][1] != rep[1];
    }
  }

  /** The rewritten text holds neither the male pronoun nor the male
      polite particle. */
  lemma ThaiRewrittenPolite(text: string)
    ensures !Contains(ThaiRewritten(text), "ผม") && !Contains(ThaiRewritten(text), "ครับ")
  {
    ThaiLaterRulesDead(text);
    var a := ReplaceAll(text, "ผม", "ฉันเองก็");
    var b := ReplaceAll(a, "ครับ", "ค่ะ");
    SeparateByFirstChars("ฉันเองก็", "ผม");
    ReplaceRemoves(text, "ผม", "ฉันเองก็");
    SeparateByFirstChars("ค่ะ", "ผม");
    if Contains(b, "ผม") {
      ReplaceReflectsContains(a, "ครับ", "ค่ะ", "ผม");
    }
    CrabSeparate();
    ReplaceRemoves(a, "ครับ", "ค่ะ");
  }

  lemma ExampleFirstRule(text: string)
    requires text == "ผม" + "จะไปครับ"
    ensures ReplaceAll(text, "ผม", "ฉันเองก็") == "ฉันเองก็จะไป" + "ครับ"
  {
    ReplaceHead("ผม", "จะไปครับ", "ฉันเองก็");
    NotContainsByChar("จะไปครับ", "ผม", 0);
    ReplaceAbsent("จะไปครับ", "ผม", "ฉันเองก็");
    ExampleRegrouped("ฉันเองก็", "จะไปครับ");
  }

  lemma ExampleRegrouped(a: string, b: string)
    requires a == "ฉันเองก็" && b == "จะไปครับ"
    ensures a + b == "ฉันเองก็จะไป" + "ครับ"
  {
  }

  lemma ExampleSecondRule()
    ensures ReplaceAll("ฉันเองก็จะไป" + "ครับ", "ครับ", "ค่ะ") == "ฉันเองก็จะไปค่ะ"
  {
    ReplaceSkip("ฉันเองก็จะไป", "ครับ", "ครับ", "ค่ะ");
    ReplaceHead("ครับ", [], "ค่ะ");
    assert "ครับ" + [] == "ครับ";
  }

  /** The documented example: "ผมจะไปครับ" becomes "ฉันเองก็จะไปค่ะ". */
  lemma ThaiRewrittenExample(text: string)
    requires text == "ผม" + "จะไปครับ"
    ensures ThaiRewritten(text) == "ฉันเองก็จะไปค่ะ"
  {
    ThaiLaterRulesDead(text);
    ExampleFirstRule(text);
    ExampleSecondRule();
  }

  // ---------------------------------------------------------------------
  // extract_query_from_command

  /** `extract_query_from_command`: the first trigger (in list order) that
      occurs in the lower-cased command is removed everywhere and the rest
      trimmed; `""` when no trigger occurs. */
  function ExtractQuery(command: string, triggers: seq<string>): (r: string)
    ensures !AnyIn(Lower(command), triggers) ==> r == []
    ensures Trimmed(r)
  {
    var lower := Lower(command);
    match FirstIn(lower, triggers)
    case None => []
    case Some(k) => Strip(ReplaceAll(lower, triggers[k], []))
  }

  /** The trigger that is removed is the first one in list order that occurs. */
  lemma ExtractQueryFirstTrigger(command: string, triggers: seq<string>, k: int)
    requires 0 <= k < |triggers| && Contains(Lower(command), triggers[k])
    requires forall j :: 0 <= j < k ==> !Contains(Lower(command), triggers[j])
    ensures ExtractQuery(command, triggers) == Strip(ReplaceAll(Lower(command), triggers[k], []))
  {
    AnyInIff(Lower(command), triggers);
  }

  // ---------------------------------------------------------------------
  // sanitize_filename

  const InvalidFilenameChars: string := "<>:\"/\\|?*"

  predicate DotOrSpace(c: char) {
    c == '.' || c == ' '
  }

  /** Every character of `chars` replaced by `_`, one character at a time
      in the order of `chars`. */
  function ReplaceChars(s: string, chars: string): string
    decreases |chars|
  {
    if |chars| == 0 then s else ReplaceAll(ReplaceChars(s, chars[..|chars| - 1]), [chars[|chars| - 1]], "_")
  }

  /** What `sanitize_filename` computes. */
  function Sanitized(filename: string): string {
    StripBy(ReplaceChars(filename, InvalidFilenameChars), DotOrSpace)
  }

  /** One pass of the loop: replacing `c` by `_` keeps the length, removes
      `c`, and brings back none of the characters already removed. */
  lemma ReplaceCharStep(name: string, c: char, removed: string)
    requires '_' !in removed + [c]
    requires forall k :: 0 <= k < |name| ==> name[k] !in removed
    ensures |ReplaceAll(name, [c], "_")| == |name|
    ensures forall k :: 0 <= k < |name| ==> ReplaceAll(name, [c], "_")[k] !in removed + [c]
  {
    ReplaceCharPointwise(name, c, '_');
    assert "_" == ['_'];
  }

  /** Stripping only removes characters, so a character absent before is
      absent after. */
  lemma StripKeepsOut(name: string, out: string)
    requires forall k :: 0 <= k < |name| ==> name[k] !in out
    ensures forall k :: 0 <= k < |StripBy(name, DotOrSpace)| ==> StripBy(name, DotOrSpace)[k] !in out
  {
    var r := StripBy(name, DotOrSpace);
    forall k | 0 <= k < |r| ensures r[k] !in out {
      ContainsChars(name, r, k);
    }
  }

  /** `sanitize_filename`: the loop over the invalid characters, then
      `strip('. ')`. */
  method SanitizeFilename(filename: string) returns (r: string)
    ensures r == Sanitized(filename)
    ensures forall i :: 0 <= i < |r| ==> r[i] !in InvalidFilenameChars
    ensures |r| > 0 ==> !DotOrSpace(r[0]) && !DotOrSpace(r[|r| - 1])
    ensures |r| <= |filename|
  {
    var name := filename;
    var i := 0;
    while i < |InvalidFilenameChars|
      invariant 0 <= i <= |InvalidFilenameChars|
      invariant name == ReplaceChars(filename, InvalidFilenameChars[..i])
      invariant |name| == |filename|
      invariant forall k :: 0 <= k < |name| ==> name[k] !in InvalidFilenameChars[..i]
    {
      assert InvalidFilenameChars[..i + 1] == InvalidFilenameChars[..i] + [InvalidFilenameChars[i]];
      assert InvalidFilenameChars[..i + 1][..i] == InvalidFilenameChars[..i];
      ReplaceCharStep(name, InvalidFilenameChars[i], InvalidFilenameChars[..i]);
      name := ReplaceAll(name, [InvalidFilenameChars[i]], "_");
      i := i + 1;
    }
    assert InvalidFilenameChars[..i] == InvalidFilenameChars;
    StripKeepsOut(name, InvalidFilenameChars);
    r := StripBy(name, DotOrSpace);
  }

  // ---------------------------------------------------------------------
  // create_search_url

  /** `create_search_url`: Google and YouTube bases get their own search
      paths, any other base a `?q=` parameter; the query is appended as is. */
  function CreateSearchUrl(base: string, query: string): (url: string)
    ensures |url| >= |base| + |query| && StartsWith(url, base)
    ensures url[|url| - |query|..] == query
    ensures Contains(base, "google.com") ==> url == base + "/search?q=" + query
    ensures !Contains(base, "google.com") && Contains(base, "youtube.com") ==>
              url == base + "/results?search_query=" + query
    ensures !Contains(base, "google.com") && !Contains(base, "youtube.com") ==> url == base + "?q=" + query
  {
    if Contains(base, "google.com") then base + "/search?q=" + query
    else if Contains(base, "youtube.com") then base + "/results?search_query=" + query
    else base + "?q=" + query
  }

  // ---------------------------------------------------------------------
  // format_time

  datatype TimeUnit = Hour | Minute | Second {
    function Name(): string {
      match this
      case Hour => "ชั่วโมง"
      case Minute => "นาที"
      case Second => "วินาที"
    }
    function Length(): nat {
      match this
      case Hour => 3600
      case Minute => 60
      case Second => 1
    }
  }

  /** `seconds // 3600`, `(seconds % 3600) // 60` and `seconds % 60`
      (floor division; the divisors are positive). */
  function HoursOf(total: int): int { total / 3600 }
  function MinutesOf(total: int): nat { (total % 3600) / 60 }
  function SecondsOf(total: int): nat { total % 60 }

  /** The three parts are a mixed-radix decomposition of the total. */
  lemma SplitSeconds(total: int)
    ensures 0 <= MinutesOf(total) < 60 && 0 <= SecondsOf(total) < 60
    ensures 3600 * HoursOf(total) + 60 * MinutesOf(total) + SecondsOf(total) == total
  {
    var r := total % 3600;
    assert total == 3600 * (total / 3600) + r;
    assert r == 60 * (r / 60) + r % 60;
    assert total == 60 * (60 * (total / 3600) + r / 60) + r % 60;
    assert total % 60 == r % 60;
  }

  /** `format_time`. */
  function FormatTime(total: int): string {
    var h := HoursOf(total);
    var m := MinutesOf(total);
    var s := SecondsOf(total);
    if h > 0 then NatToString(h) + " ชั่วโมง " + NatToString(m) + " นาที " + NatToString(s) + " วินาที"
    else if m > 0 then NatToString(m) + " นาที " + NatToString(s) + " วินาที"
    else NatToString(s) + " วินาที"
  }

  /** The parts `format_time` speaks, largest unit first. */
  function SpokenParts(total: int): seq<(nat, TimeUnit)> {
    var h := HoursOf(total);
    var m := MinutesOf(total);
    var s := SecondsOf(total);
    if h > 0 then [(h as nat, Hour), (m, Minute), (s, Second)]
    else if m > 0 then [(m, Minute), (s, Second)]
    else [(s, Second)]
  }

  /** `"{value} {unit}"` for each part, separated by single spaces. */
  function Render(parts: seq<(nat, TimeUnit)>): string
    decreases |parts|
  {
    if |parts| == 0 then []
    else if |parts| == 1 then NatToString(parts[0].0) + " " + parts[0].1.Name()
    else NatToString(parts[0].0) + " " + parts[0].1.Name() + " " + Render(parts[1..])
  }

  function PartsValue(parts: seq<(nat, TimeUnit)>): int
    decreases |parts|
  {
    if |parts| == 0 then 0 else parts[0].0 * parts[0].1.Length() + PartsValue(parts[1..])
  }

  lemma RenderOne(a: nat, u: TimeUnit)
    ensures Render([(a, u)]) == NatToString(a) + " " + u.Name()
  {
  }

  lemma RenderMore(a: nat, u: TimeUnit, rest: seq<(nat, TimeUnit)>)
    requires |rest| > 0
    ensures Render([(a, u)] + rest) == NatToString(a) + " " + u.Name() + " " + Render(rest)
  {
    assert ([(a, u)] + rest)[1..] == rest;
  }

  lemma UnitNames()
    ensures " " + Hour.Name() + " " == " ชั่วโมง "
    ensures " " + Minute.Name() + " " == " นาที "
    ensures " " + Second.Name() == " วินาที"
  {
  }

  lemma Regroup(a: string, x: string, b: string, y: string, c: string, z: string)
    ensures a + " " + x + " " + (b + " " + y + " " + (c + " " + z)) == a + (" " + x + " ") + b + (" " + y + " ") + c + (" " + z)
    ensures b + " " + y + " " + (c + " " + z) == b + (" " + y + " ") + c + (" " + z)
  {
  }

  /** `format_time` speaks exactly the spoken parts. */
  lemma FormatTimeSpeaksParts(total: int)
    ensures FormatTime(total) == Render(SpokenParts(total))
  {
    var h := HoursOf(total);
    var m := MinutesOf(total);
    var s := SecondsOf(total);
    UnitNames();
    RenderOne(s, Second);
    if h > 0 {
      RenderMore(m, Minute, [(s, Second)]);
      RenderMore(h, Hour, [(m, Minute), (s, Second)]);
      assert [(h as nat, Hour), (m, Minute), (s, Second)] == [(h as nat, Hour)] + [(m, Minute), (s, Second)];
      Regroup(NatToString(h), Hour.Name(), NatToString(m), Minute.Name(), NatToString(s), Second.Name());
    } else if m > 0 {
      RenderMore(m, Minute, [(s, Second)]);
      assert [(m, Minute), (s, Second)] == [(m, Minute)] + [(s, Second)];
      Regroup("", Hour.Name(), NatToString(m), Minute.Name(), NatToString(s), Second.Name());
    }
  }

  /** The leading spoken part is never zero unless it is the seconds, the
      seconds always come last, and for a non-negative duration the parts
      add back up to the input, so leaving out the leading units loses
      nothing. */
  lemma SpokenPartsAddUp(total: int)
    ensures SpokenParts(total)[0].1 != Second ==> SpokenParts(total)[0].0 > 0
    ensures SpokenParts(total)[|SpokenParts(total)| - 1] == (SecondsOf(total), Second)
    ensures total >= 0 ==> PartsValue(SpokenParts(total)) == total
  {
    SplitSeconds(total);
    var h := HoursOf(total);
    var m := MinutesOf(total);
    var s := SecondsOf(total);
    var last := [(s, Second)];
    assert PartsValue(last) == s by {
      assert last[1..] == [];
    }
    var two := [(m, Minute), (s, Second)];
    assert PartsValue(two) == 60 * m + s by {
      assert two[1..] == last;
    }
    if h > 0 {
      var three := [(h as nat, Hour), (m, Minute), (s, Second)];
      assert three[1..] == two;
    }
  }
}
