/** The older stand-alone script's front end: the two-rule pronoun rewrite,
    a persisted wake counter that wraps modulo six, and the gate deciding
    whether an utterance goes on to command matching. It reuses the
    router's acknowledgement lines, which the script lists verbatim. */
module Legacy {
  import opened PyStr
  import opened Helpers
  import Router

  // ---------------------------------------------------------------------
  // process_text

  /** `process_text`: every "ผม" becomes "ฉันเองก็", then every "ครับ"
      becomes "ค่ะ"; each replacement runs only when its pattern occurs. */
  function ProcessText(text: string): string {
    var a := if Contains(text, "ผม") then ReplaceAll(text, "ผม", "ฉันเองก็") else text;
    if Contains(a, "ครับ") then ReplaceAll(a, "ครับ", "ค่ะ") else a
  }

  /** The guards change nothing, and the script's rewrite is the one the
      router's longer table computes. */
  lemma ProcessTextIsThaiRewrite(text: string)
    ensures ProcessText(text) == ReplaceAll(ReplaceAll(text, "ผม", "ฉันเองก็"), "ครับ", "ค่ะ")
    ensures ProcessText(text) == ThaiRewritten(text)
  {
    ThaiLaterRulesDead(text);
    var a := ReplaceAll(text, "ผม", "ฉันเองก็");
    if !Contains(text, "ผม") {
      ReplaceAbsent(text, "ผม", "ฉันเองก็");
    }
    if !Contains(a, "ครับ") {
      ReplaceAbsent(a, "ครับ", "ค่ะ");
    }
  }

  /** The rewritten text holds neither "ผม" nor "ครับ". */
  lemma ProcessTextPolite(text: string)
    ensures !Contains(ProcessText(text), "ผม") && !Contains(ProcessText(text), "ครับ")
  {
    ProcessTextIsThaiRewrite(text);
    ThaiRewrittenPolite(text);
  }

  // ---------------------------------------------------------------------
  // The wake counter

  /** `(call_count + 1) % 6`. The divisor is positive, so Python's floored
      `%` and Dafny's Euclidean `%` agree even on a negative stored count. */
  function NextCount(stored: int): (n: int)
    ensures 0 <= n < 6
    ensures (stored + 1 - n) % 6 == 0
  {
    (stored + 1) % 6
  }

  /** The reply to a bare wake call once the counter reads `count`:
      `yuki_responses[count]` below five, the scolding line at five. */
  function LegacyWakeReply(count: int): string
    requires 0 <= count < 6
  {
    if count < 5 then Router.Acknowledgements[count] else Router.Scolding
  }

  /** The replies to `n` bare wake calls in a row from a stored count. */
  function WakeRun(stored: int, n: nat): seq<string>
    decreases n
  {
    if n == 0 then [] else [LegacyWakeReply(NextCount(stored))] + WakeRun(NextCount(stored), n - 1)
  }

  /** The stored count after `n` bare wake calls. */
  function After(stored: int, n: nat): int
    decreases n
  {
    if n == 0 then stored else After(NextCount(stored), n - 1)
  }

  /** A run of calls is the run of its first `a` calls followed by the run
      the counter they leave behind goes on with. */
  lemma {:induction false} WakeRunSplit(stored: int, a: nat, b: nat)
    ensures WakeRun(stored, a + b) == WakeRun(stored, a) + WakeRun(After(stored, a), b)
    decreases a
  {
    if a > 0 {
      var next := NextCount(stored);
      WakeRunSplit(next, a - 1, b);
      var x := [LegacyWakeReply(next)];
      assert x + (WakeRun(next, a - 1) + WakeRun(After(next, a - 1), b)) ==
             (x + WakeRun(next, a - 1)) + WakeRun(After(next, a - 1), b);
    }
  }

  /** Six calls bring a count in 0..5 back to where it was. */
  lemma SixCallsReturn(stored: int)
    requires 0 <= stored < 6
    ensures After(stored, 6) == stored
  {
    assert After(stored, 6) == NextCount(NextCount(NextCount(NextCount(NextCount(NextCount(stored))))));
  }

  /** The replies repeat with period six once the count is in 0..5. */
  lemma WakeRunPeriodic(stored: int, n: nat)
    requires 0 <= stored < 6
    ensures WakeRun(stored, 6 + n) == WakeRun(stored, 6) + WakeRun(stored, n)
  {
    WakeRunSplit(stored, 6, n);
    SixCallsReturn(stored);
  }

  /** Side by side from a fresh counter: the script skips the first
      acknowledgement, scolds on the fifth call and starts over on the
      sixth, while the router greets with the first acknowledgement and
      keeps scolding once the five are used up. */
  lemma LegacyAndRouterDiverge()
    ensures WakeRun(0, 6) ==
      [Router.Acknowledgements[1], Router.Acknowledgements[2], Router.Acknowledgements[3],
       Router.Acknowledgements[4], Router.Scolding, Router.Acknowledgements[0]]
    ensures Router.WakeReplies(0, 6) ==
      Router.Acknowledgements + [Router.Scolding]
  {
    Router.FreshWakeReplies(6);
  }

  // ---------------------------------------------------------------------
  // The gate of execute_command

  /** The phrases that pass the gate without the wake word. */
  const Whitelist: seq<string> := [
    "สวัสดี", "ชื่ออะไร", "คุณคือใคร", "สวัสดีครับ", "สวัสดีค่ะ", "หวัดดี", "เธอคือใคร",
    "hello", "hi", "คุณชื่ออะไร", "เธอชื่ออะไร", "สวัสดียูกิ", "ยูกิสวัสดี",
    "กี่โมงแล้ว", "เวลาตอนนี้คือ", "ตอนนี้เวลาเท่าไหร่"
  ]

  const ThaiWake: string := "ยูกิ"

  /** `text.strip().lower() in ["ยูกิ", "yuki"]`. */
  predicate IsBareWake(t: string) {
    Lower(Strip(t)) in [ThaiWake, "yuki"]
  }

  /** What the script does with an utterance: it answers it, or hands a
      command on to the matching that follows. */
  datatype Outcome = Replied(text: string) | Continue(command: string)

  /** What becomes of lower-cased text that is not a bare wake call: it is
      ignored unless it starts with the Thai wake word, which is then
      stripped, or is a whitelisted phrase. */
  function Screen(t: string): Outcome {
    if !StartsWith(t, ThaiWake) && t !in Whitelist then Replied("...")
    else if StartsWith(t, ThaiWake) then Continue(Strip(t[|ThaiWake|..]))
    else Continue(t)
  }

  /** The outcome and the stored count after one utterance. */
  function Step(stored: int, text: string): (Outcome, int) {
    var t := Lower(text);
    if IsBareWake(t) then
      var n := NextCount(stored);
      (Replied(LegacyWakeReply(n)), n)
    else (Screen(t), stored)
  }

  /** The persisted count, read before and written after every bare wake call. */
  class WakeCounter {
    /** The count in `yuki_call_count.json`, or 0 when the file is absent. */
    var stored: int

    constructor (persisted: int)
      ensures stored == persisted
    {
      stored := persisted;
    }

    /** The counter arithmetic of `execute_command`. */
    method Call() returns (reply: string)
      modifies this
      ensures stored == NextCount(old(stored))
      ensures reply == LegacyWakeReply(stored)
    {
      var count := (stored + 1) % 6;
      if count < 5 {
        reply := Router.Acknowledgements[count];
      } else {
        reply := Router.Scolding;
      }
      stored := count;
    }

    /** The part of `execute_command` before the command tables. */
    method Execute(text: string) returns (outcome: Outcome)
      modifies this
      ensures (outcome, stored) == Step(old(stored), text)
    {
      var t := Lower(text);
      if Lower(Strip(t)) in [ThaiWake, "yuki"] {
        var reply := Call();
        return Replied(reply);
      }
      if !StartsWith(t, ThaiWake) && t !in Whitelist {
        return Replied("...");
      }
      if StartsWith(t, ThaiWake) {
        t := Strip(t[|ThaiWake|..]);
      }
      outcome := Continue(t);
    }
  }

  /** The stored count changes only on a bare wake call, and is then in
      0..5 whatever was stored before. */
  lemma CountMovesOnlyOnWake(stored: int, text: string)
    ensures Step(stored, text).1 != stored ==> IsBareWake(Lower(text))
    ensures IsBareWake(Lower(text)) ==> 0 <= Step(stored, text).1 < 6
  {
  }

  /** A bare wake call on a stored count below four answers with the
      acknowledgement one further on: a fresh counter's first call gets
      the second one, "เรียกใช้ยูกิได้เลยค่ะ". */
  lemma WakeSkipsAhead(stored: int, text: string)
    requires 0 <= stored < 4 && IsBareWake(Lower(text))
    ensures Step(stored, text) == (Replied(Router.Acknowledgements[stored + 1]), stored + 1)
  {
    StepOnWake(stored, text);
    NextCountBelowFive(stored);
    AcknowledgedBelowFive(stored + 1);
  }

  lemma NextCountBelowFive(stored: int)
    requires 0 <= stored < 5
    ensures NextCount(stored) == stored + 1
  {
  }

  lemma AcknowledgedBelowFive(n: int)
    requires 0 <= n < 5
    ensures LegacyWakeReply(n) == Router.Acknowledgements[n]
  {
  }

  lemma StepOnWake(stored: int, text: string)
    requires IsBareWake(Lower(text))
    ensures Step(stored, text) == (Replied(LegacyWakeReply(NextCount(stored))), NextCount(stored))
  {
  }

  /** Only the Thai wake word is stripped: an utterance starting with the
      English one that is neither bare nor whitelisted is ignored. */
  lemma EnglishPrefixIgnored(stored: int, text: string)
    requires StartsWith(Lower(text), "yuki") && !IsBareWake(Lower(text))
    ensures Step(stored, text) == (Replied("..."), stored)
  {
    var t := Lower(text);
    EnglishNotThai(t);
    WhitelistNotEnglishWake(t);
    ScreenIgnores(t);
  }

  lemma EnglishNotThai(t: string)
    requires StartsWith(t, "yuki")
    ensures |t| > 0 && t[0] == 'y' && !StartsWith(t, ThaiWake)
  {
    assert t[0] == 'y';
  }

  lemma ScreenIgnores(t: string)
    requires !StartsWith(t, ThaiWake) && t !in Whitelist
    ensures Screen(t) == Replied("...")
  {
  }

  /** No whitelisted phrase begins with "y". */
  lemma WhitelistNotEnglishWake(t: string)
    requires |t| > 0 && t[0] == 'y'
    ensures t !in Whitelist
  {
    forall k | 0 <= k < |Whitelist| ensures Whitelist[k][0] != 'y' {
    }
  }
}
