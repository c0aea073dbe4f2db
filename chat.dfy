/**
 * The deterministic parts of `render_chat_interface`: the recent-symptoms
 * summary handed to the language model, the rest of its context, and the
 * keyword responder used when no model is available.
 */
module Chat {
  import opened Wrappers
  import opened Text
  import opened Cycle
  import opened SymptomLog

  datatype Role = User | Assistant

  datatype Message = Message(role: Role, content: string)

  const NO_RECENT_SYMPTOMS := "No recent symptoms logged."

  /** One entry as the summary shows it: `symptom (intensity: N)`. */
  function FormatEntry(e: Entry): (r: string)
    ensures |r| > 0 && r[|r| - 1] == ')'
  {
    e.symptom + " (intensity: " + IntToString(e.intensity) + ")"
  }

  function FormatAll(entries: seq<Entry>): (r: seq<string>)
    ensures |r| == |entries|
    ensures forall i :: 0 <= i < |entries| ==> r[i] == FormatEntry(entries[i])
  {
    seq(|entries|, i requires 0 <= i < |entries| => FormatEntry(entries[i]))
  }

  /** Python's `log[-3:]`: the last three entries, or all of them when there are fewer. */
  function LastThree(log: seq<Entry>): (r: seq<Entry>)
    ensures |r| == if |log| < 3 then |log| else 3
    ensures r == log[|log| - |r|..]
  {
    if |log| < 3 then log else log[|log| - 3..]
  }

  /** The recent-symptoms summary: the last entries, oldest first, joined by ", ". */
  function RecentSymptoms(log: seq<Entry>): string
  {
    if |log| == 0 then NO_RECENT_SYMPTOMS else Join(FormatAll(LastThree(log)), ", ")
  }

  /** The "no recent symptoms" text appears exactly when nothing has been logged. */
  lemma RecentSymptomsEmptyIff(log: seq<Entry>)
    ensures RecentSymptoms(log) == NO_RECENT_SYMPTOMS <==> |log| == 0
  {
    if |log| > 0 {
      JoinEndsWithLast(FormatAll(LastThree(log)), ", ");
      assert NO_RECENT_SYMPTOMS[|NO_RECENT_SYMPTOMS| - 1] == '.';
    }
  }

  /** A join of parts that all end in ')' ends in ')'. */
  lemma {:induction false} JoinEndsWithLast(parts: seq<string>, sep: string)
    requires |parts| > 0
    requires forall i :: 0 <= i < |parts| ==> |parts[i]| > 0 && parts[i][|parts[i]| - 1] == ')'
    ensures var j := Join(parts, sep); |j| > 0 && j[|j| - 1] == ')'
    decreases |parts|
  {
    if |parts| > 1 {
      JoinEndsWithLast(parts[1..], sep);
    }
  }

  /** With one entry logged, the summary is that entry. */
  lemma RecentSymptomsOne(log: seq<Entry>)
    requires |log| == 1
    ensures RecentSymptoms(log) == FormatEntry(log[0])
  {
    var parts := FormatAll(LastThree(log));
    assert |parts| == 1 && parts[0] == FormatEntry(log[0]);
  }

  /** With two entries logged, the summary shows both in log order. */
  lemma RecentSymptomsTwo(log: seq<Entry>)
    requires |log| == 2
    ensures RecentSymptoms(log) == FormatEntry(log[0]) + ", " + FormatEntry(log[1])
  {
    var parts := FormatAll(LastThree(log));
    assert |parts| == 2 && parts[0] == FormatEntry(log[0]) && parts[1] == FormatEntry(log[1]);
    assert |parts[1..]| == 1 && parts[1..][0] == parts[1];
    assert Join(parts[1..], ", ") == parts[1];
  }

  /** With three or more entries logged, the summary shows the last three in log order. */
  lemma RecentSymptomsThree(log: seq<Entry>)
    requires |log| >= 3
    ensures RecentSymptoms(log) == FormatEntry(log[|log| - 3]) + ", " + FormatEntry(log[|log| - 2])
                                   + ", " + FormatEntry(log[|log| - 1])
  {
    var n := |log|;
    var parts := FormatAll(LastThree(log));
    JoinThree(parts, ", ");
    assert parts[0] == FormatEntry(log[n - 3]) && parts[1] == FormatEntry(log[n - 2]) && parts[2] == FormatEntry(log[n - 1]);
  }

  lemma JoinThree(parts: seq<string>, sep: string)
    requires |parts| == 3
    ensures Join(parts, sep) == parts[0] + sep + parts[1] + sep + parts[2]
  {
    assert |parts[1..]| == 2 && parts[1..][0] == parts[1] && parts[1..][1] == parts[2];
    assert |parts[1..][1..]| == 1 && parts[1..][1..][0] == parts[2];
    assert Join(parts[1..][1..], sep) == parts[2];
    assert Join(parts[1..], sep) == parts[1] + sep + parts[2];
  }

  /** Entries older than the last three never reach the summary. */
  lemma RecentSymptomsIgnoresOlder(older: seq<Entry>, log: seq<Entry>)
    requires |log| >= 3
    ensures RecentSymptoms(older + log) == RecentSymptoms(log)
  {
    var all := older + log;
    assert all[|all| - 3..] == log[|log| - 3..];
    assert LastThree(all) == LastThree(log);
  }

  /** The entry logged last is the last item of the summary. */
  lemma RecentSymptomsEndsWithNewest(log: seq<Entry>, e: Entry)
    ensures var r := RecentSymptoms(log + [e]);
      var f := FormatEntry(e);
      |f| <= |r| && r[|r| - |f|..] == f
  {
    var all := log + [e];
    var r := RecentSymptoms(all);
    var f := FormatEntry(e);
    var n := |all|;
    assert all[n - 1] == e;
    if n == 1 {
      RecentSymptomsOne(all);
    } else if n == 2 {
      RecentSymptomsTwo(all);
      assert r == (FormatEntry(all[0]) + ", ") + f;
    } else {
      RecentSymptomsThree(all);
      assert r == (FormatEntry(all[n - 3]) + ", " + FormatEntry(all[n - 2]) + ", ") + f;
    }
  }

  /** The context handed to the language model besides the conversation itself. */
  datatype PromptContext = PromptContext(cycleDay: string, phase: string, recentSymptoms: string)

  /**
   * `cycle_day or "Unknown"`, `get_phase_info(cycle_day) or "Unknown"` and the
   * recent-symptoms summary.
   */
  function ContextFor(cycleDay: Option<int>, log: seq<Entry>): (c: PromptContext)
    ensures c.cycleDay == "Unknown" <==> cycleDay.None? || cycleDay.value == 0
    ensures c.phase == "Unknown" <==> cycleDay.None?
    ensures c.phase == Label(PhaseOf(cycleDay, DEFAULT_CYCLE_LENGTH))
    ensures cycleDay.Some? && cycleDay.value != 0 ==> c.cycleDay == IntToString(cycleDay.value)
    ensures c.recentSymptoms == RecentSymptoms(log)
  {
    var day := if cycleDay.None? || cycleDay.value == 0 then "Unknown" else IntToString(cycleDay.value);
    var phase := Label(PhaseOf(cycleDay, DEFAULT_CYCLE_LENGTH));
    LabelInjective(PhaseOf(cycleDay, DEFAULT_CYCLE_LENGTH), Unknown);
    PromptContext(day, phase, RecentSymptoms(log))
  }

  const FATIGUE_WORDS := ["tired", "exhausted", "fatigue"]
  const ANXIETY_WORDS := ["anxious", "anxiety", "worried"]
  const PAIN_WORDS := ["cramps", "pain"]

  /** Which answer the fallback responder gives; `Canned(i)` is template `i` of the four. */
  datatype Answer = FatigueAnswer | AnxietyAnswer | PainAnswer | Canned(index: nat)

  /** Python's f-string rendering of the session's cycle day. */
  function PyStr(cycleDay: Option<int>): (r: string)
    ensures r == "None" <==> cycleDay.None?
    ensures cycleDay.Some? ==> r == IntToString(cycleDay.value)
  {
    match cycleDay
    case None => "None"
    case Some(d) => IntToString(d)
  }

  /** The text of each answer; the first template quotes the cycle day. */
  function AnswerText(a: Answer, cycleDay: Option<int>): string
  {
    match a
    case FatigueAnswer =>
      "Fatigue can be common, especially during your luteal phase. Would you like some energy-boosting tips that align with your current cycle phase?"
    case AnxietyAnswer =>
      "I notice you're feeling anxious. This is common during hormonal fluctuations. Deep breathing or a short walk might help regulate your nervous system."
    case PainAnswer =>
      "I'm sorry you're experiencing pain. A warm compress and anti-inflammatory foods might provide some relief. Would you like more specific suggestions?"
    case Canned(i) =>
      if i == 0 then
        "I understand how challenging hormonal symptoms can be. Based on your cycle day ("
        + PyStr(cycleDay) + "), this is normal. How can I support you today?"
      else if i == 1 then
        "Thank you for sharing how you're feeling. Would you like some suggestions for managing these symptoms?"
      else if i == 2 then
        "I'm here to listen and help. Have you noticed any patterns with these symptoms?"
      else
        "That sounds difficult. Many women experience similar challenges. Would gentle movement or stress reduction techniques help right now?"
  }

  /** The first template quotes the session's cycle day as Python prints it. */
  lemma AnswerTextQuotesCycleDay(cycleDay: Option<int>)
    ensures Contains(AnswerText(Canned(0), cycleDay), PyStr(cycleDay))
  {
    ContainsInfix(
      "I understand how challenging hormonal symptoms can be. Based on your cycle day (",
      PyStr(cycleDay),
      "), this is normal. How can I support you today?");
  }

  /** Number of canned templates `random.choice` draws from. */
  const TEMPLATE_COUNT := 4

  /** `"tired" in prompt or "exhausted" in prompt or "fatigue" in prompt` */
  predicate MentionsFatigue(prompt: string)
  {
    Contains(prompt, "tired") || Contains(prompt, "exhausted") || Contains(prompt, "fatigue")
  }

  /** `"anxious" in prompt or "anxiety" in prompt or "worried" in prompt` */
  predicate MentionsAnxiety(prompt: string)
  {
    Contains(prompt, "anxious") || Contains(prompt, "anxiety") || Contains(prompt, "worried")
  }

  /** `"cramps" in prompt or "pain" in prompt` */
  predicate MentionsPain(prompt: string)
  {
    Contains(prompt, "cramps") || Contains(prompt, "pain")
  }

  /**
   * The fallback responder: the template drawn at index `pick`, overridden by
   * the fatigue, anxiety or pain answer, checked in that order.
   */
  function FallbackAnswer(prompt: string, pick: nat): (a: Answer)
    requires pick < TEMPLATE_COUNT
    ensures a.Canned? ==> a.index == pick
  {
    if MentionsFatigue(prompt) then FatigueAnswer
    else if MentionsAnxiety(prompt) then AnxietyAnswer
    else if MentionsPain(prompt) then PainAnswer
    else Canned(pick)
  }

  /** A fatigue word anywhere in the message decides the answer, whatever else it says. */
  lemma FatigueWins(a: string, w: string, b: string, pick: nat)
    requires w in FATIGUE_WORDS && pick < TEMPLATE_COUNT
    ensures FallbackAnswer(a + w + b, pick) == FatigueAnswer
  {
    ContainsInfix(a, w, b);
  }

  /** Without a fatigue word, an anxiety word decides the answer, even beside a pain word. */
  lemma AnxietyBeforePain(a: string, w: string, b: string, pick: nat)
    requires w in ANXIETY_WORDS && pick < TEMPLATE_COUNT
    requires !MentionsFatigue(a + w + b)
    ensures FallbackAnswer(a + w + b, pick) == AnxietyAnswer
  {
    ContainsInfix(a, w, b);
  }

  /** With neither fatigue nor anxiety words, a pain word decides the answer. */
  lemma PainLast(a: string, w: string, b: string, pick: nat)
    requires w in PAIN_WORDS && pick < TEMPLATE_COUNT
    requires !MentionsFatigue(a + w + b) && !MentionsAnxiety(a + w + b)
    ensures FallbackAnswer(a + w + b, pick) == PainAnswer
  {
    ContainsInfix(a, w, b);
  }

  /** Some word of `words` occurs in `prompt`. */
  predicate MentionsAny(prompt: string, words: seq<string>)
  {
    exists w :: w in words && Contains(prompt, w)
  }

  lemma {:induction false} MentionsFatigueIffList(prompt: string)
    ensures MentionsFatigue(prompt) <==> MentionsAny(prompt, FATIGUE_WORDS)
  {
    var ws := FATIGUE_WORDS;
    assert ws[0] == "tired" && ws[1] == "exhausted" && ws[2] == "fatigue";
    assert ws[0] in ws && ws[1] in ws && ws[2] in ws;
    if MentionsAny(prompt, ws) {
      var w :| w in ws && Contains(prompt, w);
    }
  }

  lemma {:induction false} MentionsAnxietyIffList(prompt: string)
    ensures MentionsAnxiety(prompt) <==> MentionsAny(prompt, ANXIETY_WORDS)
  {
    var ws := ANXIETY_WORDS;
    assert ws[0] == "anxious" && ws[1] == "anxiety" && ws[2] == "worried";
    assert ws[0] in ws && ws[1] in ws && ws[2] in ws;
    if MentionsAny(prompt, ws) {
      var w :| w in ws && Contains(prompt, w);
    }
  }

  lemma {:induction false} MentionsPainIffList(prompt: string)
    ensures MentionsPain(prompt) <==> MentionsAny(prompt, PAIN_WORDS)
  {
    var ws := PAIN_WORDS;
    assert ws[0] == "cramps" && ws[1] == "pain";
    assert ws[0] in ws && ws[1] in ws;
    if MentionsAny(prompt, ws) {
      var w :| w in ws && Contains(prompt, w);
    }
  }

  /**
   * The answer in terms of the three keyword lists: the first list, in the
   * order fatigue, anxiety, pain, that has a word in the message decides it.
   */
  lemma FallbackAnswerByWordLists(prompt: string, pick: nat)
    requires pick < TEMPLATE_COUNT
    ensures var a := FallbackAnswer(prompt, pick);
      && (a == FatigueAnswer <==> MentionsAny(prompt, FATIGUE_WORDS))
      && (a == AnxietyAnswer <==> !MentionsAny(prompt, FATIGUE_WORDS) && MentionsAny(prompt, ANXIETY_WORDS))
      && (a == PainAnswer <==>
            !MentionsAny(prompt, FATIGUE_WORDS) && !MentionsAny(prompt, ANXIETY_WORDS) && MentionsAny(prompt, PAIN_WORDS))
  {
    MentionsFatigueIffList(prompt);
    MentionsAnxietyIffList(prompt);
    MentionsPainIffList(prompt);
  }

  /** The answer is the drawn template exactly when no keyword of the three groups occurs. */
  lemma CannedIffNoKeyword(prompt: string, pick: nat)
    requires pick < TEMPLATE_COUNT
    ensures FallbackAnswer(prompt, pick) == Canned(pick)
       <==> forall w :: w in FATIGUE_WORDS + ANXIETY_WORDS + PAIN_WORDS ==> !Contains(prompt, w)
  {
    var all := FATIGUE_WORDS + ANXIETY_WORDS + PAIN_WORDS;
    assert all == ["tired", "exhausted", "fatigue", "anxious", "anxiety", "worried", "cramps", "pain"];
    if forall w :: w in all ==> !Contains(prompt, w) {
      assert all[0] in all && all[1] in all && all[2] in all && all[3] in all;
      assert all[4] in all && all[5] in all && all[6] in all && all[7] in all;
    } else {
      var w :| w in all && Contains(prompt, w);
    }
  }

  /** A message mentioning both tiredness and anxiety gets the fatigue answer. */
  lemma TiredAndAnxious(pick: nat)
    requires pick < TEMPLATE_COUNT
    ensures FallbackAnswer("I feel tired and anxious", pick) == FatigueAnswer
  {
    assert "I feel tired and anxious" == "I feel " + "tired" + " and anxious";
    FatigueWins("I feel ", "tired", " and anxious", pick);
  }

  /** The keyword tests are case-sensitive: "Tired" is not "tired". */
  lemma CapitalisedKeywordMissed(pick: nat)
    requires pick < TEMPLATE_COUNT
    ensures FallbackAnswer("Tired", pick) == Canned(pick)
  {
    assert !Contains("Tired", "tired") by {
      assert "Tired"[0] != "tired"[0];
      assert "Tired"[1..] == "ired";
      assert !Contains("ired", "tired");
    }
    assert !Contains("Tired", "pain") by {
      assert "Tired"[0] != "pain"[0];
      assert "Tired"[1..] == "ired";
      assert "ired"[0] != "pain"[0];
      assert "ired"[1..] == "red";
      assert !Contains("red", "pain");
      assert !Contains("ired", "pain");
    }
  }
}
