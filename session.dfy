/**
 * The per-user session (`st.session_state` in main.py): the profile, the
 * symptom log, the conversation and the precomputed cycle day, together with
 * the handlers that change them in place.
 */
module Session {
  import opened Wrappers
  import opened Cycle
  import opened SymptomLog
  import opened Chat

  /** The shortest and longest cycle the onboarding form accepts. */
  const MIN_CYCLE_LENGTH := 21
  const MAX_CYCLE_LENGTH := 40

  /** The canned insights `generate_insight` draws from. */
  const INSIGHTS: seq<string> := [
    "Your mood symptoms seem to intensify during the luteal phase. Magnesium-rich foods like dark chocolate might help.",
    "I notice your energy levels drop during menstruation. Gentle movement like walking or stretching could help maintain energy.",
    "Your bloating symptoms appear consistently before your period. Reducing salt intake and increasing water might help.",
    "You've reported headaches in your follicular phase. Ensuring adequate hydration may help reduce their frequency.",
    "Your sleep quality decreases before menstruation. A consistent bedtime routine might be beneficial."
  ]

  function InsightMessage(insight: string): Message
  {
    Message(Assistant, "**Blossom Insight**: " + insight)
  }

  const WELCOME_TAIL := "! I'm Bloom, your hormonal wellness companion. How are you feeling today?"

  function WelcomeMessage(name: string): Message
  {
    Message(Assistant, "Hi " + name + WELCOME_TAIL)
  }

  /** What the assistant says: the model's reply when it gives one, otherwise the fallback text. */
  function ChatResponse(llmReply: Option<string>, prompt: string, cycleDay: Option<int>, pick: nat): string
    requires pick < TEMPLATE_COUNT
  {
    match llmReply
    case Some(text) => text
    case None => AnswerText(FallbackAnswer(prompt, pick), cycleDay)
  }

  /** A logged entry keeps the phase of its own cycle day, and that day lies in some accepted cycle. */
  predicate WellFormedEntry(e: Entry)
  {
    Stamped(e) && (e.cycleDay.Some? ==> 1 <= e.cycleDay.value <= MAX_CYCLE_LENGTH)
  }

  class Session {
    var name: string
    var age: Option<int>
    var cycleLength: Option<int>
    var lastPeriod: Option<int>
    var onboardingComplete: bool
    var log: seq<Entry>
    var messages: seq<Message>
    var cycleDay: Option<int>

    /**
     * A completed profile has a last-period date and an accepted cycle length;
     * a known cycle day lies within that cycle; every logged entry is well formed.
     */
    ghost predicate Valid()
      reads this
    {
      && (onboardingComplete ==>
            && lastPeriod.Some? && cycleLength.Some?
            && MIN_CYCLE_LENGTH <= cycleLength.value <= MAX_CYCLE_LENGTH)
      && (cycleDay.Some? ==> onboardingComplete && 1 <= cycleDay.value <= cycleLength.value)
      && (forall i :: 0 <= i < |log| ==> WellFormedEntry(log[i]))
    }

    /** The state set up when the app first runs in a session. */
    constructor ()
      ensures Valid()
      ensures name == "" && age.None? && cycleLength.None? && lastPeriod.None?
      ensures !onboardingComplete && log == [] && messages == [] && cycleDay.None?
    {
      name := "";
      age := None;
      cycleLength := None;
      lastPeriod := None;
      onboardingComplete := false;
      log := [];
      messages := [];
      cycleDay := None;
    }

    /**
     * `log_symptom`: appends one entry, stamped with today's date and the
     * session's current cycle day and phase; nothing else changes.
     */
    method LogSymptom(today: int, symptom: string, intensity: int, notes: string)
      requires Valid()
      modifies this
      ensures Valid()
      ensures log == old(log) + [NewEntry(today, cycleDay, symptom, intensity, notes)]
      ensures |log| == |old(log)| + 1 && log[..|old(log)|] == old(log)
      ensures log[|log| - 1].phase == PhaseOf(cycleDay, DEFAULT_CYCLE_LENGTH)
      ensures messages == old(messages) && cycleDay == old(cycleDay)
      ensures name == old(name) && age == old(age) && cycleLength == old(cycleLength)
      ensures lastPeriod == old(lastPeriod) && onboardingComplete == old(onboardingComplete)
    {
      var e := NewEntry(today, cycleDay, symptom, intensity, notes);
      log := log + [e];
      assert log[..|old(log)|] == old(log);
    }

    /**
     * The "Log Symptom" button: logs the entry, then adds an insight message
     * whenever the log length becomes a multiple of 3. `pick` is the index
     * `random.choice` draws in the insight pool.
     */
    method TrackSymptom(today: int, symptom: string, intensity: int, notes: string, pick: nat)
      requires Valid()
      requires symptom in SYMPTOM_CHOICES && 1 <= intensity <= 5
      requires pick < |INSIGHTS|
      modifies this
      ensures Valid()
      ensures log == old(log) + [NewEntry(today, cycleDay, symptom, intensity, notes)]
      ensures messages == old(messages) + (if |log| % 3 == 0 then [InsightMessage(INSIGHTS[pick])] else [])
      ensures cycleDay == old(cycleDay)
      ensures name == old(name) && age == old(age) && cycleLength == old(cycleLength)
      ensures lastPeriod == old(lastPeriod) && onboardingComplete == old(onboardingComplete)
    {
      LogSymptom(today, symptom, intensity, notes);
      if |log| % 3 == 0 {
        messages := messages + [InsightMessage(INSIGHTS[pick])];
      }
    }

    /**
     * The "Complete Profile" button: stores the profile, computes the cycle day
     * for `today` and greets the user by name. The symptom log is untouched.
     */
    method CompleteOnboarding(today: int, newName: string, newAge: int, newCycleLength: int, newLastPeriod: int)
      requires Valid() && !onboardingComplete
      requires 18 <= newAge <= 65
      requires MIN_CYCLE_LENGTH <= newCycleLength <= MAX_CYCLE_LENGTH
      modifies this
      ensures Valid()
      ensures name == newName && age == Some(newAge) && cycleLength == Some(newCycleLength)
      ensures lastPeriod == Some(newLastPeriod) && onboardingComplete
      ensures cycleDay == CycleDay(today, Some(newLastPeriod), Some(newCycleLength))
      ensures cycleDay.Some? && 1 <= cycleDay.value <= newCycleLength
      ensures messages == old(messages) + [WelcomeMessage(newName)]
      ensures log == old(log)
    {
      name := newName;
      age := Some(newAge);
      cycleLength := Some(newCycleLength);
      lastPeriod := Some(newLastPeriod);
      onboardingComplete := true;
      cycleDay := CycleDay(today, Some(newLastPeriod), Some(newCycleLength));
      assert EffectiveLength(Some(newCycleLength)) == newCycleLength;
      messages := messages + [WelcomeMessage(newName)];
    }

    /** Each run of the main view after onboarding recomputes the cycle day for `today`. */
    method RefreshCycleDay(today: int)
      requires Valid() && onboardingComplete
      modifies this
      ensures Valid()
      ensures cycleDay == CycleDay(today, lastPeriod, cycleLength)
      ensures cycleDay.Some? && 1 <= cycleDay.value <= cycleLength.value
      ensures log == old(log) && messages == old(messages)
      ensures name == old(name) && age == old(age) && cycleLength == old(cycleLength)
      ensures lastPeriod == old(lastPeriod) && onboardingComplete == old(onboardingComplete)
    {
      cycleDay := CycleDay(today, lastPeriod, cycleLength);
    }

    /**
     * A chat message: the user's text is recorded, then the assistant's answer.
     * `llm` stands for the language-model collaborator: given the context and
     * the prompt, its reply, or None when it could not be set up. `pick` is the
     * template index `random.choice` draws for the fallback. The chat input
     * hands over only non-empty text; an empty submission does not reach here.
     */
    method HandleChat(prompt: string, llm: (PromptContext, string) -> Option<string>, pick: nat)
      requires Valid() && pick < TEMPLATE_COUNT
      requires prompt != ""
      modifies this
      ensures Valid()
      ensures messages == old(messages) + [
        Message(User, prompt),
        Message(Assistant, ChatResponse(llm(ContextFor(cycleDay, log), prompt), prompt, cycleDay, pick))]
      ensures log == old(log) && cycleDay == old(cycleDay)
      ensures name == old(name) && age == old(age) && cycleLength == old(cycleLength)
      ensures lastPeriod == old(lastPeriod) && onboardingComplete == old(onboardingComplete)
    {
      messages := messages + [Message(User, prompt)];
      var reply := llm(ContextFor(cycleDay, log), prompt);
      var response := ChatResponse(reply, prompt, cycleDay, pick);
      messages := messages + [Message(Assistant, response)];
    }
  }

  /**
   * A session's first steps: onboarding greets the user, the third logged
   * symptom brings an insight, and every entry carries the phase of its day.
   */
  method FirstWeek(today: int, pick: nat)
    requires pick < |INSIGHTS|
  {
    var s := new Session();
    s.CompleteOnboarding(today, "Ada", 30, 28, today - 14);
    assert s.cycleDay == Some(15);
    s.TrackSymptom(today, "Cramps", 2, "", pick);
    s.TrackSymptom(today, "Fatigue", 4, "", pick);
    assert |s.messages| == 1;
    s.TrackSymptom(today, "Bloating", 3, "", pick);
    assert s.messages == [WelcomeMessage("Ada"), InsightMessage(INSIGHTS[pick])];
    assert s.log[0].phase == Ovulatory;
  }
}
