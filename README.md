# Blossom cycle and symptom analytics, in Dafny

Blossom is a Streamlit chatbot for hormonal wellness. This project models its
small analytics core from `main.py`:

- **Cycle day**: the 1-based position of today in the cycle that began on the
  last period, with Python's floored `%` and the `cycle_length or 28` fallback
  (module `Cycle`).
- **Phase**: the menstrual, follicular, ovulatory or luteal phase of a cycle
  day, found by an ordered chain of range tests. The follicular end is
  `int(L * 0.5)`, truncated toward zero (module `Cycle`).
- **Symptom log entry**: stamped with the date, the session's cycle day and
  that day's phase. The phase uses the default length 28, not the user's
  length (module `SymptomLog`).
- **Pattern analysis**: groups the log by (phase text, symptom) in pandas'
  sorted key order, and names the first group whose mean intensity is above 3
  (module `Patterns`).
- **Chat context**: the recent-symptoms summary (the last three entries,
  formatted and joined by ", "), plus the cycle-day and phase fields handed to
  the language model (module `Chat`).
- **Keyword responder**: the fallback used when no model is available. It
  gives a random template, overridden by the fatigue, anxiety or pain answer in
  that order. Matching is case-sensitive (module `Chat`).
- **Session**: a class whose fields are the profile, the log, the
  conversation and the cycle day. Its methods are the onboarding form, the
  "Log Symptom" button (an insight on every third log), the per-run cycle-day
  refresh and a chat turn (module `Session`).

Dates are whole day numbers. "Today" is a parameter. Each `random.choice` is
an index parameter. The language model is a function parameter that returns
`None` when no model could be set up.

Two behaviours of the code worth knowing:

- The analysis names the first qualifying group in sorted key order, not the
  one with the highest mean. The order is Follicular, Luteal, Menstrual,
  Ovulatory, Unknown, then by symptom. `Patterns.FirstNotHighest` shows a
  Follicular group of mean 4 named before a Luteal group of mean 5.
- No call of `get_phase_info` passes a length (main.py:65, 266, 340), so every
  phase is classified with the default length 28, whatever the user's cycle
  length is.

`identify_patterns` (main.py:72) is not called anywhere in main.py. It is
modelled because it is the program's pattern analysis.

## Model

| member | source | states |
|---|---|---|
| Cycle.PyMod | main.py:39 | Python's `%`: the result is congruent to `a` modulo `b`, and lies in `[0, b)` for a positive divisor and in `(b, 0]` for a negative one |
| Cycle.EffectiveLength | main.py:38 | `cycle_length or 28`: the stored length when it is set and non-zero, otherwise 28; never 0, so the modulo is always defined |
| Cycle.CycleDay | main.py:34-40 | None exactly when no last-period date is known; otherwise a day in `1..L` for a positive length |
| Cycle.CycleDayOffset | main.py:37-39 | writing the days since the last period as `q` whole cycles plus `r` days (`0 <= r < L`), the cycle day is `r + 1` |
| Cycle.CycleDayOnLastPeriod | main.py:37-39 | on the first day of the last period the cycle day is 1, for every start date and every stored length |
| Cycle.CycleDayPeriodic | main.py:37-39 | moving today by one cycle length leaves the cycle day unchanged |
| Cycle.CycleDayAdvances | main.py:37-39 | the next calendar day is the next cycle day, and the last day wraps to 1 |
| Cycle.TruncHalf | main.py:47 | `int(L * 0.5)`: half of L truncated toward zero, for negative L as well |
| Cycle.PhaseOf | main.py:42-58 | the phase is Unknown exactly when the cycle day is None |
| Cycle.Label | main.py:45-58 | definition: the five texts the phase lookup returns, "Unknown" and "Menstrual Phase" to "Luteal Phase" |
| Cycle.LabelInjective | main.py:45-58 | the five phase texts are pairwise different, so grouping by the text is grouping by the phase |
| Cycle.PhaseIntervals | main.py:47-58 | for a length of at least 10, each phase is exactly an interval: Menstrual `1..5`, Follicular `6..L/2`, Ovulatory `L/2+1..L/2+3`, Luteal everything else, including day 0, negative days and days past L |
| Cycle.DefaultPhaseTable | main.py:42-58 | with the default 28, days 1-5, 6-14, 15-17 and 18-28 are Menstrual, Follicular, Ovulatory and Luteal |
| Cycle.PhaseMonotone | main.py:51-58 | from day 1 on, a later day never has an earlier phase, for any cycle length |
| SymptomLog.NewEntry | main.py:60-69 | the entry keeps today's date, the session's cycle day and the reported fields; its phase is that day's phase with length 28, Unknown exactly when the cycle day is None |
| SymptomLog.SYMPTOM_CHOICES | main.py:194 | definition: the nine symptoms the tracker offers, in the widget's order |
| SymptomLog.Stamped | main.py:64-65 | definition: an entry carries the phase its own cycle day gets at length 28, which it keeps from the moment it is logged |
| Patterns.KeyLessStrictTotal | main.py:82 | the sorted order of the group keys (phase text, then symptom, as Python strings) is irreflexive, asymmetric, transitive and total |
| Patterns.PhaseTextOrder | main.py:82 | sorting by phase text puts the phases in the order Follicular, Luteal, Menstrual, Ovulatory, Unknown |
| Text.StrLess | main.py:82 | definition: Python's string order, by code point, with a proper prefix first |
| Patterns.KeyLess | main.py:82 | definition: the order of sorted group keys, the phase text first, then the symptom |
| Patterns.GroupCount | main.py:82 | definition: the number of entries with the given phase and symptom |
| Patterns.GroupSum | main.py:82 | definition: the total intensity of those entries |
| Patterns.MeanIntensity | main.py:82 | definition: the exact mean intensity of the group, as a real number |
| Patterns.HighIntensity | main.py:83 | definition: the group's mean is above 3, written without division as `sum > 3 * count` |
| Patterns.HighIntensityIsMeanAboveThree | main.py:82-83 | for a group that occurs, the integer test `sum > 3 * count` holds exactly when the real mean intensity is above 3 |
| Patterns.HighGroupOccurs | main.py:82-83 | only a group that labels some logged entry can have a mean above 3 |
| Patterns.LeastHigh | main.py:82-87 | None exactly when no entry's group has a mean above 3; otherwise a qualifying key that occurs in the log and that no qualifying key precedes |
| Patterns.PatternSentence | main.py:86-87 | the sentence naming a group's symptom and phase text; it starts with "You", so it is neither of the other two results |
| Patterns.IdentifyPatterns | main.py:72-90 | fewer than 3 entries give "not enough data"; otherwise "still analyzing" exactly when no group's mean is above 3, and in every other case the sentence for a qualifying group that no qualifying group precedes |
| Patterns.OutcomesDistinct | main.py:75-90 | the three kinds of result are different texts, so a caller can tell them apart |
| Patterns.IdentifyPatternsNamesFirstGroup | main.py:82-88 | with at least 3 entries, the qualifying group that no other qualifying group precedes is the one named |
| Patterns.LutealMoodExample | main.py:72-90 | two Luteal mood-swing entries of 4 and 5 beside a Follicular headache of 2 name the Luteal mood swings |
| Patterns.SentenceNamesPair | main.py:86-87 | for every group key, the sentence contains both its symptom and its phase text |
| Patterns.LutealMoodSentence | main.py:86-87 | for the Luteal mood-swings key, the sentence is "You tend to experience higher intensity Mood swings during your Luteal Phase." |
| Patterns.FirstNotHighest | main.py:82-87 | the named group is the first in sorted order, not the one with the highest mean |
| Text.ContainsIffOccurs | main.py:354-359 | Python's substring test `w in s` holds exactly when `w` occurs at some position of `s` |
| Text.Contains | main.py:354-359 | definition: Python's `w in s`, case-sensitive; its meaning is stated by ContainsIffOccurs |
| Text.NatToStringRoundTrip | main.py:331 | the decimal text of a natural number reads back as that number |
| Text.NatToString | main.py:331 | `str(n)` for `n >= 0`: non-empty and all decimal digits; a leading '0' only for 0, and then the text is exactly "0" |
| Text.IntToString | main.py:331 | `str(n)`: it starts with '-' exactly for negative numbers; the rest is the canonical decimal text of the absolute value, with no leading zero, and reads back as it |
| Chat.FormatEntry | main.py:331 | one summary item is non-empty and ends in ')' |
| Chat.LastThree | main.py:330 | `log[-3:]`: the last three entries, or every entry when there are fewer |
| Chat.FormatAll | main.py:331 | the list comprehension: one item per entry, in order, each the entry's formatted text |
| Text.Join | main.py:332 | definition: Python's `sep.join(parts)`, the parts in order with `sep` between neighbours |
| Chat.RecentSymptoms | main.py:328-332 | definition: the "no recent symptoms" text for an empty log, otherwise the items of the last three entries joined by ", "; its meaning is stated by the lemmas below |
| Chat.RecentSymptomsEmptyIff | main.py:328-332 | the "no recent symptoms" text appears exactly when the log is empty |
| Chat.RecentSymptomsOne | main.py:328-332 | with one entry, the summary is that entry's item |
| Chat.RecentSymptomsTwo | main.py:328-332 | with two entries, the summary is both items in log order, separated by ", " |
| Chat.RecentSymptomsThree | main.py:328-332 | with three or more entries, the summary is the last three items in log order, separated by ", " |
| Chat.RecentSymptomsIgnoresOlder | main.py:330 | entries older than the last three never change the summary |
| Chat.RecentSymptomsEndsWithNewest | main.py:330-332 | the newest entry's item ends the summary |
| Chat.ContextFor | main.py:337-342 | the model's cycle-day field is "Unknown" exactly when the cycle day is None or 0, and otherwise the day as `str` writes it; its phase field is the phase text of the day with length 28, "Unknown" exactly when the cycle day is None; its summary field is the recent-symptoms summary |
| Chat.PyStr | main.py:346 | how the f-string prints the cycle day: "None" exactly when there is none, otherwise `str` of the day |
| Chat.AnswerText | main.py:345-359 | definition: the texts of the four templates and the three keyword answers |
| Chat.AnswerTextQuotesCycleDay | main.py:346 | the first template contains the cycle day as the f-string prints it |
| Chat.FallbackAnswer | main.py:345-359 | a template answer is the one drawn at the given index |
| Chat.FallbackAnswerByWordLists | main.py:354-359 | the fatigue answer is given exactly when a fatigue word occurs; the anxiety answer exactly when no fatigue word and some anxiety word occur; the pain answer exactly when only pain words occur |
| Chat.MentionsFatigue | main.py:354 | definition: the `or` of the tests for "tired", "exhausted" and "fatigue" |
| Chat.MentionsAnxiety | main.py:356 | definition: the `or` of the tests for "anxious", "anxiety" and "worried" |
| Chat.MentionsPain | main.py:358 | definition: the `or` of the tests for "cramps" and "pain" |
| Chat.MentionsFatigueIffList | main.py:354 | the three-way `or` is "some word of the fatigue list occurs" |
| Chat.MentionsAnxietyIffList | main.py:356 | the three-way `or` is "some word of the anxiety list occurs" |
| Chat.MentionsPainIffList | main.py:358 | the two-way `or` is "some word of the pain list occurs" |
| Chat.FatigueWins | main.py:354-355 | a fatigue word anywhere in the message decides the answer, whatever else the message says |
| Chat.AnxietyBeforePain | main.py:356-357 | without a fatigue word, an anxiety word decides the answer, even beside a pain word |
| Chat.PainLast | main.py:358-359 | with neither fatigue nor anxiety words, a pain word decides the answer |
| Chat.CannedIffNoKeyword | main.py:351-359 | the drawn template survives exactly when none of the eight keywords occurs |
| Chat.TiredAndAnxious | main.py:354-357 | "I feel tired and anxious" gets the fatigue answer |
| Chat.CapitalisedKeywordMissed | main.py:354-359 | the test is case-sensitive: "Tired" gets the drawn template |
| Session.INSIGHTS | main.py:100-106 | definition: the five insights `generate_insight` chooses from |
| Session.InsightMessage | main.py:206-211 | definition: the assistant message "**Blossom Insight**: " followed by the insight |
| Session.WelcomeMessage | main.py:182-185 | definition: the assistant greeting "Hi ", the name, then the fixed welcome text |
| Session.ChatResponse | main.py:336-359 | definition: the model's reply when there is one, otherwise the text of the fallback answer |
| Session.Session.constructor | main.py:19-31 | the first-run state: empty profile, log and conversation, no cycle day, onboarding not complete |
| Session.Session.Valid | main.py:19-185 | definition: a completed profile has a last-period date and a length in 21..40; a known cycle day means onboarding is complete and lies in 1..L; every entry carries its own day's phase at 28, and its day is in 1..40 |
| Session.Session.LogSymptom | main.py:60-70 | appends exactly the new entry and changes nothing else; the session invariant is kept |
| Session.Session.TrackSymptom | main.py:201-211 | logs the entry, then appends the insight message drawn from the pool exactly when the new log length is a multiple of 3 |
| Session.Session.CompleteOnboarding | main.py:171-185 | stores the profile, marks onboarding complete, sets the cycle day for today (within `1..L`) and appends the greeting; the log is unchanged |
| Session.Session.RefreshCycleDay | main.py:409-411 | after onboarding, each run recomputes the cycle day from the stored profile, within `1..L` |
| Session.Session.HandleChat | main.py:316-364 | appends the user's message, then the model's reply to the current context, or the fallback answer when there is no model |
| Session.FirstWeek | main.py:171-211 | usage scenario: onboarding 14 days after the last period gives cycle day 15, the third logged symptom brings one insight, and the first entry is Ovulatory |

## Left out

- The Streamlit interface is not modelled: layout, widgets, CSS, `st.rerun`, the chart dashboard and its five-entry gate, and the data export.
- How the language model works is not modelled: the Ollama client, the prompt template and the conversation memory. It is a function parameter, and an exception raised inside it is not modelled.
- Session.Session.HandleChat: the `try` in `setup_llm` (main.py:114-151) covers only building the chain. `predict` (main.py:337) runs outside it, so a model that fails while answering raises, and the user's message stays without a reply. The model's `None` stands only for a chain that could not be built, so the fallback is reached only then.
- Clocks and randomness are parameters: `datetime.now()` is "today", and each `random.choice` is an index.
- Dates are day numbers, not `%Y-%m-%d` strings, so the log's date field is an integer.
- `save_user_data` does nothing and is left out.
- `generate_insight` is modelled as a choice from the fixed insight list. Its real behaviour is only that choice.
- Cycle.TruncHalf: `cycle_length * 0.5` is a float in the source. The model uses exact integer halving, which gives the same result for every length a float represents exactly.
- Patterns.MeanIntensity: pandas computes the group mean as a float64. The model uses the exact mean. For intensities 1-5, comparing the float mean with 3 gives the same result as the exact mean for any group of realistic size.
- Patterns.IdentifyPatterns: the pandas DataFrame machinery is not modelled, only its result. The `"phase" in columns` guard always holds for logs built by `log_symptom`, so it is not modelled.
- Chat.FallbackAnswer: its own contract states only the template case. The keyword precedence is stated by Chat.FallbackAnswerByWordLists and the lemmas after it.
- Session.Session.CompleteOnboarding: the form's ranges (age 18-65, cycle length 21-40) are preconditions, because the widgets enforce them. The form's defaults, taken from the stored profile, are not modelled.
- Session.Session.TrackSymptom: the symptom choices and the 1-5 slider are preconditions, because the widgets enforce them.
