/**
 * One entry of `symptoms_log` as `log_symptom` builds it: the date, cycle day
 * and phase at the moment of logging, followed by what the user reported.
 */
module SymptomLog {
  import opened Wrappers
  import opened Cycle

  datatype Entry = Entry(
    date: int,
    cycleDay: Option<int>,
    phase: Phase,
    symptom: string,
    intensity: int,
    notes: string)

  /** The choices the symptom tracker offers. */
  const SYMPTOM_CHOICES: seq<string> :=
    ["Mood swings", "Anxiety", "Fatigue", "Bloating", "Cramps", "Headache", "Acne", "Cravings", "Other"]

  /**
   * The entry logged on `today` while the session's cycle day is `cycleDay`:
   * its phase is classified with the default length of 28, not the user's.
   */
  function NewEntry(today: int, cycleDay: Option<int>, symptom: string, intensity: int, notes: string): (e: Entry)
    ensures e.date == today && e.cycleDay == cycleDay
    ensures e.symptom == symptom && e.intensity == intensity && e.notes == notes
    ensures e.phase == PhaseOf(cycleDay, DEFAULT_CYCLE_LENGTH)
    ensures e.phase == Unknown <==> cycleDay.None?
  {
    Entry(today, cycleDay, PhaseOf(cycleDay, DEFAULT_CYCLE_LENGTH), symptom, intensity, notes)
  }

  /** The phase an entry carries is the one its own cycle day gets with length 28. */
  predicate Stamped(e: Entry)
  {
    e.phase == PhaseOf(e.cycleDay, DEFAULT_CYCLE_LENGTH)
  }
}
