/** The values a custom haptic pattern is made of: single timed CoreHaptics
    events, and facts about a timeline of them.

    Times are whole milliseconds from the start of the pattern, so that the
    short decimal constants of the app (0.05 s, 0.15 s, 1.2 s, ...) are exact. */
module HapticEvents {

  /** One CHHapticEvent. A transient is a single tap and carries no duration;
      a continuous event vibrates for `duration` milliseconds. */
  datatype HapticEvent =
    | Transient(intensity: real, sharpness: real, relativeTime: int)
    | Continuous(intensity: real, sharpness: real, relativeTime: int, duration: int)

  /** The instant at which the event stops playing. */
  function EndTime(e: HapticEvent): int
  {
    match e
    case Transient(_, _, t) => t
    case Continuous(_, _, t, d) => t + d
  }

  /** Intensity and sharpness are normalised to [0, 1], no event starts before
      the pattern, and a continuous event lasts a positive time. */
  predicate WellFormed(e: HapticEvent)
  {
    0.0 <= e.intensity <= 1.0 &&
    0.0 <= e.sharpness <= 1.0 &&
    e.relativeTime >= 0 &&
    (e.Continuous? ==> e.duration > 0)
  }

  predicate AllWellFormed(events: seq<HapticEvent>)
  {
    forall i :: 0 <= i < |events| ==> WellFormed(events[i])
  }

  /** Every event starts strictly after the one appended before it. */
  predicate StartsStrictlyIncreasing(events: seq<HapticEvent>)
  {
    forall i, j :: 0 <= i < j < |events| ==> events[i].relativeTime < events[j].relativeTime
  }

  /** No event starts before the one appended before it. */
  predicate StartsNonDecreasing(events: seq<HapticEvent>)
  {
    forall i, j :: 0 <= i <= j < |events| ==> events[i].relativeTime <= events[j].relativeTime
  }

  /** The instant the last event of a timeline stops playing (0 when there are
      none): an upper bound of every end time that some event attains. */
  function TimelineEnd(events: seq<HapticEvent>): (t: int)
    ensures forall i :: 0 <= i < |events| ==> EndTime(events[i]) <= t
    ensures |events| == 0 ==> t == 0
    ensures |events| > 0 ==> exists i :: 0 <= i < |events| && EndTime(events[i]) == t
  {
    if |events| == 0 then 0
    else if |events| == 1 then EndTime(events[0])
    else
      var earlier := TimelineEnd(events[..|events| - 1]);
      var last := EndTime(events[|events| - 1]);
      if last > earlier then last else earlier
  }

  /** Comparing neighbours is enough for a strictly increasing timeline. */
  lemma {:induction false} StrictlyIncreasingFromNeighbours(events: seq<HapticEvent>)
    requires forall i :: 0 <= i < |events| - 1 ==> events[i].relativeTime < events[i + 1].relativeTime
    ensures StartsStrictlyIncreasing(events)
  {
    if |events| > 1 {
      var front := events[..|events| - 1];
      StrictlyIncreasingFromNeighbours(front);
      forall i, j | 0 <= i < j < |events|
        ensures events[i].relativeTime < events[j].relativeTime
      {
        if j < |events| - 1 {
          assert front[i] == events[i] && front[j] == events[j];
        } else if i < j - 1 {
          assert front[i] == events[i] && front[j - 1] == events[j - 1];
        }
      }
    }
  }

  /** Comparing neighbours is enough for a non-decreasing timeline. */
  lemma {:induction false} NonDecreasingFromNeighbours(events: seq<HapticEvent>)
    requires forall i :: 0 <= i < |events| - 1 ==> events[i].relativeTime <= events[i + 1].relativeTime
    ensures StartsNonDecreasing(events)
  {
    if |events| > 1 {
      var front := events[..|events| - 1];
      NonDecreasingFromNeighbours(front);
      forall i, j | 0 <= i <= j < |events|
        ensures events[i].relativeTime <= events[j].relativeTime
      {
        if j < |events| - 1 {
          assert front[i] == events[i] && front[j] == events[j];
        } else if i < j - 1 {
          assert front[i] == events[i] && front[j - 1] == events[j - 1];
        }
      }
    }
  }
}
