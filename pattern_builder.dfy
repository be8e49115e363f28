/** The two hand-authored timelines of CustomPatternRow: the phone-ringing
    pattern and the maximum-intensity pattern. Each is built by a method that
    appends events in loops, as the app does, and is specified by a function
    that says where the i-th event stands; the lemmas state what the timelines
    promise (counts, order, bounds, and that the reset delay outlasts them). */
module PatternBuilder {
  import opened HapticEvents

  /** Pause between two rings (0.5 s). */
  const RingGap: nat := 500
  /** The ring count and ring length the app uses (3 rings of 1.2 s). */
  const NumberOfRings: nat := 3
  const RingDuration: nat := 1200

  /** Events per ring: first buzz, four pulses, second buzz. */
  const EventsPerRing: nat := 6

  /** Reset delay of the maximum-intensity pattern (2.1 s), a fixed constant. */
  const MaxIntensityResetDelay: int := 2100

  // ---------------------------------------------------------------------------
  // Ringing pattern

  /** Start of ring `ring`: one ring length plus one gap per earlier ring. */
  function RingStart(ring: nat, ringDuration: nat): int
  {
    ring * (ringDuration + RingGap)
  }

  /** The event in position `slot` of ring `ring`: a continuous first buzz at the
      ring's start, pulses 0..3 as transients 250 ms + 150 ms per pulse later,
      and a continuous second buzz 850 ms after the start. */
  function RingingEvent(ringDuration: nat, ring: nat, slot: nat): HapticEvent
    requires slot < EventsPerRing
  {
    var start := RingStart(ring, ringDuration);
    if slot == 0 then Continuous(1.0, 0.8, start, 200)
    else if slot <= 4 then Transient(0.9, 1.0, start + 250 + (slot - 1) * 150)
    else Continuous(1.0, 0.8, start + 850, 200)
  }

  /** The whole ringing timeline, ring after ring. */
  function RingingTimeline(numberOfRings: nat, ringDuration: nat): seq<HapticEvent>
  {
    seq(EventsPerRing * numberOfRings,
        i requires 0 <= i < EventsPerRing * numberOfRings =>
          RingingEvent(ringDuration, i / EventsPerRing, i % EventsPerRing))
  }

  /** How long after starting the ringing pattern the row goes back to idle. */
  function RingingResetDelay(numberOfRings: nat, ringDuration: nat): int
  {
    numberOfRings * (ringDuration + RingGap)
  }

  /** The nested loops of the ringing pattern: per ring one buzz, four pulses,
      another buzz, appended in that order. */
  method BuildRingingEvents(numberOfRings: nat, ringDuration: nat) returns (events: seq<HapticEvent>)
    ensures events == RingingTimeline(numberOfRings, ringDuration)
  {
    events := [];
    for ring := 0 to numberOfRings
      invariant |events| == EventsPerRing * ring
      invariant forall i :: 0 <= i < |events| ==>
                  events[i] == RingingEvent(ringDuration, i / EventsPerRing, i % EventsPerRing)
    {
      var ringStartTime := ring * (ringDuration + RingGap);
      events := events + [Continuous(1.0, 0.8, ringStartTime, 200)];
      for pulse := 0 to 4
        invariant |events| == EventsPerRing * ring + 1 + pulse
        invariant forall i :: 0 <= i < |events| ==>
                    events[i] == RingingEvent(ringDuration, i / EventsPerRing, i % EventsPerRing)
      {
        var pulseTime := ringStartTime + 250 + pulse * 150;
        events := events + [Transient(0.9, 1.0, pulseTime)];
      }
      events := events + [Continuous(1.0, 0.8, ringStartTime + 850, 200)];
    }
  }

  /** The nonnegative multiples of a nonnegative period grow with the factor. */
  lemma MultipleMonotone(a: nat, b: nat, period: nat)
    requires a <= b
    ensures a * period <= b * period
  {
  }

  /** Ring `ring` occupies positions 6·ring .. 6·ring+5 of the timeline, holding
      a buzz at the ring's start (0.2 s, intensity 1.0, sharpness 0.8), four
      pulses at +0.25, +0.40, +0.55, +0.70 s (intensity 0.9, sharpness 1.0) and a
      second buzz at +0.85 s like the first; there are six events per ring. */
  lemma RingingRingContents(numberOfRings: nat, ringDuration: nat, ring: nat)
    requires ring < numberOfRings
    ensures |RingingTimeline(numberOfRings, ringDuration)| == 6 * numberOfRings
    ensures var start := ring * (ringDuration + RingGap);
            RingingTimeline(numberOfRings, ringDuration)[6 * ring .. 6 * ring + 6] ==
              [Continuous(1.0, 0.8, start, 200),
               Transient(0.9, 1.0, start + 250),
               Transient(0.9, 1.0, start + 400),
               Transient(0.9, 1.0, start + 550),
               Transient(0.9, 1.0, start + 700),
               Continuous(1.0, 0.8, start + 850, 200)]
  {
    var timeline := RingingTimeline(numberOfRings, ringDuration);
    MultipleMonotone(ring + 1, numberOfRings, 6);
    forall slot | 0 <= slot < 6
      ensures timeline[6 * ring + slot] == RingingEvent(ringDuration, ring, slot)
    {
      assert (6 * ring + slot) / 6 == ring && (6 * ring + slot) % 6 == slot;
    }
  }

  /** Every ringing event is well formed, whatever the ring count and length. */
  lemma RingingWellFormed(numberOfRings: nat, ringDuration: nat)
    ensures AllWellFormed(RingingTimeline(numberOfRings, ringDuration))
  {
    var timeline := RingingTimeline(numberOfRings, ringDuration);
    forall i | 0 <= i < |timeline|
      ensures WellFormed(timeline[i])
    {
      MultipleMonotone(0, i / EventsPerRing, ringDuration + RingGap);
    }
  }

  /** Start times of neighbouring ringing events, the step across a ring
      boundary included. */
  lemma RingingNeighbourStarts(numberOfRings: nat, ringDuration: nat, i: nat)
    requires ringDuration + RingGap > 850
    requires i + 1 < EventsPerRing * numberOfRings
    ensures RingingTimeline(numberOfRings, ringDuration)[i].relativeTime <
            RingingTimeline(numberOfRings, ringDuration)[i + 1].relativeTime
  {
    var ring := i / EventsPerRing;
    if i % EventsPerRing == EventsPerRing - 1 {
      assert (i + 1) / EventsPerRing == ring + 1 && (i + 1) % EventsPerRing == 0;
      assert RingStart(ring + 1, ringDuration) == RingStart(ring, ringDuration) + ringDuration + RingGap;
    } else {
      assert (i + 1) / EventsPerRing == ring && (i + 1) % EventsPerRing == i % EventsPerRing + 1;
    }
  }

  /** Ringing start times increase strictly in the order the events are
      appended, across ring boundaries too, as long as a ring and its gap are
      longer than the 0.85 s from a ring's start to its second buzz (the app's
      1.2 s + 0.5 s is). */
  lemma RingingStartsStrictlyIncreasing(numberOfRings: nat, ringDuration: nat)
    requires ringDuration + RingGap > 850
    ensures StartsStrictlyIncreasing(RingingTimeline(numberOfRings, ringDuration))
  {
    var timeline := RingingTimeline(numberOfRings, ringDuration);
    forall i | 0 <= i < |timeline| - 1
      ensures timeline[i].relativeTime < timeline[i + 1].relativeTime
    {
      RingingNeighbourStarts(numberOfRings, ringDuration, i);
    }
    StrictlyIncreasingFromNeighbours(timeline);
  }

  /** The last event of the ringing pattern is ring n-1's second buzz, which
      ends 0.85 s + 0.2 s after that ring starts. */
  lemma RingingTimelineEnd(numberOfRings: nat, ringDuration: nat)
    requires numberOfRings > 0
    ensures TimelineEnd(RingingTimeline(numberOfRings, ringDuration)) ==
            (numberOfRings - 1) * (ringDuration + RingGap) + 1050
  {
    var timeline := RingingTimeline(numberOfRings, ringDuration);
    var last := (numberOfRings - 1) * (ringDuration + RingGap) + 1050;
    var n := |timeline|;
    assert (n - 1) / EventsPerRing == numberOfRings - 1 && (n - 1) % EventsPerRing == 5;
    assert EndTime(timeline[n - 1]) == last;
    forall i | 0 <= i < n
      ensures EndTime(timeline[i]) <= last
    {
      MultipleMonotone(i / EventsPerRing, numberOfRings - 1, ringDuration + RingGap);
    }
  }

  /** The ringing reset delay, n·(ring length + 0.5 s), outlasts every event of
      the pattern exactly when there are no rings or a ring and its gap last at
      least the 1.05 s a ring's events take; with the app's 1.2 s rings it does. */
  lemma RingingResetCovers(numberOfRings: nat, ringDuration: nat)
    ensures TimelineEnd(RingingTimeline(numberOfRings, ringDuration)) <=
              RingingResetDelay(numberOfRings, ringDuration)
            <==> numberOfRings == 0 || ringDuration + RingGap >= 1050
  {
    if numberOfRings > 0 {
      var timeline := RingingTimeline(numberOfRings, ringDuration);
      var n := |timeline|;
      var period := ringDuration + RingGap;
      assert (n - 1) / EventsPerRing == numberOfRings - 1 && (n - 1) % EventsPerRing == 5;
      assert EndTime(timeline[n - 1]) == (numberOfRings - 1) * period + 1050;
      assert RingingResetDelay(numberOfRings, ringDuration) == (numberOfRings - 1) * period + period;
      RingingTimelineEnd(numberOfRings, ringDuration);
    }
  }

  /** The first ring as the app plays it: a buzz at 0, pulses at 0.25, 0.40,
      0.55 and 0.70 s, a second buzz at 0.85 s; 18 events in all. */
  lemma DefaultRingingFirstRing()
    ensures |RingingTimeline(NumberOfRings, RingDuration)| == 18
    ensures RingingTimeline(NumberOfRings, RingDuration)[..6] ==
              [Continuous(1.0, 0.8, 0, 200),
               Transient(0.9, 1.0, 250), Transient(0.9, 1.0, 400),
               Transient(0.9, 1.0, 550), Transient(0.9, 1.0, 700),
               Continuous(1.0, 0.8, 850, 200)]
  {
    RingingRingContents(NumberOfRings, RingDuration, 0);
  }

  /** The rest of the ringing pattern as the app plays it: the second ring
      starts at 1.7 s, the last event ends at 4.45 s, the reset is at 5.1 s. */
  lemma DefaultRingingTiming()
    ensures RingingTimeline(NumberOfRings, RingDuration)[6] == Continuous(1.0, 0.8, 1700, 200)
    ensures TimelineEnd(RingingTimeline(NumberOfRings, RingDuration)) == 4450
    ensures RingingResetDelay(NumberOfRings, RingDuration) == 5100
  {
    var timeline := RingingTimeline(NumberOfRings, RingDuration);
    assert 6 / EventsPerRing == 1 && 6 % EventsPerRing == 0;
    assert RingStart(1, RingDuration) == 1700;
    RingingTimelineEnd(NumberOfRings, RingDuration);
    assert (NumberOfRings - 1) * (RingDuration + RingGap) == 3400;
  }

  // ---------------------------------------------------------------------------
  // Maximum-intensity pattern

  /** Event `i` of the maximum-intensity pattern: a 0.5 s buzz at 0, ten taps
      every 0.05 s from 0, a 0.5 s buzz at 0.6 s, ten taps every 0.05 s from
      0.6 s, and a final 0.8 s buzz at 1.2 s; all at full intensity and
      sharpness. */
  function MaxIntensityEvent(i: nat): HapticEvent
    requires i < 23
  {
    if i == 0 then Continuous(1.0, 1.0, 0, 500)
    else if i <= 10 then Transient(1.0, 1.0, (i - 1) * 50)
    else if i == 11 then Continuous(1.0, 1.0, 600, 500)
    else if i <= 21 then Transient(1.0, 1.0, 600 + (i - 12) * 50)
    else Continuous(1.0, 1.0, 1200, 800)
  }

  function MaxIntensityTimeline(): seq<HapticEvent>
  {
    seq(23, i requires 0 <= i < 23 => MaxIntensityEvent(i))
  }

  /** Ten full-strength taps every 0.05 s from `from`. */
  function TapBurst(from: int): seq<HapticEvent>
  {
    seq(10, i requires 0 <= i < 10 => Transient(1.0, 1.0, from + i * 50))
  }

  /** The straight-line code of the maximum-intensity pattern with its two loops
      of ten taps. */
  method BuildMaxIntensityEvents() returns (events: seq<HapticEvent>)
    ensures events == MaxIntensityTimeline()
  {
    events := [Continuous(1.0, 1.0, 0, 500)];
    for i := 0 to 10
      invariant |events| == 1 + i
      invariant forall k :: 0 <= k < |events| ==> events[k] == MaxIntensityEvent(k)
    {
      events := events + [Transient(1.0, 1.0, i * 50)];
    }
    events := events + [Continuous(1.0, 1.0, 600, 500)];
    for i := 0 to 10
      invariant |events| == 12 + i
      invariant forall k :: 0 <= k < |events| ==> events[k] == MaxIntensityEvent(k)
    {
      events := events + [Transient(1.0, 1.0, 600 + i * 50)];
    }
    events := events + [Continuous(1.0, 1.0, 1200, 800)];
  }

  /** The pattern is 1 + 10 + 1 + 10 + 1 = 23 events: buzz, burst, buzz, burst,
      final buzz. */
  lemma MaxIntensityShape()
    ensures |MaxIntensityTimeline()| == 23
    ensures MaxIntensityTimeline() ==
              [Continuous(1.0, 1.0, 0, 500)] + TapBurst(0) +
              [Continuous(1.0, 1.0, 600, 500)] + TapBurst(600) +
              [Continuous(1.0, 1.0, 1200, 800)]
  {
    var composed := [Continuous(1.0, 1.0, 0, 500)] + TapBurst(0) +
                    [Continuous(1.0, 1.0, 600, 500)] + TapBurst(600) +
                    [Continuous(1.0, 1.0, 1200, 800)];
    forall i | 0 <= i < 23
      ensures composed[i] == MaxIntensityTimeline()[i]
    {
      if 1 <= i <= 10 {
        assert composed[i] == TapBurst(0)[i - 1];
      } else if 12 <= i <= 21 {
        assert composed[i] == TapBurst(600)[i - 12];
      }
    }
  }

  /** Every maximum-intensity event is well formed, at full intensity and full
      sharpness. */
  lemma MaxIntensityWellFormed()
    ensures AllWellFormed(MaxIntensityTimeline())
    ensures forall i :: 0 <= i < |MaxIntensityTimeline()| ==>
              MaxIntensityTimeline()[i].intensity == 1.0 && MaxIntensityTimeline()[i].sharpness == 1.0
  {
  }

  /** Start times of the maximum-intensity pattern never decrease. */
  lemma MaxIntensityStartsNonDecreasing()
    ensures StartsNonDecreasing(MaxIntensityTimeline())
  {
    var timeline := MaxIntensityTimeline();
    forall i | 0 <= i < |timeline| - 1
      ensures timeline[i].relativeTime <= timeline[i + 1].relativeTime
    {
    }
    NonDecreasingFromNeighbours(timeline);
  }

  /** The maximum-intensity pattern ends at 2.0 s with its final buzz, 0.1 s
      before its fixed reset delay of 2.1 s. */
  lemma MaxIntensityResetCovers()
    ensures TimelineEnd(MaxIntensityTimeline()) == 2000
    ensures TimelineEnd(MaxIntensityTimeline()) < MaxIntensityResetDelay
  {
    var timeline := MaxIntensityTimeline();
    assert EndTime(timeline[22]) == 2000;
    forall i | 0 <= i < 23
      ensures EndTime(timeline[i]) <= 2000
    {
    }
  }
}
