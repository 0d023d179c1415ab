/**
 * The cycle engine: day-of-cycle counting, the fixed-boundary phase
 * classifier, the phase tables, date prediction and the current cycle's
 * start. Dates are whole-day ordinals (`int`); "today" is a parameter.
 */
module Cycle {

  datatype Phase = Menstruation | Follicular | Ovulation | Luteal | Pms

  /** The key under which a phase appears in the label, description and detail tables. */
  function PhaseName(p: Phase): string
  {
    match p
    case Menstruation => "menstruation"
    case Follicular => "follicular"
    case Ovulation => "ovulation"
    case Luteal => "luteal"
    case Pms => "pms"
  }

  const PhaseKeys: set<string> := {"menstruation", "follicular", "ovulation", "luteal", "pms"}

  /** Phase names are distinct and are exactly the five table keys. */
  lemma PhaseNamesAreTheKeys(p: Phase, q: Phase)
    ensures PhaseName(p) in PhaseKeys
    ensures PhaseName(p) == PhaseName(q) ==> p == q
    ensures forall k :: k in PhaseKeys ==> exists r: Phase :: PhaseName(r) == k
  {
    assert PhaseName(Menstruation) == "menstruation";
    assert PhaseName(Follicular) == "follicular";
    assert PhaseName(Ovulation) == "ovulation";
    assert PhaseName(Luteal) == "luteal";
    assert PhaseName(Pms) == "pms";
  }

  // ---------------------------------------------------------------------
  // get_cycle_day

  /**
   * The 1-based day of the cycle that `today` falls on. Counting wraps
   * modulo the cycle length; a reference start after today gives day 1.
   */
  function CycleDay(lastPeriodStart: int, today: int, cycleLength: int): (day: int)
    requires cycleLength > 0
    ensures 1 <= day <= cycleLength
    ensures today < lastPeriodStart ==> day == 1
    ensures today == lastPeriodStart ==> day == 1
  {
    var delta := today - lastPeriodStart;
    if delta < 0 then 1 else delta % cycleLength + 1
  }

  /** One full cycle later is the same cycle day. */
  lemma CycleDayPeriodic(lastPeriodStart: int, today: int, cycleLength: int)
    requires cycleLength > 0
    requires today >= lastPeriodStart
    ensures CycleDay(lastPeriodStart, today + cycleLength, cycleLength)
         == CycleDay(lastPeriodStart, today, cycleLength)
  {
    var delta := today - lastPeriodStart;
    DivModUnique(delta + cycleLength, cycleLength, delta / cycleLength + 1, delta % cycleLength);
  }

  /** `k` whole cycles and `d` more days after the start is day `d + 1`. */
  lemma {:induction false} CycleDayAfterWholeCycles(lastPeriodStart: int, k: nat, d: int, cycleLength: int)
    requires cycleLength > 0
    requires 0 <= d < cycleLength
    ensures CycleDay(lastPeriodStart, lastPeriodStart + k * cycleLength + d, cycleLength) == d + 1
  {
    if k == 0 {
      assert k * cycleLength == 0;
      DivModUnique(d, cycleLength, 0, d);
    } else {
      var m := (k - 1) * cycleLength;
      assert k * cycleLength == m + cycleLength;
      MulMonotone(0, k - 1, cycleLength);
      CycleDayAfterWholeCycles(lastPeriodStart, k - 1, d, cycleLength);
      CycleDayPeriodic(lastPeriodStart, lastPeriodStart + m + d, cycleLength);
    }
  }

  /** Euclidean division is determined by quotient and remainder bounds. */
  lemma DivModUnique(x: int, n: int, q: int, r: int)
    requires n > 0
    requires x == q * n + r && 0 <= r < n
    ensures x / n == q && x % n == r
  {
    var q', r' := x / n, x % n;
    assert x == q' * n + r' && 0 <= r' < n;
    if q' < q {
      assert (q' + 1) * n == q' * n + n;
      MulMonotone(q' + 1, q, n);
    } else if q' > q {
      assert (q + 1) * n == q * n + n;
      MulMonotone(q + 1, q', n);
    }
  }

  lemma MulMonotone(a: int, b: int, n: int)
    requires a <= b && n >= 0
    ensures a * n <= b * n
  {
    assert b * n - a * n == (b - a) * n;
  }

  // ---------------------------------------------------------------------
  // get_phase

  /**
   * The phase of a cycle day, by fixed boundaries: 1-5, 6-13, 14, 15-21,
   * everything else pms. The cycle length is accepted and not used.
   */
  function GetPhase(cycleDay: int, cycleLength: int): (p: Phase)
    ensures p == Menstruation <==> 1 <= cycleDay <= 5
    ensures p == Follicular <==> 6 <= cycleDay <= 13
    ensures p == Ovulation <==> cycleDay == 14
    ensures p == Luteal <==> 15 <= cycleDay <= 21
    ensures p == Pms <==> cycleDay <= 0 || cycleDay >= 22
  {
    if 1 <= cycleDay <= 5 then Menstruation
    else if 6 <= cycleDay <= 13 then Follicular
    else if cycleDay == 14 then Ovulation
    else if 15 <= cycleDay <= 21 then Luteal
    else Pms
  }

  /** The classification does not depend on the cycle length. */
  lemma PhaseIgnoresCycleLength(cycleDay: int, length1: int, length2: int)
    ensures GetPhase(cycleDay, length1) == GetPhase(cycleDay, length2)
  {
  }

  // ---------------------------------------------------------------------
  // PHASE_LABELS, PHASE_DESCRIPTIONS, PHASE_DETAILS

  const PhaseLabels: map<string, string> := map[
    "menstruation" := "\U{1FA78} Period",
    "follicular" := "\U{1F331} Follicular",
    "ovulation" := "\U{2728} Ovulation",
    "luteal" := "\U{1F319} Luteal",
    "pms" := "\U{26A1} PMS"
  ]

  const PhaseDescriptions: map<string, string> := map[
    "menstruation" := "You're on your period darling, your body's working hard. Be extra kind to yourself \U{1F49B}",
    "follicular" := "You made it through the tough part darling! Energy's coming back \U{1F338}",
    "ovulation" := "It's ovulation day darling \U{2014} you're glowing and at peak energy! \U{2728}",
    "luteal" := "Your body's gearing up darling, totally okay if you're a bit tired \U{1F319}",
    "pms" := "PMS has entered the chat darling. If everything's annoying, it's not you, it's hormones \U{1F49C}"
  ]

  /**
   * The heading of a PHASE_DETAILS entry: its emoji, its title and the day
   * range printed after the title ("Day 1-5", or "Day 14" for a single day).
   */
  datatype DetailHeading = DetailHeading(emoji: string, title: string, firstDay: nat, lastDay: nat)

  const PhaseDetails: map<string, DetailHeading> := map[
    "menstruation" := DetailHeading("\U{1FA78}", "Period Phase", 1, 5),
    "follicular" := DetailHeading("\U{1F331}", "Follicular Phase", 6, 13),
    "ovulation" := DetailHeading("\U{2728}", "Ovulation", 14, 14),
    "luteal" := DetailHeading("\U{1F319}", "Luteal Phase", 15, 21),
    "pms" := DetailHeading("\U{26A1}", "PMS Phase", 22, 28)
  ]

  /** All three tables are keyed by exactly the five phase names. */
  lemma TablesHaveThePhaseKeys()
    ensures PhaseLabels.Keys == PhaseKeys
    ensures PhaseDescriptions.Keys == PhaseKeys
    ensures PhaseDetails.Keys == PhaseKeys
  {
  }

  /**
   * The day range printed in each detail heading is exactly the range
   * `GetPhase` assigns to that phase within a 28-day cycle.
   */
  lemma DetailRangesAgreeWithPhase(p: Phase, cycleDay: int, cycleLength: int)
    requires 1 <= cycleDay <= 28
    ensures PhaseName(p) in PhaseDetails
    ensures var h := PhaseDetails[PhaseName(p)];
            h.firstDay <= cycleDay <= h.lastDay <==> GetPhase(cycleDay, cycleLength) == p
  {
  }

  // ---------------------------------------------------------------------
  // get_phase_info

  datatype PhaseInfo = PhaseInfo(cycleDay: int, phase: Phase, phaseLabel: string, description: string)

  /** The day echoed back with its phase and that phase's label and description. */
  function GetPhaseInfo(cycleDay: int, cycleLength: int): (info: PhaseInfo)
    ensures info.cycleDay == cycleDay
    ensures info.phase == GetPhase(cycleDay, cycleLength)
    ensures PhaseName(info.phase) in PhaseLabels && info.phaseLabel == PhaseLabels[PhaseName(info.phase)]
    ensures PhaseName(info.phase) in PhaseDescriptions
         && info.description == PhaseDescriptions[PhaseName(info.phase)]
  {
    var phase := GetPhase(cycleDay, cycleLength);
    PhaseInfo(cycleDay, phase, PhaseLabels[PhaseName(phase)], PhaseDescriptions[PhaseName(phase)])
  }

  /** Different phases carry different labels, so the label identifies the phase. */
  lemma LabelIdentifiesPhase(day1: int, day2: int, cycleLength: int)
    ensures GetPhaseInfo(day1, cycleLength).phaseLabel == GetPhaseInfo(day2, cycleLength).phaseLabel
        <==> GetPhase(day1, cycleLength) == GetPhase(day2, cycleLength)
  {
    var p1, p2 := GetPhase(day1, cycleLength), GetPhase(day2, cycleLength);
    if p1 != p2 {
      var l1, l2 := PhaseLabels[PhaseName(p1)], PhaseLabels[PhaseName(p2)];
      assert l1[2..] != l2[2..];
    }
  }

  // ---------------------------------------------------------------------
  // days_until and get_current_cycle_start

  /** Signed number of days from today to the target. */
  function DaysUntil(target: int, today: int): (days: int)
    ensures today + days == target
  {
    target - today
  }

  /**
   * The start of the cycle today falls in: the reference start itself when
   * it is after today, otherwise the last whole-cycle multiple not after today.
   */
  function CurrentCycleStart(lastPeriodStart: int, today: int, cycleLength: int): (start: int)
    requires cycleLength > 0
    ensures today < lastPeriodStart ==> start == lastPeriodStart
    ensures today >= lastPeriodStart ==> lastPeriodStart <= start <= today < start + cycleLength
    ensures (start - lastPeriodStart) % cycleLength == 0
    ensures today >= lastPeriodStart ==> today - start + 1 == CycleDay(lastPeriodStart, today, cycleLength)
  {
    var delta := today - lastPeriodStart;
    if delta < 0 then lastPeriodStart
    else
      var cyclesPassed := delta / cycleLength;
      DivModUnique(cyclesPassed * cycleLength, cycleLength, cyclesPassed, 0);
      lastPeriodStart + cyclesPassed * cycleLength
  }

  /**
   * The start of the current cycle is a whole number of cycles after the
   * reference start, and no later whole-cycle multiple is on or before today.
   */
  lemma CurrentCycleStartIsLatest(lastPeriodStart: int, today: int, cycleLength: int, k: nat)
    requires cycleLength > 0
    requires lastPeriodStart + k * cycleLength <= today
    ensures lastPeriodStart + k * cycleLength <= CurrentCycleStart(lastPeriodStart, today, cycleLength)
  {
    var start := CurrentCycleStart(lastPeriodStart, today, cycleLength);
    var q := (start - lastPeriodStart) / cycleLength;
    DivModUnique(start - lastPeriodStart, cycleLength, q, 0);
    if k > q {
      MulMonotone(q + 1, k, cycleLength);
    }
    MulMonotone(k, q, cycleLength);
  }

  // ---------------------------------------------------------------------
  // predict_dates

  datatype Predictions = Predictions(nextPeriod: int, nextPms: int, nextOvulation: int)

  /**
   * Starts one cycle after the reference start (pms 7 days before it,
   * ovulation 14 days after the reference start) and advances all three by
   * whole cycles until the next period is after today.
   */
  method PredictDates(lastPeriodStart: int, cycleLength: int, today: int) returns (p: Predictions)
    requires cycleLength > 0
    ensures p.nextPeriod > today
    ensures p.nextPeriod == CurrentCycleStart(lastPeriodStart, today, cycleLength) + cycleLength
    ensures p.nextPms == p.nextPeriod - 7
    ensures p.nextOvulation == p.nextPeriod - cycleLength + 14
  {
    var nextPeriod := lastPeriodStart + cycleLength;
    var nextPms := lastPeriodStart + (cycleLength - 7);
    var nextOvulation := lastPeriodStart + 14;
    ghost var k: nat := 1;
    while nextPeriod <= today
      invariant k >= 1 && nextPeriod == lastPeriodStart + k * cycleLength
      invariant k == 1 || lastPeriodStart + (k - 1) * cycleLength <= today
      invariant nextPms == nextPeriod - 7
      invariant nextOvulation == nextPeriod - cycleLength + 14
      decreases today - nextPeriod
    {
      nextPeriod := nextPeriod + cycleLength;
      nextPms := nextPms + cycleLength;
      nextOvulation := nextOvulation + cycleLength;
      k := k + 1;
    }
    NextPeriodAfterCurrentStart(lastPeriodStart, today, cycleLength, k);
    p := Predictions(nextPeriod, nextPms, nextOvulation);
  }

  /** The first whole-cycle multiple after today is one cycle past the current start. */
  lemma NextPeriodAfterCurrentStart(lastPeriodStart: int, today: int, cycleLength: int, k: nat)
    requires cycleLength > 0 && k >= 1
    requires lastPeriodStart + k * cycleLength > today
    requires k == 1 || lastPeriodStart + (k - 1) * cycleLength <= today
    ensures lastPeriodStart + k * cycleLength
         == CurrentCycleStart(lastPeriodStart, today, cycleLength) + cycleLength
  {
    var delta := today - lastPeriodStart;
    assert k * cycleLength == (k - 1) * cycleLength + cycleLength;
    if delta < 0 {
      if k > 1 {
        MulMonotone(1, k - 1, cycleLength);
      }
    } else {
      DivModUnique(delta, cycleLength, k - 1, delta - (k - 1) * cycleLength);
    }
  }

  /** The predicted period is the earliest whole-cycle multiple after today. */
  lemma NextPeriodIsEarliest(lastPeriodStart: int, today: int, cycleLength: int, k: nat)
    requires cycleLength > 0 && k >= 1
    requires lastPeriodStart + k * cycleLength > today
    ensures CurrentCycleStart(lastPeriodStart, today, cycleLength) + cycleLength
         <= lastPeriodStart + k * cycleLength
  {
    var start := CurrentCycleStart(lastPeriodStart, today, cycleLength);
    var q := (start - lastPeriodStart) / cycleLength;
    DivModUnique(start - lastPeriodStart, cycleLength, q, 0);
    if today < lastPeriodStart {
      MulMonotone(1, k, cycleLength);
    } else if k <= q {
      MulMonotone(k, q, cycleLength);
    } else {
      MulMonotone(q + 1, k, cycleLength);
      assert (q + 1) * cycleLength == q * cycleLength + cycleLength;
    }
  }
}
