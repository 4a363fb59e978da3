/** Model of the msm-thermal-simple throttling controller: a frequency
    ladder, an actuator that sets the CPU frequency ceiling and hot-plugs
    CPUs 1 to 3, the periodic temperature tick, and the cpufreq policy
    notifier that clamps each policy to the ceiling. */
module MsmThermal {

  /** The driver's `uint32_t` / `unsigned int` arithmetic wraps modulo 2^32. */
  const U32Modulus: int := 0x1_0000_0000

  type U32 = x: int | 0 <= x < 0x1_0000_0000

  function AddU32(a: U32, b: U32): U32 { (a + b) % U32Modulus }

  function SubU32(a: U32, b: U32): U32 { (a - b) % U32Modulus }

  // enum thermal_freqs: the ceilings, in kHz, from hottest to coolest band
  const FreqNote7: int := 729600
  const FreqHell: int := 960000
  const FreqBbq: int := 1036800
  const FreqMicrowave: int := 1190400
  const FreqVeryHot: int := 1267200
  const FreqHot: int := 1497600
  const FreqWarm: int := 1574400
  const FreqZippy: int := 1728000
  const FreqMax: int := 1958400

  // enum threshold_levels: degrees above temp_threshold where a band starts
  const LevelNote7: U32 := 18
  const LevelHell: U32 := 14
  const LevelBbq: U32 := 12
  const LevelMicrowave: U32 := 10
  const LevelVeryHot: U32 := 8
  const LevelHot: U32 := 5
  const LevelWarm: U32 := 2

  /** `LONG_MAX` stored in a `uint32_t`; on the 32-bit ARM target it is 2^31 - 1. */
  const CpuinfoMaxFreq: int := 0x7FFF_FFFF

  /** CONFIG_NR_CPUS of the quad-core target. */
  const NrCpus: nat := 4

  /** The cpufreq policy-notifier event that asks listeners to adjust a policy. */
  const CpufreqAdjust: nat := 0

  const DefaultTempThreshold: U32 := 38
  const DefaultSafeDiff: U32 := 5

  const LadderFreqs: set<int> :=
    {FreqNote7, FreqHell, FreqBbq, FreqMicrowave, FreqVeryHot, FreqHot, FreqWarm, FreqZippy, FreqMax}

  /** The values the ceiling `limited_max_freq` may hold: no limit or a ladder value. */
  predicate IsCeiling(f: int) {
    f == CpuinfoMaxFreq || f in LadderFreqs
  }

  // ---------------------------------------------------------------------
  // Frequency ladder
  // ---------------------------------------------------------------------

  /** The `else if` chain of check_temp: the first band whose lower bound
      `temp_threshold + LEVEL_X` (a wrapping unsigned sum) the temperature
      reaches gives the ceiling. The chain ends in `temp < temp_threshold`,
      so the trailing 0 ("no change") is never produced. */
  function Ladder(temp: int, threshold: U32): (freq: int)
    ensures freq in LadderFreqs
    ensures freq != 0
  {
    if temp >= AddU32(threshold, LevelNote7) then FreqNote7
    else if temp >= AddU32(threshold, LevelHell) then FreqHell
    else if temp >= AddU32(threshold, LevelBbq) then FreqBbq
    else if temp >= AddU32(threshold, LevelMicrowave) then FreqMicrowave
    else if temp >= AddU32(threshold, LevelVeryHot) then FreqVeryHot
    else if temp >= AddU32(threshold, LevelHot) then FreqHot
    else if temp >= AddU32(threshold, LevelWarm) then FreqWarm
    else if temp >= threshold then FreqZippy
    else if temp < threshold then FreqMax
    else 0
  }

  /** One band of the ladder as a table row: its offset above the threshold and its ceiling. */
  datatype Band = Band(level: U32, freq: int)

  /** The ladder as an ordered table, hottest band first. */
  const Bands: seq<Band> := [
    Band(LevelNote7, FreqNote7), Band(LevelHell, FreqHell), Band(LevelBbq, FreqBbq),
    Band(LevelMicrowave, FreqMicrowave), Band(LevelVeryHot, FreqVeryHot), Band(LevelHot, FreqHot),
    Band(LevelWarm, FreqWarm), Band(0, FreqZippy)
  ]

  /** Reference reading of the ladder: the first matching row wins; below every row, FREQ_MAX. */
  function Lookup(bands: seq<Band>, temp: int, threshold: U32): int
  {
    if bands == [] then FreqMax
    else if temp >= AddU32(threshold, bands[0].level) then bands[0].freq
    else Lookup(bands[1..], temp, threshold)
  }

  /** Ceilings rise strictly from the hottest row to the coolest and stay at or below FREQ_MAX. */
  ghost predicate FreqsAscending(bands: seq<Band>) {
    (forall i, j :: 0 <= i < j < |bands| ==> bands[i].freq < bands[j].freq) &&
    (forall i :: 0 <= i < |bands| ==> bands[i].freq <= FreqMax)
  }

  /** Band offsets fall strictly from the hottest row to the coolest. */
  ghost predicate LevelsDescending(bands: seq<Band>) {
    forall i, j :: 0 <= i < j < |bands| ==> bands[i].level > bands[j].level
  }

  lemma {:induction false} LookupAtLeastFirst(bands: seq<Band>, temp: int, threshold: U32)
    requires bands != [] && FreqsAscending(bands)
    ensures Lookup(bands, temp, threshold) >= bands[0].freq
  {
    if temp < AddU32(threshold, bands[0].level) && |bands| > 1 {
      LookupAtLeastFirst(bands[1..], temp, threshold);
    }
  }

  /** A hotter reading never gets a higher ceiling from an ascending table,
      whatever the thresholds are (wrapped or not). */
  lemma {:induction false} LookupMonotone(bands: seq<Band>, t1: int, t2: int, threshold: U32)
    requires FreqsAscending(bands)
    requires t1 <= t2
    ensures Lookup(bands, t2, threshold) <= Lookup(bands, t1, threshold)
  {
    if bands != [] {
      if t2 >= AddU32(threshold, bands[0].level) {
        LookupAtLeastFirst(bands, t1, threshold);
      } else {
        LookupMonotone(bands[1..], t1, t2, threshold);
      }
    }
  }

  /** With no wrap-around, a reading exactly on a band's lower bound falls in
      that band (the `>=` is inclusive), and one degree below falls in the
      next cooler band. */
  lemma {:induction false} LookupAtBand(bands: seq<Band>, threshold: U32, i: nat)
    requires LevelsDescending(bands)
    requires i < |bands|
    requires threshold + bands[0].level < U32Modulus
    ensures Lookup(bands, threshold + bands[i].level, threshold) == bands[i].freq
    ensures Lookup(bands, threshold + bands[i].level - 1, threshold) ==
            if i + 1 < |bands| then bands[i + 1].freq else FreqMax
  {
    var rest := bands[1..];
    if i == 0 {
      if rest != [] {
        assert rest[0] == bands[1];
      }
    } else {
      assert rest[0] == bands[1] && rest[i - 1] == bands[i];
      assert i < |bands| - 1 ==> rest[i] == bands[i + 1];
      LookupAtBand(rest, threshold, i - 1);
    }
  }

  /** The `else if` chain and the table agree on every reading and threshold. */
  lemma LadderIsLookup(temp: int, threshold: U32)
    ensures Ladder(temp, threshold) == Lookup(Bands, temp, threshold)
  {
    var b7 := [Band(0, FreqZippy)];
    var b6 := [Band(LevelWarm, FreqWarm)] + b7;
    var b5 := [Band(LevelHot, FreqHot)] + b6;
    var b4 := [Band(LevelVeryHot, FreqVeryHot)] + b5;
    var b3 := [Band(LevelMicrowave, FreqMicrowave)] + b4;
    var b2 := [Band(LevelBbq, FreqBbq)] + b3;
    var b1 := [Band(LevelHell, FreqHell)] + b2;
    assert Bands == [Band(LevelNote7, FreqNote7)] + b1;
    assert b7[1..] == [] && b6[1..] == b7 && b5[1..] == b6 && b4[1..] == b5;
    assert b3[1..] == b4 && b2[1..] == b3 && b1[1..] == b2 && Bands[1..] == b1;
    assert AddU32(threshold, 0) == threshold;
    assert Lookup(b7, temp, threshold) == if temp >= threshold then FreqZippy else FreqMax;
    assert Lookup(b6, temp, threshold) == if temp >= AddU32(threshold, LevelWarm) then FreqWarm else Lookup(b7, temp, threshold);
    assert Lookup(b5, temp, threshold) == if temp >= AddU32(threshold, LevelHot) then FreqHot else Lookup(b6, temp, threshold);
    assert Lookup(b4, temp, threshold) == if temp >= AddU32(threshold, LevelVeryHot) then FreqVeryHot else Lookup(b5, temp, threshold);
    assert Lookup(b3, temp, threshold) == if temp >= AddU32(threshold, LevelMicrowave) then FreqMicrowave else Lookup(b4, temp, threshold);
    assert Lookup(b2, temp, threshold) == if temp >= AddU32(threshold, LevelBbq) then FreqBbq else Lookup(b3, temp, threshold);
    assert Lookup(b1, temp, threshold) == if temp >= AddU32(threshold, LevelHell) then FreqHell else Lookup(b2, temp, threshold);
  }

  lemma BandsWellFormed()
    ensures FreqsAscending(Bands) && LevelsDescending(Bands)
  {
  }

  /** Hotter never yields a higher ceiling. */
  lemma LadderMonotone(t1: int, t2: int, threshold: U32)
    requires t1 <= t2
    ensures Ladder(t2, threshold) <= Ladder(t1, threshold)
  {
    LadderIsLookup(t1, threshold);
    LadderIsLookup(t2, threshold);
    BandsWellFormed();
    LookupMonotone(Bands, t1, t2, threshold);
  }

  /** A reading exactly at `threshold + LEVEL_X` is in band X; one degree lower is in the next cooler band. */
  lemma LadderAtBand(threshold: U32, i: nat)
    requires i < |Bands|
    requires threshold + LevelNote7 < U32Modulus
    ensures Ladder(threshold + Bands[i].level, threshold) == Bands[i].freq
    ensures Ladder(threshold + Bands[i].level - 1, threshold) ==
            if i + 1 < |Bands| then Bands[i + 1].freq else FreqMax
  {
    LadderIsLookup(threshold + Bands[i].level, threshold);
    LadderIsLookup(threshold + Bands[i].level - 1, threshold);
    BandsWellFormed();
    LookupAtBand(Bands, threshold, i);
  }

  // ---------------------------------------------------------------------
  // CPU hot-plug rule of limit_cpu_freqs
  // ---------------------------------------------------------------------

  /** num_online_cpus() over an online mask. */
  function CountOnline(s: seq<bool>): (n: nat)
    ensures n <= |s|
    ensures n == |s| <==> forall i :: 0 <= i < |s| ==> s[i]
  {
    if s == [] then 0
    else
      assert forall i :: 1 <= i < |s| ==> s[i] == s[1..][i - 1];
      (if s[0] then 1 else 0) + CountOnline(s[1..])
  }

  /** Lines 115-122: with a CPU offline, bring CPU 1, 2, 3 online when the
      ceiling is above FREQ_BBQ, FREQ_MICROWAVE, FREQ_VERY_HOT. */
  function OnlineStep(s: seq<bool>, f: int): (r: seq<bool>)
    requires |s| == NrCpus
    ensures |r| == NrCpus && r[0] == s[0]
    ensures forall i :: 0 <= i < NrCpus && s[i] ==> r[i]
    ensures f <= FreqBbq ==> r == s
  {
    if CountOnline(s) < NrCpus then
      s[1 := s[1] || f > FreqBbq][2 := s[2] || f > FreqMicrowave][3 := s[3] || f > FreqVeryHot]
    else s
  }

  /** Lines 129-134: take CPU 3, 2 or 1 offline when the ceiling is exactly
      FREQ_VERY_HOT, FREQ_MICROWAVE or FREQ_BBQ. */
  function OfflineStep(s: seq<bool>, f: int): (r: seq<bool>)
    requires |s| == NrCpus
    ensures |r| == NrCpus && r[0] == s[0]
    ensures forall i :: 0 <= i < NrCpus && r[i] ==> s[i]
    ensures forall i, j :: 0 <= i < j < NrCpus && r[i] != s[i] ==> r[j] == s[j]
    ensures f !in {FreqVeryHot, FreqMicrowave, FreqBbq} ==> r == s
  {
    if f == FreqVeryHot then s[3 := false]
    else if f == FreqMicrowave then s[2 := false]
    else if f == FreqBbq then s[1 := false]
    else s
  }

  function Hotplug(s: seq<bool>, f: int): (r: seq<bool>)
    requires |s| == NrCpus
    ensures |r| == NrCpus && r[0] == s[0]
    ensures f < FreqBbq ==> r == s
  {
    OfflineStep(OnlineStep(s, f), f)
  }

  /** The mask during the policy update, in closed form: CPU 1, 2, 3 is
      online when it was or when the ceiling is above FREQ_BBQ,
      FREQ_MICROWAVE, FREQ_VERY_HOT. The `num_online_cpus() < NR_CPUS` guard
      changes nothing, since with every CPU online the bring-up is a no-op. */
  lemma OnlineByBand(s: seq<bool>, f: int)
    requires |s| == NrCpus
    ensures OnlineStep(s, f) ==
      [s[0], s[1] || f > FreqBbq, s[2] || f > FreqMicrowave, s[3] || f > FreqVeryHot]
  {
    if CountOnline(s) == NrCpus {
      assert s[1] && s[2] && s[3];
    }
  }

  /** The online mask a ceiling leaves, band by band: CPU 0 is never touched,
      bands above FREQ_VERY_HOT run all four CPUs, and each of the three
      exact band ceilings sheds one CPU. */
  lemma HotplugByBand(s: seq<bool>, f: int)
    requires |s| == NrCpus
    ensures Hotplug(s, f) ==
      if f > FreqVeryHot then [s[0], true, true, true]
      else if f == FreqVeryHot then [s[0], true, true, false]
      else if f > FreqMicrowave then [s[0], true, true, s[3]]
      else if f == FreqMicrowave then [s[0], true, false, s[3]]
      else if f > FreqBbq then [s[0], true, s[2], s[3]]
      else if f == FreqBbq then [s[0], false, s[2], s[3]]
      else s
  {
    if CountOnline(s) == NrCpus {
      assert s[1] && s[2] && s[3];
    }
  }

  /** Re-applying the same ceiling's hot-plug rule changes nothing more. */
  lemma HotplugIdempotent(s: seq<bool>, f: int)
    requires |s| == NrCpus
    ensures Hotplug(Hotplug(s, f), f) == Hotplug(s, f)
  {
    HotplugByBand(s, f);
    HotplugByBand(Hotplug(s, f), f);
  }

  // ---------------------------------------------------------------------
  // cpufreq policy clamping
  // ---------------------------------------------------------------------

  /** cpufreq_verify_within_limits(policy, lo, hi) on a policy window (min, max):
      raise both ends to `lo`, lower both ends to `hi`, then keep min <= max. */
  function VerifyWithinLimits(min: int, max: int, lo: int, hi: int): (w: (int, int))
    ensures w.1 <= hi && w.0 <= w.1
    ensures lo <= hi ==> lo <= w.0
    ensures lo <= min <= max <= hi ==> w == (min, max)
    ensures lo <= max ==> w.1 == if max <= hi then max else hi
  {
    var min1 := if min < lo then lo else min;
    var max1 := if max < lo then lo else max;
    var min2 := if min1 > hi then hi else min1;
    var max2 := if max1 > hi then hi else max1;
    (if min2 > max2 then max2 else min2, max2)
  }

  /** One CPU's cpufreq policy: the window in force (`min`, `max`), the
      window its user asked for, and the hardware floor and ceiling. */
  class Policy {
    var min: int
    var max: int
    const userMin: int
    const userMax: int
    const cpuinfoMin: int
    const cpuinfoMax: int

    constructor (cpuinfoMin: int, cpuinfoMax: int, userMin: int, userMax: int)
      ensures this.cpuinfoMin == cpuinfoMin && this.cpuinfoMax == cpuinfoMax
      ensures this.userMin == userMin && this.userMax == userMax
      ensures min == userMin && max == userMax
    {
      this.cpuinfoMin := cpuinfoMin;
      this.cpuinfoMax := cpuinfoMax;
      this.userMin := userMin;
      this.userMax := userMax;
      min := userMin;
      max := userMax;
    }
  }

  function Window(p: Policy): (int, int)
    reads p
  {
    (p.min, p.max)
  }

  /** The window a policy re-evaluation gives under ceiling `ceiling`. */
  function Reevaluated(p: Policy, ceiling: int): (w: (int, int))
    ensures w.1 <= ceiling
  {
    VerifyWithinLimits(p.userMin, p.userMax, p.cpuinfoMin, ceiling)
  }

  // ---------------------------------------------------------------------
  // The tick as a transition on (ceiling, throttling)
  // ---------------------------------------------------------------------

  datatype ThrottleState = ThrottleState(ceiling: int, throttling: bool)

  const InitialThrottleState: ThrottleState := ThrottleState(CpuinfoMaxFreq, false)

  /** The hysteresis test of line 149, with the unsigned subtraction's wrap. */
  predicate Recovers(throttling: bool, temp: int, threshold: U32, safeDiff: U32) {
    throttling && temp < SubU32(threshold, safeDiff)
  }

  /** One check_temp tick: recover to no limit, or apply the ladder's ceiling
      and mark the controller throttling. */
  function Tick(s: ThrottleState, temp: int, threshold: U32, safeDiff: U32): (r: ThrottleState)
    ensures IsCeiling(r.ceiling)
    ensures r.throttling <==> r.ceiling != CpuinfoMaxFreq
  {
    if Recovers(s.throttling, temp, threshold, safeDiff) then ThrottleState(CpuinfoMaxFreq, false)
    else ThrottleState(Ladder(temp, threshold), true)
  }

  /** Successive ticks, one per reading (the 250 ms reschedule loop). */
  function Run(s: ThrottleState, temps: seq<int>, threshold: U32, safeDiff: U32): (r: ThrottleState)
    ensures IsCeiling(s.ceiling) ==> IsCeiling(r.ceiling)
    ensures (s.throttling <==> s.ceiling != CpuinfoMaxFreq) ==> (r.throttling <==> r.ceiling != CpuinfoMaxFreq)
    decreases |temps|
  {
    if temps == [] then s else Run(Tick(s, temps[0], threshold, safeDiff), temps[1..], threshold, safeDiff)
  }

  /** Recovery needs a reading strictly below `threshold - safe_diff`: exactly
      at it the ladder applies, one degree below it the limit is lifted. */
  lemma HysteresisBoundary(ceiling: int, threshold: U32, safeDiff: U32)
    requires safeDiff <= threshold
    ensures Tick(ThrottleState(ceiling, true), threshold - safeDiff, threshold, safeDiff) ==
            ThrottleState(Ladder(threshold - safeDiff, threshold), true)
    ensures Tick(ThrottleState(ceiling, true), threshold - safeDiff - 1, threshold, safeDiff) ==
            InitialThrottleState
  {
  }

  /** Below both the threshold and the recovery bound, the controller never
      settles: it alternates between FREQ_MAX and no limit on every tick. */
  lemma CoolDeviceAlternates(temp: int, threshold: U32, safeDiff: U32)
    requires threshold + LevelNote7 < U32Modulus
    requires temp < threshold && temp < SubU32(threshold, safeDiff)
    ensures Tick(InitialThrottleState, temp, threshold, safeDiff) == ThrottleState(FreqMax, true)
    ensures Tick(ThrottleState(FreqMax, true), temp, threshold, safeDiff) == InitialThrottleState
  {
  }

  /** A threshold below safe_diff wraps the recovery bound near 2^32, so
      every throttled tick at a realistic temperature recovers. */
  lemma WrappedRecoveryBound(ceiling: int, temp: int, threshold: U32, safeDiff: U32)
    requires threshold < safeDiff
    requires temp < U32Modulus - safeDiff
    ensures Tick(ThrottleState(ceiling, true), temp, threshold, safeDiff) == InitialThrottleState
  {
  }

  /** With the default threshold 38 and safe_diff 5, readings 38, 44, 50, 70
      give FREQ_ZIPPY, FREQ_HOT, FREQ_BBQ, FREQ_NOTE_7; 33 keeps the limit and
      32 lifts it. */
  lemma DefaultScenario()
    ensures var th, sd := DefaultTempThreshold, DefaultSafeDiff;
      var s1 := Tick(InitialThrottleState, 38, th, sd);
      var s2 := Tick(s1, 44, th, sd);
      var s3 := Tick(s2, 50, th, sd);
      var s4 := Tick(s3, 70, th, sd);
      var s5 := Tick(s4, 33, th, sd);
      var s6 := Tick(s5, 32, th, sd);
      s1 == ThrottleState(FreqZippy, true) && s2 == ThrottleState(FreqHot, true) &&
      s3 == ThrottleState(FreqBbq, true) && s4 == ThrottleState(FreqNote7, true) &&
      s5 == ThrottleState(FreqMax, true) && s6 == InitialThrottleState
  {
  }

  // ---------------------------------------------------------------------
  // The driver state `info` and its operations
  // ---------------------------------------------------------------------

  class ThermalInfo {
    var tempThreshold: U32
    var limitedMaxFreq: int
    var safeDiff: U32
    var throttling: bool
    var pendingChange: bool
    /** The lifecycle manager's online mask, one entry per CPU. */
    const online: array<bool>
    /** Each CPU's cpufreq policy. */
    const policies: seq<Policy>

    ghost predicate Valid()
      reads this
    {
      online.Length == NrCpus && |policies| == NrCpus &&
      (forall i, j :: 0 <= i < j < NrCpus ==> policies[i] != policies[j]) &&
      IsCeiling(limitedMaxFreq)
    }

    /** `throttling` is set exactly while a ceiling below no-limit is in force. */
    ghost predicate Coupled()
      reads this
    {
      throttling <==> limitedMaxFreq != CpuinfoMaxFreq
    }

    ghost function State(): ThrottleState
      reads this
    {
      ThrottleState(limitedMaxFreq, throttling)
    }

    ghost function PolicySet(): set<Policy>
    {
      set p | p in policies
    }

    /** The static initialiser of `info` and `temp_threshold`. */
    constructor (cpusOnline: seq<bool>, policies: seq<Policy>)
      requires |cpusOnline| == NrCpus && |policies| == NrCpus
      requires forall i, j :: 0 <= i < j < NrCpus ==> policies[i] != policies[j]
      ensures Valid() && Coupled() && !pendingChange
      ensures State() == InitialThrottleState
      ensures tempThreshold == DefaultTempThreshold && safeDiff == DefaultSafeDiff
      ensures fresh(online) && online[..] == cpusOnline && this.policies == policies
    {
      tempThreshold := DefaultTempThreshold;
      limitedMaxFreq := CpuinfoMaxFreq;
      safeDiff := DefaultSafeDiff;
      throttling := false;
      pendingChange := false;
      online := new bool[NrCpus](i requires 0 <= i < NrCpus => cpusOnline[i]);
      this.policies := policies;
    }

    /** cpu_offline_wrapper: take `cpu` down only if it is online (cpu_down assumed to succeed). */
    method CpuOfflineWrapper(cpu: nat) returns (acted: bool)
      requires Valid() && cpu < NrCpus
      modifies online
      ensures acted == old(online[cpu])
      ensures online[..] == old(online[..])[cpu := false]
    {
      acted := online[cpu];
      if acted {
        online[cpu] := false;
      }
    }

    /** cpu_online_wrapper: bring `cpu` up only if it is offline (cpu_up assumed to succeed). */
    method CpuOnlineWrapper(cpu: nat) returns (acted: bool)
      requires Valid() && cpu < NrCpus
      modifies online
      ensures acted == !old(online[cpu])
      ensures online[..] == old(online[..])[cpu := true]
    {
      acted := !online[cpu];
      if acted {
        online[cpu] := true;
      }
    }

    /** msm_thermal_cpufreq_callback: outside an actuation only CPUFREQ_ADJUST
        events are clamped; the policy maximum is bounded by the ceiling. */
    method Callback(event: nat, policy: Policy) returns (ret: int)
      modifies policy`min, policy`max
      ensures ret == 0
      ensures event != CpufreqAdjust && !pendingChange ==> Window(policy) == old(Window(policy))
      ensures event == CpufreqAdjust || pendingChange ==>
        Window(policy) == VerifyWithinLimits(old(policy.min), old(policy.max), policy.cpuinfoMin, limitedMaxFreq)
    {
      if event != CpufreqAdjust && !pendingChange {
        return 0;
      }
      var w := VerifyWithinLimits(policy.min, policy.max, policy.cpuinfoMin, limitedMaxFreq);
      policy.min, policy.max := w.0, w.1;
      return 0;
    }

    /** cpufreq_update_policy(cpu): the cpufreq core proposes the user's
        window again and runs it past the notifier. */
    method UpdatePolicy(policy: Policy)
      modifies policy`min, policy`max
      ensures Window(policy) == Reevaluated(policy, limitedMaxFreq)
    {
      policy.min, policy.max := policy.userMin, policy.userMax;
      var _ := Callback(CpufreqAdjust, policy);
    }

    /** for_each_online_cpu(cpu) cpufreq_update_policy(cpu), run while the change is pending. */
    method UpdateOnlinePolicies()
      requires Valid() && pendingChange
      modifies PolicySet()
      ensures forall i :: 0 <= i < NrCpus ==>
        Window(policies[i]) == if online[i] then Reevaluated(policies[i], limitedMaxFreq) else old(Window(policies[i]))
    {
      var cpu := 0;
      while cpu < NrCpus
        invariant cpu <= NrCpus
        invariant forall i :: 0 <= i < cpu ==>
          Window(policies[i]) == if online[i] then Reevaluated(policies[i], limitedMaxFreq) else old(Window(policies[i]))
        invariant forall i :: cpu <= i < NrCpus ==> Window(policies[i]) == old(Window(policies[i]))
      {
        if online[cpu] {
          UpdatePolicy(policies[cpu]);
        }
        cpu := cpu + 1;
      }
    }

    /** limit_cpu_freqs: a no-op when the ceiling is already in force;
        otherwise publish it, hot-plug CPUs for it, re-evaluate every online
        CPU's policy while `pending_change` is set, and clear the flag. */
    method LimitCpuFreqs(maxFreq: int)
      requires Valid() && !pendingChange && IsCeiling(maxFreq)
      modifies this`limitedMaxFreq, this`pendingChange, online, PolicySet()
      ensures Valid() && !pendingChange && limitedMaxFreq == maxFreq
      ensures old(limitedMaxFreq) == maxFreq ==>
        online[..] == old(online[..]) && forall i :: 0 <= i < NrCpus ==> Window(policies[i]) == old(Window(policies[i]))
      ensures old(limitedMaxFreq) != maxFreq ==>
        online[..] == Hotplug(old(online[..]), maxFreq) &&
        forall i :: 0 <= i < NrCpus ==>
          Window(policies[i]) ==
            if OnlineStep(old(online[..]), maxFreq)[i] then Reevaluated(policies[i], maxFreq)
            else old(Window(policies[i]))
    {
      if limitedMaxFreq == maxFreq {
        return;
      }
      limitedMaxFreq := maxFreq;
      pendingChange := true;

      if CountOnline(online[..]) < NrCpus {
        if maxFreq > FreqBbq {
          var _ := CpuOnlineWrapper(1);
        }
        if maxFreq > FreqMicrowave {
          var _ := CpuOnlineWrapper(2);
        }
        if maxFreq > FreqVeryHot {
          var _ := CpuOnlineWrapper(3);
        }
      }
      assert online[..] == OnlineStep(old(online[..]), maxFreq);

      UpdateOnlinePolicies();

      if maxFreq == FreqVeryHot {
        var _ := CpuOfflineWrapper(3);
      } else if maxFreq == FreqMicrowave {
        var _ := CpuOfflineWrapper(2);
      } else if maxFreq == FreqBbq {
        var _ := CpuOfflineWrapper(1);
      }

      pendingChange := false;
    }

    /** check_temp, for one reading `temp`: recover when throttling and
        strictly below `temp_threshold - safe_diff`; otherwise actuate the
        ladder's ceiling (never 0, so always) and set `throttling`. */
    method CheckTemp(temp: int)
      requires Valid() && !pendingChange
      modifies this`limitedMaxFreq, this`pendingChange, this`throttling, online, PolicySet()
      ensures Valid() && !pendingChange && Coupled()
      ensures State() == Tick(old(State()), temp, tempThreshold, safeDiff)
      ensures online[..] ==
        if old(limitedMaxFreq) == limitedMaxFreq then old(online[..]) else Hotplug(old(online[..]), limitedMaxFreq)
      ensures forall i :: 0 <= i < NrCpus ==>
        Window(policies[i]) ==
          if old(limitedMaxFreq) != limitedMaxFreq && OnlineStep(old(online[..]), limitedMaxFreq)[i]
          then Reevaluated(policies[i], limitedMaxFreq)
          else old(Window(policies[i]))
    {
      var freq := 0;

      if throttling {
        if temp < SubU32(tempThreshold, safeDiff) {
          LimitCpuFreqs(CpuinfoMaxFreq);
          throttling := false;
          return;
        }
      }

      freq := Ladder(temp, tempThreshold);

      if freq != 0 {
        LimitCpuFreqs(freq);

        if !throttling {
          throttling := true;
        }
      }
    }
  }
}
