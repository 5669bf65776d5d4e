/**
 Host capacity (setup.rs) against configuration validation (config.rs): every plan setup
 accepts is printed into the configuration, read back, and has to validate.
 */
module Capacity {
  import opened Common
  import opened Text

  const KIB: nat := 1024
  const MIB: nat := 1024 * KIB
  const GIB: nat := 1024 * MIB
  const TARGET_CPUS_PER_JOB: nat := 4
  const TARGET_MEMORY_PER_JOB: nat := 8 * GIB
  const U16_MAX: nat := 0xFFFF

  // ---------------------------------------------------------------- memory sizes as text

  function TrimStart(s: string): string { if s != "" && IsWhitespace(s[0]) then TrimStart(s[1..]) else s }

  function TrimEnd(s: string): string
    decreases |s|
  {
    if s != "" && IsWhitespace(s[|s| - 1]) then TrimEnd(s[..|s| - 1]) else s
  }

  function Trim(s: string): string { TrimEnd(TrimStart(s)) }

  function Lower(c: char): char { if 'A' <= c <= 'Z' then (c as int - 'A' as int + 'a' as int) as char else c }

  function ToAsciiLowercase(s: string): string { seq(|s|, i requires 0 <= i < |s| => Lower(s[i])) }

  /** The position of the first character that is not a digit. */
  function DigitsEnd(s: string): (i: nat)
    ensures i <= |s| && AllDigits(s[..i])
    ensures i < |s| ==> !IsDigit(s[i])
  {
    if s == "" || !IsDigit(s[0]) then 0
    else
      var i := 1 + DigitsEnd(s[1..]);
      assert s[..i] == [s[0]] + s[1..][..i - 1];
      i
  }

  function Multiplier(unit: string): Option<nat> {
    if unit == "" || unit == "b" then Some(1)
    else if unit == "k" || unit == "kb" || unit == "kib" then Some(KIB)
    else if unit == "m" || unit == "mb" || unit == "mib" then Some(MIB)
    else if unit == "g" || unit == "gb" || unit == "gib" then Some(GIB)
    else None
  }

  function ParseBinarySize(text: string): Option<nat> {
    var normalized := ToAsciiLowercase(Trim(text));
    var split := DigitsEnd(normalized);
    match ParseUnsigned(normalized[..split], U64_MAX)
    case None => None
    case Some(number) =>
      if number == 0 then None
      else
        match Multiplier(normalized[split..])
        case None => None
        case Some(multiplier) => if number * multiplier <= U64_MAX then Some(number * multiplier) else None
  }

  function FormatMebibytes(bytes: nat): string { Decimal(bytes / MIB) + "m" }

  lemma {:induction false} DigitsThenUnit(digits: string, unit: char)
    requires AllDigits(digits) && !IsDigit(unit)
    ensures DigitsEnd(digits + [unit]) == |digits|
  {
    var s := digits + [unit];
    if digits != "" {
      DigitsThenUnit(digits[1..], unit);
      assert s[1..] == digits[1..] + [unit];
    }
  }

  lemma NothingToTrim(digits: string)
    requires digits != "" && AllDigits(digits)
    ensures ToAsciiLowercase(Trim(digits + "m")) == digits + "m"
  {
    var s := digits + "m";
    assert IsDigit(s[0]) && !IsWhitespace(s[0]) && !IsWhitespace('m');
    assert TrimStart(s) == s;
    assert TrimEnd(s) == s;
    forall i | 0 <= i < |s| ensures Lower(s[i]) == s[i] {
      if i < |digits| {
        assert IsDigit(digits[i]);
      }
    }
  }

  /** A printed size reads back as itself exactly when it is a positive whole number of mebibytes. */
  lemma PrintedSizeReadsBack(bytes: nat)
    requires bytes <= U64_MAX
    ensures ParseBinarySize(FormatMebibytes(bytes)) == Some(bytes) <==> bytes >= MIB && bytes % MIB == 0
    ensures ParseBinarySize(FormatMebibytes(bytes)) == if bytes >= MIB then Some(WholeMebibytes(bytes)) else None
  {
    hide Trim, ToAsciiLowercase, Decimal, Value, DigitsEnd;
    var n := bytes / MIB;
    var digits := Decimal(n);
    DecimalReadsBack(n);
    NothingToTrim(digits);
    DigitsThenUnit(digits, 'm');
    var normalized := digits + "m";
    assert normalized[..|digits|] == digits && normalized[|digits|..] == "m";
    assert digits[0] != '+';
    assert n * MIB <= bytes;
  }

  /** A unit as it may be written: any case, with or without the b. */
  function UnitBytes(unit: string): Option<nat> {
    var u := ToAsciiLowercase(unit);
    if u in {"", "b"} then Some(1)
    else if u in {"k", "kb", "kib"} then Some(1_024)
    else if u in {"m", "mb", "mib"} then Some(1_048_576)
    else if u in {"g", "gb", "gib"} then Some(1_073_741_824)
    else None
  }

  predicate Blank(s: string) { forall i :: 0 <= i < |s| ==> IsWhitespace(s[i]) }

  lemma {:induction false} TrimsStart(front: string, s: string)
    requires Blank(front) && s != "" && !IsWhitespace(s[0])
    ensures TrimStart(front + s) == s
  {
    if front == "" {
      assert front + s == s;
    } else {
      assert (front + s)[1..] == front[1..] + s;
      TrimsStart(front[1..], s);
    }
  }

  lemma {:induction false} TrimsEnd(s: string, back: string)
    requires Blank(back) && s != "" && !IsWhitespace(s[|s| - 1])
    ensures TrimEnd(s + back) == s
    decreases |back|
  {
    if back == "" {
      assert s + back == s;
    } else {
      var shorter := back[..|back| - 1];
      assert (s + back)[..|s + back| - 1] == s + shorter;
      TrimsEnd(s, shorter);
    }
  }

  lemma {:induction false} DigitsStopAt(digits: string, unit: string)
    requires AllDigits(digits) && (unit != "" ==> !IsDigit(unit[0]))
    ensures DigitsEnd(digits + unit) == |digits|
  {
    var s := digits + unit;
    if digits == "" {
      assert s == unit;
    } else {
      DigitsStopAt(digits[1..], unit);
      assert s[1..] == digits[1..] + unit;
    }
  }

  lemma LowerIsNoDigit(unit: string)
    requires unit != "" && !IsDigit(unit[0])
    ensures !IsDigit(ToAsciiLowercase(unit)[0])
  {
  }

  lemma LowerKeepsDigits(digits: string, unit: string)
    requires AllDigits(digits)
    ensures ToAsciiLowercase(digits + unit) == digits + ToAsciiLowercase(unit)
  {
    assert forall i :: 0 <= i < |digits| ==> IsDigit(digits[i]) && Lower(digits[i]) == digits[i];
  }

  /**
   A size is read for every number, unit, case and surrounding white space: the number times
   the unit, when the unit exists, the number is positive and the product fits.
   */
  lemma SizesAreRead(front: string, n: nat, unit: string, back: string)
    requires Blank(front) && Blank(back)
    requires unit != "" ==> !IsDigit(unit[0]) && !IsWhitespace(unit[|unit| - 1])
    ensures ParseBinarySize(front + (Decimal(n) + unit) + back)
      == if n > 0 && n <= U64_MAX && UnitBytes(unit).Some? && n * UnitBytes(unit).value <= U64_MAX
         then Some(n * UnitBytes(unit).value) else None
  {
    hide Decimal, Value, DigitsEnd, TrimStart, TrimEnd, ToAsciiLowercase;
    var digits := Decimal(n);
    DecimalReadsBack(n);
    var text := digits + unit;
    assert IsDigit(text[0]) && !IsWhitespace(text[0]);
    assert unit == "" ==> IsDigit(text[|text| - 1]);
    assert !IsWhitespace(text[|text| - 1]);
    assert front + text + back == front + (text + back);
    TrimsStart(front, text + back);
    TrimsEnd(text, back);
    LowerKeepsDigits(digits, unit);
    if unit != "" {
      LowerIsNoDigit(unit);
    } else {
      LowerNothing();
    }
    var lower := ToAsciiLowercase(unit);
    DigitsStopAt(digits, lower);
    var normalized := digits + lower;
    assert normalized[..|digits|] == digits && normalized[|digits|..] == lower;
    assert digits[0] != '+';
  }

  lemma LowerNothing()
    ensures ToAsciiLowercase("") == ""
  {
  }

  // ---------------------------------------------------------------- planning

  /** At least one CPU; the count is a u16 and the memory a u64. */
  datatype HostResources = HostResources(logicalCpus: nat, memoryBytes: nat)

  predicate Host(h: HostResources) { 1 <= h.logicalCpus <= U16_MAX && h.memoryBytes <= U64_MAX }

  datatype ResourcePlan = ResourcePlan(
    maxConcurrency: nat, cpusPerJob: nat, memoryPerJobBytes: nat, capacityCpus: nat, capacityMemoryBytes: nat)

  function MaximumConcurrency(h: HostResources): nat { Clamp(Min(h.logicalCpus, h.memoryBytes / GIB), 1, 100) }

  function RecommendedConcurrency(h: HostResources): nat {
    Clamp(Min(h.logicalCpus / TARGET_CPUS_PER_JOB, h.memoryBytes / TARGET_MEMORY_PER_JOB), 1, 100)
  }

  function WholeMebibytes(bytes: nat): (r: nat)
    ensures r <= bytes && r % MIB == 0 && (r >= MIB <==> bytes >= MIB)
  {
    bytes / MIB * MIB
  }

  function MemoryShare(memoryBytes: nat, jobs: nat): nat
    requires jobs > 0
  {
    if memoryBytes / jobs <= TARGET_MEMORY_PER_JOB then memoryBytes / jobs else TARGET_MEMORY_PER_JOB
  }

  function PlanResources(h: HostResources, jobs: nat): Option<ResourcePlan> {
    if !(1 <= jobs <= MaximumConcurrency(h)) then None
    else
      Some(ResourcePlan(
        jobs, Clamp(h.logicalCpus / jobs, 1, TARGET_CPUS_PER_JOB),
        WholeMebibytes(MemoryShare(h.memoryBytes, jobs)),
        Min(h.logicalCpus, 256), WholeMebibytes(h.memoryBytes)))
  }

  // ---------------------------------------------------------------- validation

  /** The executor settings a plan decides. */
  datatype Sandbox = Sandbox(cpus: nat, memory: string, capacityCpus: nat, capacityMemory: string)

  function Configured(plan: ResourcePlan): Sandbox {
    Sandbox(plan.cpusPerJob, FormatMebibytes(plan.memoryPerJobBytes), plan.capacityCpus,
            FormatMebibytes(plan.capacityMemoryBytes))
  }

  /** What `Config::validate` asks of them. */
  predicate Validates(s: Sandbox, jobs: nat) {
    && 1 <= jobs <= 100
    && Trim(s.memory) != "" && Trim(s.capacityMemory) != ""
    && 1 <= s.cpus <= 64 && 1 <= s.capacityCpus <= 256
    && ParseBinarySize(s.memory).Some? && ParseBinarySize(s.capacityMemory).Some?
  }

  function SaturatingMul(a: nat, b: nat, largest: nat): nat { if a * b <= largest then a * b else largest }

  /** What `validate_production` asks of them. */
  predicate ValidatesForProduction(s: Sandbox, jobs: nat) {
    && SaturatingMul(s.cpus, jobs, U64_MAX) <= s.capacityCpus
    && ParseBinarySize(s.memory).Some? && ParseBinarySize(s.capacityMemory).Some?
    && SaturatingMul(ParseBinarySize(s.memory).value, jobs, U64_MAX) <= ParseBinarySize(s.capacityMemory).value
  }

  lemma DivideThenMultiply(n: nat, d: nat)
    requires d > 0
    ensures n / d * d <= n
  {
  }

  /** Whole mebibytes per job, times the jobs, fit the whole mebibytes of the host. */
  lemma MemoryFits(memory: nat, jobs: nat)
    requires jobs > 0
    ensures WholeMebibytes(MemoryShare(memory, jobs)) * jobs <= WholeMebibytes(memory)
  {
    var share := MemoryShare(memory, jobs);
    var units := share / MIB;
    DivideThenMultiply(memory, jobs);
    DivideThenMultiply(share, MIB);
    assert units * MIB * jobs <= memory by {
      assert units * MIB <= memory / jobs;
      TimesMonotone(units * MIB, memory / jobs, jobs);
    }
    assert units * MIB * jobs == units * jobs * MIB by {
      assert units * jobs * MIB == units * (jobs * MIB) == units * (MIB * jobs) == units * MIB * jobs;
    }
    WholeUnits(units * jobs, memory);
  }

  lemma TimesMonotone(a: nat, b: nat, c: nat)
    requires a <= b
    ensures a * c <= b * c
  {
  }

  lemma WholeUnits(units: nat, memory: nat)
    requires units * MIB <= memory
    ensures units * MIB <= memory / MIB * MIB
  {
  }

  /** The jobs together take no more CPUs than the host has. */
  lemma CpusFit(cpus: nat, jobs: nat)
    requires 0 < jobs <= cpus
    ensures var perJob := Clamp(cpus / jobs, 1, TARGET_CPUS_PER_JOB);
      perJob == Min(cpus / jobs, TARGET_CPUS_PER_JOB) && perJob * jobs <= cpus
  {
    DivideThenMultiply(cpus, jobs);
    assert cpus / jobs >= 1;
    TimesMonotone(Min(cpus / jobs, TARGET_CPUS_PER_JOB), cpus / jobs, jobs);
  }

  /**
   An accepted plan passes both validations after it is printed and read back, exactly when
   the host has a mebibyte of memory and the jobs' CPUs fit the 256 the capacity can say.
   */
  lemma AcceptedPlanValidatesExactly(h: HostResources, jobs: nat)
    requires Host(h) && PlanResources(h, jobs).Some?
    ensures var s := Configured(PlanResources(h, jobs).value);
      Validates(s, jobs) && ValidatesForProduction(s, jobs)
      <==> h.memoryBytes >= MIB && Min(h.logicalCpus / jobs, TARGET_CPUS_PER_JOB) * jobs <= 256
  {
    hide WholeMebibytes, MemoryShare, ParseBinarySize, FormatMebibytes, Trim;
    var plan := PlanResources(h, jobs).value;
    JobsFit(h, jobs);
    CpusFit(h.logicalCpus, jobs);
    MemoryFits(h.memoryBytes, jobs);
    ShareHasAMebibyte(h.memoryBytes, jobs);
    PrintedSizeReadsBack(plan.memoryPerJobBytes);
    PrintedSizeReadsBack(plan.capacityMemoryBytes);
    PrintedIsNotBlank(plan.memoryPerJobBytes);
    PrintedIsNotBlank(plan.capacityMemoryBytes);
  }

  lemma JobsFit(h: HostResources, jobs: nat)
    requires Host(h) && PlanResources(h, jobs).Some?
    ensures 0 < jobs <= 100 && jobs <= h.logicalCpus && (jobs > 1 ==> jobs * GIB <= h.memoryBytes)
  {
    hide WholeMebibytes, MemoryShare;
    DivideThenMultiply(h.memoryBytes, GIB);
    if jobs > 1 {
      TimesMonotone(jobs, h.memoryBytes / GIB, GIB);
    }
  }

  lemma PrintedIsNotBlank(bytes: nat)
    ensures Trim(FormatMebibytes(bytes)) != ""
  {
    DecimalReadsBack(bytes / MIB);
    var s := FormatMebibytes(bytes);
    assert IsDigit(s[0]) && s[|s| - 1] == 'm' && !IsWhitespace('m') && !IsWhitespace(s[0]);
    assert TrimStart(s) == s && TrimEnd(s) == s;
  }

  lemma ShareHasAMebibyte(memory: nat, jobs: nat)
    requires jobs > 0 && memory <= U64_MAX && (jobs > 1 ==> jobs * GIB <= memory)
    ensures memory >= MIB <==> MemoryShare(memory, jobs) >= MIB
    ensures MemoryShare(memory, jobs) <= memory
  {
    if jobs > 1 {
      QuotientAtLeast(memory, jobs, GIB);
    }
    DivideThenMultiply(memory, jobs);
    SmallerQuotient(memory / jobs, jobs, memory);
  }

  lemma QuotientAtLeast(n: nat, d: nat, q: nat)
    requires d > 0 && d * q <= n
    ensures n / d >= q
  {
    assert n < (n / d + 1) * d;
    if n / d + 1 <= q {
      TimesMonotone(n / d + 1, q, d);
      assert false;
    }
  }

  lemma SmallerQuotient(q: nat, d: nat, n: nat)
    requires d > 0 && q * d <= n
    ensures q <= n
  {
    TimesMonotone(1, d, q);
  }

  /** The hosts and job counts that meet the CPU condition: all but large hosts cut into many jobs. */
  lemma CapacityFieldSuffices(cpus: nat, jobs: nat)
    requires 0 < jobs <= cpus && jobs <= 100
    ensures Min(cpus / jobs, TARGET_CPUS_PER_JOB) * jobs <= 256
      <==> !((jobs >= 65 && cpus >= 4 * jobs) || (jobs >= 86 && cpus >= 3 * jobs))
    ensures cpus <= 256 || jobs <= 64 ==> Min(cpus / jobs, TARGET_CPUS_PER_JOB) * jobs <= 256
  {
    CpusFit(cpus, jobs);
    assert cpus >= 4 * jobs <==> cpus / jobs >= 4;
    assert cpus >= 3 * jobs <==> cpus / jobs >= 3;
  }

  /**
   What setup recommends it also accepts; but the recommended plan validates only up to 64
   jobs, so on the largest hosts the recommendation itself is refused.
   */
  lemma RecommendationValidatesExactly(h: HostResources)
    requires Host(h)
    ensures RecommendedConcurrency(h) <= MaximumConcurrency(h) && PlanResources(h, RecommendedConcurrency(h)).Some?
    ensures var jobs := RecommendedConcurrency(h);
      var s := Configured(PlanResources(h, jobs).value);
      Validates(s, jobs) && ValidatesForProduction(s, jobs) <==> h.memoryBytes >= MIB && jobs <= 64
  {
    var jobs := RecommendedConcurrency(h);
    assert h.memoryBytes / TARGET_MEMORY_PER_JOB <= h.memoryBytes / GIB;
    AcceptedPlanValidatesExactly(h, jobs);
    CapacityFieldSuffices(h.logicalCpus, jobs);
    assert jobs > 1 ==> h.logicalCpus >= 4 * jobs;
  }

  /**
   Such a host: on 512 CPUs and a tebibyte setup recommends 100 jobs of four CPUs each, and
   validation refuses the 256 CPUs that the plan can offer them.
   */
  lemma LargeHostIsRefused()
    ensures var h := HostResources(512, 1024 * GIB);
      && Host(h) && RecommendedConcurrency(h) == 100 && PlanResources(h, 100).Some?
      && var s := Configured(PlanResources(h, 100).value);
      && s.cpus == 4 && s.capacityCpus == 256
      && Validates(s, 100) && !ValidatesForProduction(s, 100)
  {
    hide ParseBinarySize, Trim, FormatMebibytes;
    var h := HostResources(512, 1024 * GIB);
    var plan := PlanResources(h, 100).value;
    PrintedSizeReadsBack(plan.memoryPerJobBytes);
    PrintedSizeReadsBack(plan.capacityMemoryBytes);
    PrintedIsNotBlank(plan.memoryPerJobBytes);
    PrintedIsNotBlank(plan.capacityMemoryBytes);
  }

  // ---------------------------------------------------------------- the choices, as the best there are

  lemma QuotientIsLargest(n: nat, d: nat)
    requires d > 0
    ensures n / d * d <= n < (n / d + 1) * d
    ensures forall q: nat :: q * d <= n ==> q <= n / d
  {
    forall q: nat | q * d <= n ensures q <= n / d {
      if q > n / d {
        TimesMonotone(n / d + 1, q, d);
        assert false;
      }
    }
  }

  /** Jobs that all have their target share of the host. */
  predicate Comfortable(h: HostResources, jobs: nat) {
    jobs * TARGET_CPUS_PER_JOB <= h.logicalCpus && jobs * TARGET_MEMORY_PER_JOB <= h.memoryBytes
  }

  /** Jobs that all have a CPU and a gibibyte. */
  predicate Bearable(h: HostResources, jobs: nat) { jobs <= h.logicalCpus && jobs * GIB <= h.memoryBytes }

  lemma Comfort(h: HostResources, jobs: nat)
    ensures Comfortable(h, jobs) <==> jobs <= Min(h.logicalCpus / TARGET_CPUS_PER_JOB, h.memoryBytes / TARGET_MEMORY_PER_JOB)
    ensures Bearable(h, jobs) <==> jobs <= Min(h.logicalCpus, h.memoryBytes / GIB)
  {
    AtMostTheQuotient(jobs, h.logicalCpus, TARGET_CPUS_PER_JOB);
    AtMostTheQuotient(jobs, h.memoryBytes, TARGET_MEMORY_PER_JOB);
    AtMostTheQuotient(jobs, h.memoryBytes, GIB);
  }

  lemma AtMostTheQuotient(q: nat, n: nat, d: nat)
    requires d > 0
    ensures q * d <= n <==> q <= n / d
  {
    QuotientIsLargest(n, d);
    if q <= n / d {
      TimesMonotone(q, n / d, d);
    }
  }

  /** The recommendation is the most comfortable jobs up to 100, and the maximum the most bearable; one at least. */
  lemma ConcurrencyIsTheMost(h: HostResources)
    ensures var r := RecommendedConcurrency(h);
      && 1 <= r <= 100 && (r > 1 ==> Comfortable(h, r))
      && forall jobs: nat :: jobs <= 100 && Comfortable(h, jobs) ==> jobs <= r
    ensures var m := MaximumConcurrency(h);
      && 1 <= m <= 100 && (m > 1 ==> Bearable(h, m))
      && forall jobs: nat :: jobs <= 100 && Bearable(h, jobs) ==> jobs <= m
  {
    hide Comfortable, Bearable;
    forall jobs: nat
      ensures Comfortable(h, jobs) <==> jobs <= Min(h.logicalCpus / TARGET_CPUS_PER_JOB, h.memoryBytes / TARGET_MEMORY_PER_JOB)
      ensures Bearable(h, jobs) <==> jobs <= Min(h.logicalCpus, h.memoryBytes / GIB)
    {
      Comfort(h, jobs);
    }
  }

  /**
   A plan exists for every number of jobs up to the maximum. It gives each job as many CPUs,
   up to four, and as many whole mebibytes, up to eight gibibytes, as the host has for all of
   them; and offers the host's CPUs up to 256 and its whole mebibytes.
   */
  lemma PlanIsTheMost(h: HostResources, jobs: nat)
    requires Host(h)
    ensures PlanResources(h, jobs).Some? <==> 1 <= jobs <= MaximumConcurrency(h)
    ensures PlanResources(h, jobs).Some? ==>
      var p := PlanResources(h, jobs).value;
      && p.maxConcurrency == jobs
      && 1 <= p.cpusPerJob <= TARGET_CPUS_PER_JOB && p.cpusPerJob * jobs <= h.logicalCpus
      && (p.cpusPerJob == TARGET_CPUS_PER_JOB || (p.cpusPerJob + 1) * jobs > h.logicalCpus)
      && p.capacityCpus == (if h.logicalCpus <= 256 then h.logicalCpus else 256)
    ensures PlanResources(h, jobs).Some? ==>
      var p := PlanResources(h, jobs).value;
      && p.memoryPerJobBytes % MIB == 0 && p.memoryPerJobBytes <= TARGET_MEMORY_PER_JOB
      && p.memoryPerJobBytes * jobs <= h.memoryBytes
      && (p.memoryPerJobBytes == TARGET_MEMORY_PER_JOB || (p.memoryPerJobBytes + MIB) * jobs > h.memoryBytes)
      && p.capacityMemoryBytes % MIB == 0 && p.capacityMemoryBytes <= h.memoryBytes < p.capacityMemoryBytes + MIB
  {
    hide WholeMebibytes, MemoryShare, MaximumConcurrency;
    if PlanResources(h, jobs).Some? {
      JobsFit(h, jobs);
      CpusFit(h.logicalCpus, jobs);
      QuotientIsLargest(h.logicalCpus, jobs);
      ShareIsTheMost(h.memoryBytes, jobs);
      WholeIsTheMost(h.memoryBytes);
    }
  }

  lemma WholeIsTheMost(bytes: nat)
    ensures WholeMebibytes(bytes) % MIB == 0 && WholeMebibytes(bytes) <= bytes < WholeMebibytes(bytes) + MIB
  {
  }

  lemma ShareIsTheMost(memory: nat, jobs: nat)
    requires jobs > 0
    ensures var bytes := WholeMebibytes(MemoryShare(memory, jobs));
      && bytes % MIB == 0 && bytes <= TARGET_MEMORY_PER_JOB && bytes * jobs <= memory
      && (bytes == TARGET_MEMORY_PER_JOB || (bytes + MIB) * jobs > memory)
  {
    hide WholeMebibytes;
    var share := MemoryShare(memory, jobs);
    var bytes := WholeMebibytes(share);
    QuotientIsLargest(memory, jobs);
    WholeIsTheMost(share);
    TimesMonotone(bytes, memory / jobs, jobs);
    if share == TARGET_MEMORY_PER_JOB {
      EightGibibytesAreWhole();
    } else {
      TimesMonotone(share + 1, bytes + MIB, jobs);
    }
  }

  lemma EightGibibytesAreWhole()
    ensures WholeMebibytes(TARGET_MEMORY_PER_JOB) == TARGET_MEMORY_PER_JOB
  {
  }

  /** The bounds of validation are inclusive, with any memory that can be read. */
  lemma ValidationBounds(jobs: nat, cpus: nat, capacity: nat, gibibytes: nat, total: nat)
    requires 1 <= gibibytes && gibibytes * GIB <= U64_MAX && 1 <= total && total * GIB <= U64_MAX
    ensures var s := Sandbox(cpus, Decimal(gibibytes) + "g", capacity, Decimal(total) + "g");
      && (Validates(s, jobs) <==> 1 <= jobs <= 100 && 1 <= cpus <= 64 && 1 <= capacity <= 256)
      && (cpus * jobs <= U64_MAX && gibibytes * GIB * jobs <= U64_MAX ==>
            (ValidatesForProduction(s, jobs) <==> cpus * jobs <= capacity && gibibytes * GIB * jobs <= total * GIB))
  {
    hide ParseBinarySize, Decimal, Trim;
    GibibytesRead(gibibytes);
    GibibytesRead(total);
  }

  lemma GibibytesRead(n: nat)
    requires 1 <= n && n * GIB <= U64_MAX
    ensures ParseBinarySize(Decimal(n) + "g") == Some(n * GIB) && Trim(Decimal(n) + "g") != ""
  {
    hide ParseBinarySize, Decimal, Value;
    DecimalReadsBack(n);
    var text := Decimal(n) + "g";
    assert ToAsciiLowercase("g") == "g";
    SizesAreRead("", n, "g", "");
    assert "" + text + "" == text;
    assert IsDigit(text[0]) && !IsWhitespace(text[0]);
    TrimsStart("", text);
    TrimsEnd(text, "");
    assert "" + text == text && text + "" == text;
  }
}
