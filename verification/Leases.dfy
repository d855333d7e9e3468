/** The tool leases of internal/resources/resources.go: slots from live statistics,
    admission, and the two counters. Fractions are exact reals. */
module Leases {

  /** Live statistics; the core count and the installed memory do not change. */
  datatype Stats = Stats(availableMB: int, load: real)

  datatype Level = Normal | Caution | Critical

  datatype Settings = Settings(
      cores: int, totalMB: int, criticalMB: int, cpuLoad: real, limitBytes: int, scanBudgetMB: int, overheadMB: int)

  const MINIMUM_HEAVY_MB := 256

  function Min(a: int, b: int): int {
    if a < b then a else b
  }

  function Max(a: int, b: int): int {
    if a > b then a else b
  }

  function Ceil(x: real): int {
    -(-x).Floor
  }

  // ----- the arithmetic ----------------------------------------------------

  function AutoHeavyLimitMB(s: Settings): (r: int)
    ensures r >= 256
  {
    // Go truncates toward zero; a negative total ends at the floor of 256 either way.
    var limit := Max(256, Min(4096, if s.totalMB < 0 then 0 else s.totalMB / 4));
    var budgeted := s.scanBudgetMB - s.overheadMB;
    if budgeted >= 256 && limit > budgeted then budgeted else limit
  }

  function AutoHeavyLoad(cores: int): (r: real)
    ensures r > 0.0
  {
    if cores <= 1 then 0.85 else if cores == 2 then 0.90 else 1.0
  }

  function Cores(s: Settings): (r: int)
    ensures r >= 1
  {
    Max(1, s.cores)
  }

  function LoadPerCore(s: Settings, stats: Stats): (r: real)
    ensures r >= 1.0
  {
    var load := stats.load / (Cores(s) as real);
    if load < 1.0 then 1.0 else load
  }

  function CpuBudget(s: Settings): (r: real)
    ensures r > 0.0
  {
    if s.cpuLoad <= 0.0 then AutoHeavyLoad(s.cores) else s.cpuLoad
  }

  function HeavyRatio(s: Settings, stats: Stats): real {
    (Cores(s) as real) / (CpuBudget(s) * LoadPerCore(s, stats))
  }

  function HeavyCpuSlots(s: Settings, stats: Stats): (r: int)
    ensures r >= 1
  {
    Max(1, HeavyRatio(s, stats).Floor)
  }

  function LightCpuSlots(s: Settings, stats: Stats): (r: int)
    ensures r >= 1
  {
    Max(1, Ceil((Cores(s) * Cores(s)) as real / LoadPerCore(s, stats)))
  }

  function ParallelCap(cores: int): int {
    if cores <= 1 then 1 else if cores == 2 then 2 else Max(2, cores - 1)
  }

  function EstimateMB(s: Settings, heavy: bool): (r: int)
    ensures r >= 1
  {
    if heavy then AutoHeavyLimitMB(s) else Max(1, AutoHeavyLimitMB(s) / Cores(s))
  }

  function SpareMB(s: Settings, stats: Stats): int {
    stats.availableMB - s.criticalMB
  }

  function HeavySlots(s: Settings, stats: Stats): int {
    var spare := SpareMB(s, stats);
    if spare <= 0 then 0
    else Min(Max(1, spare / EstimateMB(s, true)), Min(HeavyCpuSlots(s, stats), ParallelCap(s.cores)))
  }

  function LightSlots(s: Settings, stats: Stats): int {
    var spare := SpareMB(s, stats);
    if spare <= 0 then 0
    else Max(Min(Max(1, spare / EstimateMB(s, false)), LightCpuSlots(s, stats)), HeavySlots(s, stats))
  }

  /** Go's integer division of a possibly negative spare is not reached: the
      negative case returns before it. */
  function LimitMB(s: Settings, stats: Stats, level: Level, heavy: bool, total: nat, heavies: nat): int {
    var most := if s.limitBytes <= 0 then 0 else s.limitBytes / 0x10_0000;
    var spare := SpareMB(s, stats);
    if most <= 0 then 0
    else if spare <= 0 then MINIMUM_HEAVY_MB
    else
      var share := spare / Max(1, if heavy then heavies else total);
      var limit := Min(if level == Caution then share * 3 / 4 else share, most);
      Max(limit, if heavy then MINIMUM_HEAVY_MB else 128)
  }

  predicate SlotFree(s: Settings, stats: Stats, heavy: bool, total: nat, heavies: nat) {
    (heavy ==> heavies < HeavySlots(s, stats)) && total < LightSlots(s, stats)
  }

  predicate TooLittleMemory(s: Settings, stats: Stats, level: Level, heavy: bool, total: nat, heavies: nat) {
    heavy && s.limitBytes > 0 && LimitMB(s, stats, level, true, total + 1, heavies + 1) < MINIMUM_HEAVY_MB
  }

  // ----- what the slots promise --------------------------------------------

  lemma {:induction false} CeilBound(x: real, n: int)
    requires x <= n as real
    ensures Ceil(x) <= n
  {
    assert (-x).Floor >= -n by {
      assert -x >= (-n) as real;
    }
  }

  lemma {:induction false} QuotientBelow(x: real, d: real)
    requires x >= 0.0 && d >= 1.0
    ensures x / d <= x
  {
    assert x / d * d == x;
    var q := x / d;
    assert q >= 0.0;
    assert q * (d - 1.0) >= 0.0;
    assert q * d == q * (d - 1.0) + q;
  }

  /** Whatever the statistics say, the slots stay under the caps. */
  lemma {:induction false} SlotCaps(s: Settings, stats: Stats)
    ensures 0 <= HeavySlots(s, stats) <= LightSlots(s, stats)
    ensures HeavySlots(s, stats) <= ParallelCap(s.cores)
    ensures LightSlots(s, stats) <= Cores(s) * Cores(s)
  {
    hide LoadPerCore, HeavyCpuSlots, EstimateMB;
    var n := Cores(s) * Cores(s);
    assert n >= 1 && n >= Cores(s) by {
      assert Cores(s) * Cores(s) == Cores(s) + Cores(s) * (Cores(s) - 1);
      Product(Cores(s), Cores(s) - 1);
    }
    assert s.cores == 2 ==> n == 4;
    QuotientBelow(n as real, LoadPerCore(s, stats));
    CeilBound(n as real / LoadPerCore(s, stats), n);
  }

  lemma {:induction false} Product(a: int, b: int)
    requires a >= 0 && b >= 0
    ensures a * b >= 0
  {
  }

  /** With memory above the floor there is a slot of each kind. */
  lemma {:induction false} SomeSlot(s: Settings, stats: Stats)
    requires SpareMB(s, stats) > 0
    ensures HeavySlots(s, stats) >= 1 && LightSlots(s, stats) >= 1
  {
    hide LoadPerCore;
  }

  /** The refusal for memory: exactly for a limit that is configured, but below
      one megabyte; a limit in whole megabytes never meets it. */
  lemma {:induction false} TooLittleExactly(s: Settings, stats: Stats, level: Level, total: nat, heavies: nat)
    ensures TooLittleMemory(s, stats, level, true, total, heavies) <==> 0 < s.limitBytes < 0x10_0000
    ensures s.limitBytes % 0x10_0000 == 0 ==> !TooLittleMemory(s, stats, level, true, total, heavies)
  {
    hide SpareMB;
  }

  /** No stall: an idle machine above the critical floor admits a tool of either
      kind, whatever its load and level, unless the limit is below a megabyte. */
  lemma {:induction false} NoStall(s: Settings, stats: Stats, level: Level, heavy: bool)
    requires SpareMB(s, stats) > 0 && !(0 < s.limitBytes < 0x10_0000)
    ensures SlotFree(s, stats, heavy, 0, 0) && !TooLittleMemory(s, stats, level, heavy, 0, 0)
  {
    SomeSlot(s, stats);
    TooLittleExactly(s, stats, level, 0, 0);
    hide HeavySlots, LightSlots, LimitMB;
  }

  /** More load never adds a slot, more memory never takes one away. */
  lemma {:induction false} SlotsMonotone(s: Settings, a: Stats, b: Stats)
    requires a.load >= b.load && a.availableMB <= b.availableMB
    ensures HeavySlots(s, a) <= HeavySlots(s, b) && LightSlots(s, a) <= LightSlots(s, b)
  {
    CpuSlotsMonotone(s, a, b);
    SlotCaps(s, b);
    hide HeavyCpuSlots, LightCpuSlots, EstimateMB, ParallelCap;
    if SpareMB(s, a) > 0 {
      Quotients(SpareMB(s, a), SpareMB(s, b), EstimateMB(s, true));
      Quotients(SpareMB(s, a), SpareMB(s, b), EstimateMB(s, false));
      hide SpareMB;
    }
  }

  lemma {:induction false} CpuSlotsMonotone(s: Settings, a: Stats, b: Stats)
    requires a.load >= b.load
    ensures HeavyCpuSlots(s, a) <= HeavyCpuSlots(s, b) && LightCpuSlots(s, a) <= LightCpuSlots(s, b)
  {
    Slower(a.load, b.load, Cores(s) as real);
    var x, y := LoadPerCore(s, a), LoadPerCore(s, b);
    assert 1.0 <= y <= x;
    hide LoadPerCore, Cores;
    HeavyCpuMonotone(s, a, b);
    var m := (Cores(s) * Cores(s)) as real;
    Product(Cores(s), Cores(s));
    Larger(m, y, x);
    FloorMonotone(-(m / y), -(m / x));
  }

  lemma {:induction false} HeavyCpuMonotone(s: Settings, a: Stats, b: Stats)
    requires LoadPerCore(s, b) <= LoadPerCore(s, a)
    ensures HeavyCpuSlots(s, a) <= HeavyCpuSlots(s, b)
  {
    hide LoadPerCore, Cores, CpuBudget;
    Scaled(CpuBudget(s), LoadPerCore(s, b), LoadPerCore(s, a));
    Larger(Cores(s) as real, CpuBudget(s) * LoadPerCore(s, b), CpuBudget(s) * LoadPerCore(s, a));
    FloorMonotone(HeavyRatio(s, a), HeavyRatio(s, b));
  }

  lemma {:induction false} FloorMonotone(x: real, y: real)
    requires x <= y
    ensures x.Floor <= y.Floor
  {
  }

  lemma {:induction false} Slower(x: real, y: real, n: real)
    requires x >= y && n > 0.0
    ensures x / n >= y / n
  {
  }

  lemma {:induction false} Scaled(c: real, x: real, y: real)
    requires c > 0.0 && 1.0 <= x <= y
    ensures 0.0 < c * x <= c * y
  {
  }

  lemma {:induction false} Larger(n: real, x: real, y: real)
    requires n >= 0.0 && 0.0 < x <= y
    ensures n / y <= n / x
  {
    var p, q := n / x, n / y;
    assert p * x == n && q * y == n && q >= 0.0;
    assert q * x <= q * y;
    Cancel(q, p, x);
  }

  lemma {:induction false} Cancel(q: real, p: real, x: real)
    requires q * x <= p * x && x > 0.0
    ensures q <= p
  {
  }

  lemma {:induction false} Quotients(a: int, b: int, d: int)
    requires 0 <= a <= b && d >= 1
    ensures a / d <= b / d
  {
    assert a == d * (a / d) + a % d;
    if a / d > b / d {
      QuotientAbove(b, d, a / d);
    }
  }

  lemma {:induction false} QuotientAbove(b: int, d: int, q: int)
    requires b >= 0 && d >= 1 && q > b / d
    ensures d * q > b
  {
    assert b == d * (b / d) + b % d;
    Product(d, q - b / d - 1);
    assert d * (q - b / d - 1) == d * q - d * (b / d) - d;
  }

  /** What a lease may use: its share, never more than configured except for the
      floors of 256 and 128 megabytes. */
  lemma {:induction false} LimitRange(s: Settings, stats: Stats, level: Level, heavy: bool, total: nat, heavies: nat)
    requires s.limitBytes >= 0x10_0000 && SpareMB(s, stats) > 0
    ensures var limit, least := LimitMB(s, stats, level, heavy, total, heavies), if heavy then 256 else 128;
            && least <= limit <= Max(least, s.limitBytes / 0x10_0000)
            && limit <= Max(least, SpareMB(s, stats))
  {
    var spare, d := SpareMB(s, stats), Max(1, if heavy then heavies else total);
    assert spare / d <= spare by {
      Shrinks(spare, d);
    }
    hide SpareMB;
  }

  lemma {:induction false} Shrinks(a: int, d: int)
    requires a >= 0 && d >= 1
    ensures 0 <= a / d <= a
  {
    if d > 1 {
      assert a == d * (a / d) + a % d;
      Product(d - 1, a / d);
      assert (d - 1) * (a / d) == d * (a / d) - a / d;
    }
  }

  // ----- the slots, without the divisions ----------------------------------

  /** The load budget of a heavy tool on more than one core. */
  function Budget(s: Settings): real {
    if s.cpuLoad > 0.0 then s.cpuLoad else if s.cores == 2 then 0.90 else 1.0
  }

  /** Room for n heavy tools: some spare memory, and beyond the first tool memory
      for the estimates of all, processors for the budgets of all both at rest and
      at the present load, and one core left over on more than two. */
  predicate HeavyFits(s: Settings, stats: Stats, n: int) {
    && s.criticalMB < stats.availableMB
    && (n > 1 ==>
      && s.criticalMB + n * EstimateMB(s, true) <= stats.availableMB
      && s.cores >= 2 && (n == 2 || n < s.cores)
      && n as real * Budget(s) <= s.cores as real
      && n as real * Budget(s) * stats.load <= (s.cores * s.cores) as real)
  }

  /** Room for n tools by the estimate of a light one. */
  predicate LightFits(s: Settings, stats: Stats, n: int) {
    && s.criticalMB < stats.availableMB
    && (n > 1 ==>
      && s.criticalMB + n * EstimateMB(s, false) <= stats.availableMB
      && s.cores >= 2 && n <= s.cores * s.cores
      && (n - 1) as real * stats.load < (s.cores * s.cores * s.cores) as real)
  }

  /** A heavy tool is estimated at the largest of 256 megabytes and whatever is
      within a quarter of the memory, 4096 megabytes and a budget of 256 or more; a
      light tool at its share of that for one core, and one megabyte or more. */
  lemma {:induction false} EstimateExactly(s: Settings, n: int)
    ensures n <= EstimateMB(s, true) <==>
      || n <= 256
      || (4 * n <= s.totalMB && n <= 4096
        && (s.scanBudgetMB - s.overheadMB >= 256 ==> n <= s.scanBudgetMB - s.overheadMB))
    ensures s.cores >= 1 ==> (n <= EstimateMB(s, false) <==> n <= 1 || n * s.cores <= EstimateMB(s, true))
    ensures s.cores < 1 ==> EstimateMB(s, false) == EstimateMB(s, true)
  {
    if s.cores >= 1 {
      AtMostQuotient(n, AutoHeavyLimitMB(s), s.cores);
    }
  }

  lemma {:induction false} AtMostQuotient(n: int, a: int, d: int)
    requires a >= 0 && d >= 1
    ensures n <= a / d <==> n * d <= a
  {
    assert a == d * (a / d) + a % d;
    if n <= a / d {
      Product(d, a / d - n);
      assert d * (a / d - n) == d * (a / d) - n * d;
    } else {
      QuotientAbove(a, d, n);
    }
  }

  lemma {:induction false} AtMostRatio(n: real, a: real, d: real)
    requires d > 0.0
    ensures n <= a / d <==> n * d <= a
  {
    assert a / d * d == a;
    if n <= a / d {
      assert (a / d - n) * d >= 0.0;
    } else {
      assert (n - a / d) * d > 0.0;
    }
  }

  lemma {:induction false} RealProduct(x: real, y: real)
    requires x >= 0.0 && y >= 0.0
    ensures x * y >= 0.0
  {
  }

  /** The load on one core and the whole load. */
  lemma {:induction false} PerCore(s: Settings, stats: Stats, x: real, y: real)
    requires x >= 0.0
    ensures x * LoadPerCore(s, stats) <= y <==> x <= y && x * stats.load <= y * Cores(s) as real
  {
    var c, load := Cores(s) as real, stats.load / (Cores(s) as real);
    assert load * c == stats.load;
    assert x * stats.load == x * load * c;
    AtMostRatio(x * load, y * c, c);
    assert y * c / c == y;
    if load < 1.0 {
      RealProduct(x, 1.0 - load);
    } else {
      RealProduct(x, load - 1.0);
    }
  }

  lemma {:induction false} HeavyCpuExactly(s: Settings, stats: Stats, n: int)
    requires n > 1 && s.cores >= 2
    ensures n <= HeavyCpuSlots(s, stats) <==>
      && n as real * Budget(s) <= s.cores as real
      && n as real * Budget(s) * stats.load <= (s.cores * s.cores) as real
  {
    hide LoadPerCore;
    var x := n as real * Budget(s);
    assert CpuBudget(s) == Budget(s) > 0.0;
    Positive(Budget(s), LoadPerCore(s, stats));
    AtMostRatio(n as real, s.cores as real, Budget(s) * LoadPerCore(s, stats));
    assert n as real * (Budget(s) * LoadPerCore(s, stats)) == x * LoadPerCore(s, stats);
    hide Budget, CpuBudget;
    assert x >= 0.0;
    PerCore(s, stats, x, s.cores as real);
    assert s.cores as real * s.cores as real == (s.cores * s.cores) as real;
  }

  lemma {:induction false} Positive(x: real, y: real)
    requires x > 0.0 && y >= 1.0
    ensures x * y > 0.0
  {
  }

  /** There are n heavy slots exactly if n heavy tools fit. */
  lemma {:induction false} HeavySlotsExactly(s: Settings, stats: Stats, n: int)
    requires n >= 1
    ensures n <= HeavySlots(s, stats) <==> HeavyFits(s, stats, n)
  {
    hide EstimateMB, HeavyCpuSlots, Budget;
    if SpareMB(s, stats) > 0 && n > 1 {
      AtMostQuotient(n, SpareMB(s, stats), EstimateMB(s, true));
      if s.cores >= 2 {
        HeavyCpuExactly(s, stats, n);
      }
    }
  }

  lemma {:induction false} LightCpuExactly(s: Settings, stats: Stats, n: int)
    requires n > 1
    ensures n <= LightCpuSlots(s, stats) <==>
      && n <= Cores(s) * Cores(s)
      && (n - 1) as real * stats.load < (Cores(s) * Cores(s) * Cores(s)) as real
  {
    hide LoadPerCore, Cores;
    var m, load := (Cores(s) * Cores(s)) as real, LoadPerCore(s, stats);
    CeilAtLeast(m / load, n);
    BelowRatio((n - 1) as real, m, load);
    BelowPerCore(s, stats, (n - 1) as real, m);
    assert m * Cores(s) as real == (Cores(s) * Cores(s) * Cores(s)) as real;
  }

  lemma {:induction false} CeilAtLeast(x: real, n: int)
    ensures n <= Ceil(x) <==> (n - 1) as real < x
  {
    assert (-x).Floor <= -n <==> -x < (1 - n) as real;
  }

  lemma {:induction false} BelowRatio(n: real, a: real, d: real)
    requires d > 0.0
    ensures n < a / d <==> n * d < a
  {
    assert a / d * d == a;
    if n < a / d {
      assert (a / d - n) * d > 0.0;
    } else {
      assert (n - a / d) * d >= 0.0;
    }
  }

  lemma {:induction false} BelowPerCore(s: Settings, stats: Stats, x: real, y: real)
    requires x > 0.0
    ensures x * LoadPerCore(s, stats) < y <==> x < y && x * stats.load < y * Cores(s) as real
  {
    var c, load := Cores(s) as real, stats.load / (Cores(s) as real);
    assert load * c == stats.load;
    assert x * stats.load == x * load * c;
    BelowRatio(x * load, y * c, c);
    assert y * c / c == y;
    if load < 1.0 {
      assert x * (1.0 - load) > 0.0;
    } else {
      assert x * (load - 1.0) >= 0.0;
    }
  }

  lemma {:induction false} LightFitsExactly(s: Settings, stats: Stats, n: int)
    requires n > 1 && SpareMB(s, stats) > 0
    ensures LightFits(s, stats, n) <==>
      n <= SpareMB(s, stats) / EstimateMB(s, false) && n <= LightCpuSlots(s, stats)
  {
    hide EstimateMB, LightCpuSlots;
    LightCpuExactly(s, stats, n);
    AtMostQuotient(n, SpareMB(s, stats), EstimateMB(s, false));
    if s.cores < 2 {
      assert Cores(s) == 1;
      assert Cores(s) * Cores(s) == 1;
    }
  }

  /** There are n slots in all exactly if n tools fit by one of the estimates. */
  lemma {:induction false} LightSlotsExactly(s: Settings, stats: Stats, n: int)
    requires n >= 1
    ensures n <= LightSlots(s, stats) <==> LightFits(s, stats, n) || HeavyFits(s, stats, n)
  {
    hide EstimateMB, LightCpuSlots, HeavySlots, HeavyFits, LightFits;
    HeavySlotsExactly(s, stats, n);
    SlotCaps(s, stats);
    if SpareMB(s, stats) > 0 && n > 1 {
      LightFitsExactly(s, stats, n);
    } else {
      FirstFits(s, stats, n);
    }
  }

  lemma {:induction false} FirstFits(s: Settings, stats: Stats, n: int)
    requires SpareMB(s, stats) <= 0 || n <= 1
    ensures LightFits(s, stats, n) <==> SpareMB(s, stats) > 0
  {
    hide EstimateMB;
  }

  /** Admission by slots: a heavy tool needs room for itself among the heavy ones,
      every tool room among all. */
  lemma {:induction false} AdmittedExactly(s: Settings, stats: Stats, heavy: bool, total: nat, heavies: nat)
    ensures SlotFree(s, stats, heavy, total, heavies) <==>
      && (heavy ==> HeavyFits(s, stats, heavies + 1))
      && (LightFits(s, stats, total + 1) || HeavyFits(s, stats, total + 1))
  {
    hide HeavySlots, LightSlots, HeavyFits, LightFits;
    HeavySlotsExactly(s, stats, heavies + 1);
    LightSlotsExactly(s, stats, total + 1);
  }

  /** The limit of a lease, by the megabytes m it covers: nothing below a configured
      megabyte, the floor without spare memory, and otherwise what is configured and
      the share of the spare memory allow, three quarters of it under caution. */
  lemma {:induction false} LimitExactly(s: Settings, stats: Stats, level: Level, heavy: bool, total: nat, heavies: nat,
                                        share: int, m: int)
    requires var d := if heavy then if heavies == 0 then 1 else heavies else if total == 0 then 1 else total;
             share * d <= stats.availableMB - s.criticalMB < (share + 1) * d
    ensures s.limitBytes < 0x10_0000 ==> LimitMB(s, stats, level, heavy, total, heavies) == 0
    ensures s.limitBytes >= 0x10_0000 && stats.availableMB <= s.criticalMB ==>
      LimitMB(s, stats, level, heavy, total, heavies) == 256
    ensures s.limitBytes >= 0x10_0000 && stats.availableMB > s.criticalMB ==>
      (m <= LimitMB(s, stats, level, heavy, total, heavies) <==>
        || m <= (if heavy then 256 else 128)
        || (m * 0x10_0000 <= s.limitBytes && if level == Caution then 4 * m <= 3 * share else m <= share))
  {
    var spare, d := SpareMB(s, stats), Max(1, if heavy then heavies else total);
    if spare > 0 {
      AtMostQuotient(share, spare, d);
      AtMostQuotient(share + 1, spare, d);
    }
  }

  // ----- the counters ------------------------------------------------------

  class ToolLease {
    const id: nat
    const heavy: bool
    const limitBytes: int
    var released: bool

    constructor (id: nat, heavy: bool, limitBytes: int)
      ensures this.id == id && this.heavy == heavy && this.limitBytes == limitBytes && !released
    {
      this.id, this.heavy, this.limitBytes, this.released := id, heavy, limitBytes, false;
    }
  }

  ghost function Heavy(leases: set<ToolLease>): set<ToolLease> {
    set l | l in leases && l.heavy
  }

  lemma {:induction false} HeavyMore(leases: set<ToolLease>, l: ToolLease)
    requires l !in leases
    ensures |leases + {l}| == |leases| + 1
    ensures |Heavy(leases + {l})| == |Heavy(leases)| + if l.heavy then 1 else 0
  {
    assert Heavy(leases + {l}) == if l.heavy then Heavy(leases) + {l} else Heavy(leases);
  }

  class LeaseManager {
    const settings: Settings
    var active: int
    var heavies: int
    var nextID: nat
    ghost var issued: set<ToolLease>

    constructor (settings: Settings)
      ensures Valid() && this.settings == settings && issued == {} && active == heavies == 0
    {
      this.settings, active, heavies, nextID, issued := settings, 0, 0, 0, {};
    }

    /** The leases that were handed out and not released. */
    ghost function Outstanding(): set<ToolLease>
      reads this, issued
    {
      set l | l in issued && !l.released
    }

    ghost function Returned(): set<ToolLease>
      reads this, issued
    {
      set l | l in issued && l.released
    }

    /** In every reachable state the counters are the numbers of outstanding
        leases, and both stay under the caps of the machine. */
    ghost predicate Valid()
      reads this, issued
    {
      && active == |Outstanding()| && heavies == |Heavy(Outstanding())|
      && heavies <= ParallelCap(settings.cores) && active <= Cores(settings) * Cores(settings)
      && Identified()
    }

    ghost predicate Identified()
      reads this`issued, this`nextID
    {
      && (forall l :: l in issued ==> l.id <= nextID)
      && (forall k, l :: k in issued && l in issued && k.id == l.id ==> k == l)
    }

    /** tryAcquireToolLease, on whatever statistics it read before the lock. */
    method TryAcquire(heavy: bool, stats: Stats, level: Level) returns (lease: ToolLease?)
      requires Valid()
      modifies this
      ensures Valid()
      ensures lease != null <==> SlotFree(settings, stats, heavy, old(|Outstanding()|), old(|Heavy(Outstanding())|))
                                 && !TooLittleMemory(settings, stats, level, heavy, old(|Outstanding()|),
                                    old(|Heavy(Outstanding())|))
      ensures lease == null ==> issued == old(issued) && active == old(active) && heavies == old(heavies)
      ensures lease != null ==>
        && fresh(lease) && lease.heavy == heavy && !lease.released && issued == old(issued) + {lease}
        && Outstanding() == old(Outstanding()) + {lease}
        && lease.limitBytes == LimitMB(settings, stats, level, heavy, old(|Outstanding()|)
           + 1, old(|Heavy(Outstanding())|) + if heavy then 1 else 0) * 0x10_0000
    {
      hide SlotFree, TooLittleMemory, LimitMB, ParallelCap, Cores;
      if !SlotFree(settings, stats, heavy, active, heavies) {
        return null;
      }
      FreeUnderCaps(settings, stats, heavy, active, heavies);
      if TooLittleMemory(settings, stats, level, heavy, active, heavies) {
        return null;
      }
      var limit := LimitMB(settings, stats, level, heavy, active + 1, heavies + if heavy then 1 else 0);
      lease := Grant(heavy, limit);
    }

    /** The counters and the new lease. */
    method Grant(heavy: bool, limitMB: int) returns (lease: ToolLease)
      requires Valid() && active + 1 <= Cores(settings) * Cores(settings)
          && (heavy ==> heavies + 1 <= ParallelCap(settings.cores))
      modifies this
      ensures Valid() && fresh(lease) && lease.heavy == heavy && !lease.released
          && lease.limitBytes == limitMB * 0x10_0000
      ensures issued == old(issued) + {lease} && Outstanding() == old(Outstanding()) + {lease}
    {
      hide ParallelCap, Cores, Heavy;
      ghost var before := Outstanding();
      assert active == |before| && heavies == |Heavy(before)|;
      nextID := nextID + 1;
      lease := new ToolLease(nextID, heavy, limitMB * 0x10_0000);
      active := active + 1;
      if heavy {
        heavies := heavies + 1;
      }
      issued := issued + {lease};
      HeavyMore(before, lease);
      assert Outstanding() == before + {lease};
    }

    /** Release; the second release of a lease changes nothing. */
    method Release(lease: ToolLease?)
      requires Valid() && (lease != null ==> lease in issued)
      modifies this, lease
      ensures Valid() && issued == old(issued)
      ensures lease == null || old(lease.released) ==>
          active == old(active) && heavies == old(heavies) && Outstanding() == old(Outstanding())
      ensures lease != null ==>
          lease.released && Outstanding() == old(Outstanding()) - {lease} && Returned() == old(Returned()) + {lease}
    {
      if lease == null {
        return;
      }
      if lease.released {
        assert lease in Returned() && lease !in Outstanding();
        return;
      }
      hide Valid, Outstanding, Returned;
      GiveBack(lease);
    }

    method GiveBack(lease: ToolLease)
      requires Valid() && lease in issued && !lease.released
      modifies this, lease
      ensures Valid() && issued == old(issued) && lease.released
      ensures Outstanding() == old(Outstanding()) - {lease} && Returned() == old(Returned()) + {lease}
    {
      hide ParallelCap, Cores, Identified;
      ghost var before, after := Outstanding(), Outstanding() - {lease};
      assert active == |before| && heavies == |Heavy(before)|;
      lease.released := true;
      assert before == after + {lease};
      HeavyMore(after, lease);
      if active > 0 {
        active := active - 1;
      }
      if lease.heavy && heavies > 0 {
        heavies := heavies - 1;
      }
      assert Outstanding() == after;
    }
  }

  lemma {:induction false} FreeUnderCaps(s: Settings, stats: Stats, heavy: bool, total: nat, heavies: nat)
    requires SlotFree(s, stats, heavy, total, heavies)
    ensures total + 1 <= Cores(s) * Cores(s) && (heavy ==> heavies + 1 <= ParallelCap(s.cores))
  {
    SlotCaps(s, stats);
    hide HeavySlots, LightSlots, ParallelCap, Cores;
  }
}
