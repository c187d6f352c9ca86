/** KV-cache sizing over exact reals: the longest context that fits, and the fit ladder for hybrid models. */
module Sizing {
  import opened Wrappers

  // added to the window before it counts as saturated
  const SLACK := 16
  const BLOCK := 16
  const MIN_SEQS := 8

  /** The layer split of interleaved sliding-window attention. */
  datatype Sliding = Sliding(full: nat, sliding: nat, total: nat, window: nat)
  {
    predicate Splits() { full + sliding == total && total > 0 }
  }

  function Min(a: int, b: int): int { if a < b then a else b }

  /** Bytes one sequence of *length* tokens occupies. */
  function SeqKvBytes(perToken: real, s: Option<Sliding>, length: nat): real
    requires s.Some? ==> s.value.total > 0
  {
    if s.None? then perToken * length as real else
      var perLayer := perToken / s.value.total as real;
      perLayer * (s.value.full as real * length as real + s.value.sliding as real * Min(s.value.window + SLACK, length) as real)
  }

  /** The longest context, from the rates its full and its sliding layers grow at per token. */
  function FitBy(budget: real, full: real, sliding: real, saturated: nat, cap: nat): int {
    if budget < (full + sliding) * saturated as real then
      // no rate at all and a negative budget would divide by zero
      if full + sliding > 0.0 then Min((budget / (full + sliding)).Floor, cap) else 0
    else if full <= 0.0 then cap
    else Min(((budget - sliding * saturated as real) / full).Floor, cap)
  }

  function FullRate(perToken: real, s: Sliding): real
    requires s.total > 0
  {
    perToken / s.total as real * s.full as real
  }

  function SlidingRate(perToken: real, s: Sliding): real
    requires s.total > 0
  {
    perToken / s.total as real * s.sliding as real
  }

  function FitLen(budget: real, perToken: real, s: Sliding, cap: nat): int
    requires s.total > 0
  {
    FitBy(budget, FullRate(perToken, s), SlidingRate(perToken, s), s.window + SLACK, cap)
  }

  lemma MulMono(a: real, x: real, y: real)
    requires a >= 0.0 && x <= y
    ensures a * x <= a * y
  {
  }

  lemma MulStrict(a: real, x: real, y: real)
    requires a > 0.0 && x < y
    ensures a * x < a * y
  {
  }

  lemma MulReflects(a: real, x: real, y: real)
    requires a > 0.0 && a * x < a * y
    ensures x < y
  {
  }

  lemma Quotient(b: real, a: real) returns (x: real)
    requires a > 0.0
    ensures x == b / a && a * x == b
  {
    x := b / a;
  }

  lemma Within(a: real, b: real, x: real, low: real, high: real)
    requires a > 0.0 && low <= x < high && a * x == b
    ensures a * low <= b
    ensures b < a * high
  {
    MulStrict(a, x, high);
    MulMono(a, low, x);
  }

  lemma FloorTimes(b: real, a: real) returns (q: int)
    requires a > 0.0
    ensures q == (b / a).Floor
    ensures a * q as real <= b
    ensures b < a * (q + 1) as real
  {
    var x := Quotient(b, a);
    q := x.Floor;
    Within(a, b, x, q as real, (q + 1) as real);
  }

  /** A sequence's bytes by the two rates its layers grow at, below and past the window. */
  function Grown(full: real, sliding: real, saturated: nat, length: nat): real {
    full * length as real + sliding * Min(saturated, length) as real
  }

  lemma SeqKvIs(perToken: real, s: Sliding, length: nat)
    requires s.total > 0
    ensures SeqKvBytes(perToken, Some(s), length) == Grown(FullRate(perToken, s), SlidingRate(perToken, s), s.window + SLACK, length)
  {
  }

  lemma GrownMono(full: real, sliding: real, saturated: nat, x: nat, y: nat)
    requires full >= 0.0 && sliding >= 0.0 && x <= y
    ensures Grown(full, sliding, saturated, x) <= Grown(full, sliding, saturated, y)
  {
    MulMono(full, x as real, y as real);
    MulMono(sliding, Min(saturated, x) as real, Min(saturated, y) as real);
  }

  lemma RatesPositive(perToken: real, s: Sliding)
    requires s.Splits() && perToken >= 0.0
    ensures FullRate(perToken, s) >= 0.0 && SlidingRate(perToken, s) >= 0.0
  {
    MulMono(perToken / s.total as real, 0.0, s.full as real);
    MulMono(perToken / s.total as real, 0.0, s.sliding as real);
  }

  lemma AtMost(window: nat, length: nat)
    ensures Min(window + SLACK, length) == if length <= window + 16 then length else window + 16
  {
  }

  lemma PerLayer(perToken: real, s: Sliding, length: nat)
    requires s.Splits()
    ensures length <= s.window + 16 ==> SeqKvBytes(perToken, Some(s), length) == perToken / s.total as real * (s.total as real * length as real)
  {
    AtMost(s.window, length);
    Distribute(s.full as real, s.sliding as real, length as real);
  }

  lemma Distribute(x: real, y: real, z: real)
    ensures x * z + y * z == (x + y) * z
  {
  }

  lemma TimesOver(x: real, n: real, y: real)
    requires n > 0.0
    ensures x / n * (n * y) == x * y
  {
  }

  lemma OneMoreToken(a: real, full: real, sliding: real, length: nat, saturated: nat)
    ensures a * (full * (length + 1) as real + sliding * saturated as real) - a * (full * length as real + sliding * saturated as real) == a * full
  {
    assert (length + 1) as real == length as real + 1.0;
    MoreTimes(full, length as real);
    MoreOf(a, full * length as real + sliding * saturated as real, full);
  }

  lemma MoreTimes(x: real, y: real)
    ensures x * (y + 1.0) == x * y + x
  {
  }

  lemma MoreOf(a: real, x: real, y: real)
    ensures a * (x + y) == a * x + a * y
  {
  }

  /** A sequence takes its bytes per token in every layer until its window and 16 tokens more are full; from then on a token adds
      only the full-attention layers' share. */
  lemma SeqKvGrows(perToken: real, s: Sliding, length: nat)
    requires s.Splits()
    ensures SeqKvBytes(perToken, None, length) == perToken * length as real
    ensures length <= s.window + 16 ==> SeqKvBytes(perToken, Some(s), length) == perToken * length as real
    ensures length >= s.window + 16 ==>
              SeqKvBytes(perToken, Some(s), length + 1) - SeqKvBytes(perToken, Some(s), length) == perToken / s.total as real * s.full as real
  {
    if length <= s.window + 16 {
      PerLayer(perToken, s, length);
      TimesOver(perToken, s.total as real, length as real);
    }
    if length >= s.window + 16 {
      AtMost(s.window, length);
      AtMost(s.window, length + 1);
      OneMoreToken(perToken / s.total as real, s.full as real, s.sliding as real, length, s.window + 16);
    }
  }

  /** The returned length fits the budget, and one more token wouldn't, unless the context cap binds. */
  lemma FitIsExact(budget: real, perToken: real, s: Sliding, cap: nat)
    requires s.Splits() && perToken >= 0.0 && budget >= 0.0
    ensures var length := FitLen(budget, perToken, s, cap);
            0 <= length <= cap && SeqKvBytes(perToken, Some(s), length) <= budget &&
            (length < cap ==> SeqKvBytes(perToken, Some(s), length + 1) > budget)
  {
    RatesPositive(perToken, s);
    FitByExact(budget, FullRate(perToken, s), SlidingRate(perToken, s), s.window + SLACK, cap);
    SeqKvIs(perToken, s, FitLen(budget, perToken, s, cap));
    SeqKvIs(perToken, s, FitLen(budget, perToken, s, cap) + 1);
  }

  lemma FitByExact(budget: real, full: real, sliding: real, saturated: nat, cap: nat)
    requires full >= 0.0 && sliding >= 0.0 && budget >= 0.0
    ensures var length := FitBy(budget, full, sliding, saturated, cap);
            0 <= length <= cap && Grown(full, sliding, saturated, length) <= budget && (length < cap ==> Grown(full, sliding, saturated, length + 1) > budget)
  {
    if budget < (full + sliding) * saturated as real {
      FitBelow(budget, full, sliding, saturated, cap);
    } else if full <= 0.0 {
      FitFlat(budget, full, sliding, saturated, cap);
    } else {
      FitPast(budget, full, sliding, saturated, cap);
    }
  }

  lemma FitBelow(budget: real, full: real, sliding: real, saturated: nat, cap: nat)
    requires full >= 0.0 && sliding >= 0.0 && 0.0 <= budget < (full + sliding) * saturated as real
    ensures full + sliding > 0.0
    ensures var length := Min((budget / (full + sliding)).Floor, cap);
            0 <= length <= cap && Grown(full, sliding, saturated, length) <= budget && (length < cap ==> Grown(full, sliding, saturated, length + 1) > budget)
  {
    assert full + sliding > 0.0;
    var q := FloorTimes(budget, full + sliding);
    assert q < saturated by {
      if q >= saturated {
        MulMono(full + sliding, saturated as real, q as real);
      }
    }
    assert q >= 0;
    assert Grown(full, sliding, saturated, q) == (full + sliding) * q as real;
    assert Grown(full, sliding, saturated, q + 1) == (full + sliding) * (q + 1) as real;
    if cap < q {
      GrownMono(full, sliding, saturated, cap, q);
    }
  }

  lemma FitFlat(budget: real, full: real, sliding: real, saturated: nat, cap: nat)
    requires full == 0.0 && sliding >= 0.0 && budget >= sliding * saturated as real
    ensures Grown(full, sliding, saturated, cap) <= budget
  {
    MulMono(sliding, Min(saturated, cap) as real, saturated as real);
  }

  lemma FitPast(budget: real, full: real, sliding: real, saturated: nat, cap: nat)
    requires full > 0.0 && sliding >= 0.0 && budget >= (full + sliding) * saturated as real
    ensures var length := Min(((budget - sliding * saturated as real) / full).Floor, cap);
            0 <= length <= cap && Grown(full, sliding, saturated, length) <= budget && (length < cap ==> Grown(full, sliding, saturated, length + 1) > budget)
  {
    var rest := budget - sliding * saturated as real;
    var q := FloorTimes(rest, full);
    assert rest >= full * saturated as real;
    assert q >= saturated by {
      if q + 1 <= saturated {
        MulMono(full, (q + 1) as real, saturated as real);
      }
    }
    if cap < q {
      GrownMono(full, sliding, saturated, cap, q);
    }
  }

  // --- The hybrid ladder ---

  datatype Fit = NoFit | Length(length: nat) | LengthAndSeqs(length: nat, seqs: int)

  /** A target of no tokens counts as none. */
  predicate Asked(target: Option<nat>) { target.Some? && target.value > 0 }

  /** The longest block-aligned length within *budget*, at most *target*. */
  function AlignedLen(budget: real, perToken: real, target: Option<nat>): int {
    var tokens := if perToken > 0.0 then (budget / perToken).Floor else 0;
    var aligned := tokens / BLOCK * BLOCK;
    if Asked(target) then Min(aligned, target.value) else aligned
  }

  /** The length for a budget: None when not even one block fits. */
  function PinnedLen(budget: real, perToken: real, target: Option<nat>): Option<nat> {
    var length := if budget > 0.0 then AlignedLen(budget, perToken, target) else 0;
    if length < BLOCK then None else Some(length)
  }

  /** The length at the fewest sequences: all of the target where it fits. */
  function AutoLen(budget: real, perToken: real, target: Option<nat>): Option<nat> {
    if budget <= 0.0 then None
    else if Asked(target) && budget >= perToken * target.value as real then Some(target.value)
    else if AlignedLen(budget, perToken, target) < BLOCK then None
    else Some(AlignedLen(budget, perToken, target))
  }

  /** The sequences beyond the fewest that *left* has room for. */
  function Extra(left: real, state: nat): nat {
    if state > 0 && (left / state as real).Floor > 0 then (left / state as real).Floor else 0
  }

  /** What is left of the budget goes into sequences, up to the default. */
  function SeqsFor(budget: real, state: nat, perToken: real, length: int, defaultSeqs: nat): int {
    Min(defaultSeqs, MIN_SEQS + Extra(budget - perToken * length as real, state))
  }

  function HybridFit(pool: real, state: nat, perToken: real, target: Option<nat>, pinned: Option<nat>, defaultSeqs: nat): Fit {
    if pinned.Some? then
      var length := PinnedLen(pool - (state * pinned.value) as real, perToken, target);
      if length.None? then NoFit else Length(length.value)
    else
      var budget := pool - (state * MIN_SEQS) as real;
      var length := AutoLen(budget, perToken, target);
      if length.None? then NoFit else
        LengthAndSeqs(length.value, SeqsFor(budget, state, perToken, length.value, defaultSeqs))
  }

  /** What *length* tokens and *seqs* sequences' states take. */
  function Takes(length: int, perToken: real, seqs: int, state: nat): real { perToken * length as real + (state * seqs) as real }

  lemma Widen(a: real, b: real, low: real, x: real, y: real, high: real)
    requires a > 0.0 && low <= x && y <= high && a * x <= b < a * y
    ensures a * low <= b
    ensures b < a * high
  {
    MulMono(a, low, x);
    MulMono(a, y, high);
  }

  lemma AlignedIs(budget: real, perToken: real) returns (length: int)
    requires budget >= 0.0 && perToken > 0.0
    ensures length == AlignedLen(budget, perToken, None) && length >= 0 && length % BLOCK == 0
    ensures perToken * length as real <= budget
    ensures budget < perToken * (length + BLOCK) as real
  {
    var tokens := FloorTimes(budget, perToken);
    length := tokens / BLOCK * BLOCK;
    Widen(perToken, budget, length as real, tokens as real, (tokens + 1) as real, (length + BLOCK) as real);
    if tokens < 0 {
      MulMono(perToken, (tokens + 1) as real, 0.0);
    }
  }

  /** The longest block-aligned length within the budget, or the target where that is shorter. */
  lemma AlignedFits(budget: real, perToken: real, target: Option<nat>) returns (length: int, longest: int)
    requires budget >= 0.0 && perToken > 0.0
    ensures length == AlignedLen(budget, perToken, target) >= 0
    ensures length == if Asked(target) && target.value < longest then target.value else longest
    ensures longest % BLOCK == 0 && perToken * longest as real <= budget
    ensures budget < perToken * (longest + BLOCK) as real
    ensures perToken * length as real <= budget
    ensures longest >= BLOCK <==> perToken * BLOCK as real <= budget
  {
    longest := AlignedIs(budget, perToken);
    length := AlignedLen(budget, perToken, target);
    MulMono(perToken, length as real, longest as real);
    if BLOCK <= longest {
      MulMono(perToken, BLOCK as real, longest as real);
    } else {
      assert longest == 0;
    }
  }

  /** The pinned mode's length: at least one block and at most the target, within the budget, and block-aligned with no room
      for another block unless it is the target. */
  lemma PinnedLenIs(budget: real, perToken: real, target: Option<nat>) returns (length: Option<nat>)
    requires perToken >= 0.0
    ensures length == PinnedLen(budget, perToken, target)
    ensures length.Some? <==> perToken > 0.0 && perToken * BLOCK as real <= budget && (Asked(target) ==> target.value >= BLOCK)
    ensures length.Some? ==> perToken * length.value as real <= budget && (Asked(target) ==> length.value <= target.value)
    ensures length.Some? && !(Asked(target) && length.value == target.value) ==>
              length.value % BLOCK == 0 && perToken * (length.value + BLOCK) as real > budget
  {
    length := PinnedLen(budget, perToken, target);
    if perToken > 0.0 {
      MulStrict(perToken, 0.0, BLOCK as real);
      if budget > 0.0 {
        var least, longest := AlignedFits(budget, perToken, target);
      }
    }
  }

  /** The target fits in the budget. */
  predicate TargetIn(budget: real, perToken: real, target: Option<nat>) { Asked(target) && perToken * target.value as real <= budget }

  /** The auto mode's length: the target whenever it fits, else the longest block-aligned length that does. */
  lemma AutoLenIs(budget: real, perToken: real, target: Option<nat>) returns (length: Option<nat>)
    requires perToken >= 0.0
    ensures length == AutoLen(budget, perToken, target)
    ensures length.Some? <==> budget > 0.0 && (TargetIn(budget, perToken, target) || (perToken > 0.0 && perToken * BLOCK as real <= budget))
    ensures length.Some? ==> perToken * length.value as real <= budget
    ensures length.Some? && TargetIn(budget, perToken, target) ==> length.value == target.value
    ensures length.Some? && !TargetIn(budget, perToken, target) ==>
              length.value % BLOCK == 0 && perToken * (length.value + BLOCK) as real > budget
  {
    length := AutoLen(budget, perToken, target);
    if budget > 0.0 && !TargetIn(budget, perToken, target) && perToken > 0.0 {
      var least, longest := AlignedFits(budget, perToken, target);
      if Asked(target) {
        MulReflects(perToken, longest as real, target.value as real);
      }
    }
  }

  /** With the sequences pinned, the length is the longest block-aligned one their states leave room for, or the target
      where that is shorter; there is none exactly when a block doesn't fit or the target is shorter than one. */
  lemma PinnedFits(pool: real, state: nat, perToken: real, target: Option<nat>, pinned: nat, defaultSeqs: nat) returns (r: Fit)
    requires perToken >= 0.0
    ensures r == HybridFit(pool, state, perToken, target, Some(pinned), defaultSeqs)
    ensures r.Length? <==> perToken > 0.0 && Takes(16, perToken, pinned, state) <= pool && (Asked(target) ==> target.value >= 16)
    ensures r.Length? ==> Takes(r.length, perToken, pinned, state) <= pool && (Asked(target) ==> r.length <= target.value)
    ensures r.Length? && !(Asked(target) && r.length == target.value) ==>
              r.length % 16 == 0 && Takes(r.length + 16, perToken, pinned, state) > pool
  {
    var length := PinnedLenIs(pool - (state * pinned) as real, perToken, target);
    r := HybridFit(pool, state, perToken, target, Some(pinned), defaultSeqs);
  }

  /** The target fits at the fewest sequences. */
  predicate TargetFits(pool: real, state: nat, perToken: real, target: Option<nat>) {
    Asked(target) && Takes(target.value, perToken, 8, state) <= pool
  }

  /** The auto mode's length: the target whenever it fits at the fewest sequences, else the longest block-aligned length
      that does, and none exactly when not even one block does or the states alone fill the pool. */
  lemma AutoLength(pool: real, state: nat, perToken: real, target: Option<nat>, defaultSeqs: nat) returns (r: Fit)
    requires perToken >= 0.0
    ensures r == HybridFit(pool, state, perToken, target, None, defaultSeqs)
    ensures r.LengthAndSeqs? <==>
              Takes(0, perToken, 8, state) < pool &&
              (TargetFits(pool, state, perToken, target) || (perToken > 0.0 && Takes(16, perToken, 8, state) <= pool))
    ensures r.LengthAndSeqs? ==> Takes(r.length, perToken, 8, state) <= pool
    ensures r.LengthAndSeqs? && TargetFits(pool, state, perToken, target) ==> r.length == target.value
    ensures r.LengthAndSeqs? && !TargetFits(pool, state, perToken, target) ==>
              r.length % 16 == 0 && Takes(r.length + 16, perToken, 8, state) > pool
  {
    var length := AutoLenIs(pool - (state * MIN_SEQS) as real, perToken, target);
    r := HybridFit(pool, state, perToken, target, None, defaultSeqs);
  }

  /** In auto mode the pool is never exceeded, and one more sequence would exceed it unless the default binds or
      sequences take no state. */
  lemma AutoSeqs(pool: real, state: nat, perToken: real, target: Option<nat>, defaultSeqs: nat) returns (r: Fit)
    requires perToken >= 0.0
    ensures r == HybridFit(pool, state, perToken, target, None, defaultSeqs)
    ensures r.LengthAndSeqs? ==> r.seqs <= defaultSeqs && (defaultSeqs >= 8 ==> r.seqs >= 8)
    ensures r.LengthAndSeqs? ==> Takes(r.length, perToken, r.seqs, state) <= pool
    ensures r.LengthAndSeqs? && r.seqs < defaultSeqs && state > 0 ==> Takes(r.length, perToken, r.seqs + 1, state) > pool
  {
    r := HybridFit(pool, state, perToken, target, None, defaultSeqs);
    var budget := pool - (state * MIN_SEQS) as real;
    var length := AutoLenIs(budget, perToken, target);
    if length.Some? {
      ExtraFits(budget - perToken * length.value as real, state);
      SeqsTake(budget - perToken * length.value as real, state, Extra(budget - perToken * length.value as real, state), r.seqs);
    }
  }

  lemma ExtraFits(left: real, state: nat)
    requires left >= 0.0
    ensures state as real * Extra(left, state) as real <= left
    ensures state > 0 ==> left < state as real * (Extra(left, state) + 1) as real
  {
    if state > 0 {
      var extra := FloorTimes(left, state as real);
      if extra < 0 {
        MulMono(state as real, (extra + 1) as real, 0.0);
      }
    }
  }

  lemma SeqsTake(left: real, state: nat, extra: nat, seqs: int)
    requires state as real * extra as real <= left && (state > 0 ==> left < state as real * (extra + 1) as real) && left >= 0.0
    ensures seqs <= MIN_SEQS + extra ==> (state * seqs) as real - (state * MIN_SEQS) as real <= left
    ensures seqs == MIN_SEQS + extra && state > 0 ==> (state * (seqs + 1)) as real - (state * MIN_SEQS) as real > left
  {
    StateOf(state, seqs);
    StateOf(state, seqs + 1);
    if seqs <= MIN_SEQS + extra {
      MulMono(state as real, (seqs - MIN_SEQS) as real, extra as real);
    }
  }

  lemma StateOf(state: nat, seqs: int)
    ensures (state * seqs) as real - (state * MIN_SEQS) as real == state as real * (seqs - MIN_SEQS) as real
  {
    assert state * seqs - state * MIN_SEQS == state * (seqs - MIN_SEQS);
  }
}
