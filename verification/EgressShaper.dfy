/**
  The token bucket that paces frames to a bus (src/shared/egress_shaper.c),
  with its 64-bit arithmetic, against the bit-microseconds it may spend.
 */
module EgressShaper {
  import opened Frames

  const SECOND := 1000000
  const WRAP := 0x1_0000_0000_0000_0000

  // ---------- levels ----------

  /** What time brings at a rate, in bit-microseconds. */
  function Gain(rate: nat, elapsed: nat): nat {
    rate * elapsed
  }

  /** The content of a bucket in bit-microseconds. */
  function Level(tokens: nat, remainder: nat): nat {
    tokens * SECOND + remainder
  }

  /** The bucket after it gained: full when the gain alone or a whole token passes the brim, else all of it kept. */
  function Refilled(level: nat, burst: nat, gain: nat): nat {
    var brim := burst * SECOND;
    if gain > brim || level + gain >= brim + SECOND then brim else level + gain
  }

  /**
    The bucket is capped at its burst exactly, but for one case: a gain that ends less than a
    whole bit above the brim is kept.
   */
  lemma CappedExactly(level: nat, burst: nat, gain: nat)
    ensures Refilled(level, burst, gain) == Min(level + gain, burst * SECOND) <==>
      level + gain <= burst * SECOND || gain > burst * SECOND || level + gain >= burst * SECOND + SECOND
  {
  }

  /** A full bucket of one bit, a rate of one bit a second, one microsecond: it holds more than its burst. */
  lemma FullBucketOverflows()
    ensures Refilled(Level(1, 0), 1, Gain(1, 1)) == Level(1, 1) > 1 * SECOND
  {
  }

  /** The time after which the bucket is taken as full is when the gain alone passes the brim. */
  lemma FillTime(brim: nat, rate: nat, elapsed: nat)
    requires rate > 0
    ensures elapsed >= brim / rate + 1 <==> Gain(rate, elapsed) > brim
  {
    var whole := brim / rate;
    assert brim == rate * whole + brim % rate;
    if elapsed >= whole + 1 {
      Monotone(rate, whole + 1, elapsed);
      assert rate * (whole + 1) == rate * whole + rate;
    } else {
      Monotone(rate, elapsed, whole);
    }
  }

  lemma Monotone(rate: nat, a: nat, b: nat)
    requires a <= b
    ensures rate * a <= rate * b
  {
    assert rate * b == rate * a + rate * (b - a);
  }

  /** The largest burst for which the 64-bit arithmetic is exact. */
  predicate InRange(burst: nat) {
    burst * SECOND + WORD + SECOND <= WRAP
  }

  // ---------- delays ----------

  /** The microseconds until the missing bits have come in, rounded up; 0 when none are missing or no rate is set. */
  function Delay(rate: nat, tokens: nat, bits: nat): nat {
    if rate == 0 || tokens >= bits then 0 else ((bits - tokens) * SECOND + rate - 1) / rate
  }

  lemma RoundedUp(amount: nat, rate: nat)
    requires rate > 0
    ensures Gain(rate, (amount + rate - 1) / rate) >= amount
  {
    var n := amount + rate - 1;
    assert n == rate * (n / rate) + n % rate;
  }

  /** After the delay, or any later, the bucket holds the bits, or all it can hold if they are more. */
  lemma DelayIsEnough(rate: nat, burst: nat, tokens: nat, remainder: nat, bits: nat, elapsed: nat)
    requires rate > 0 && tokens <= burst && remainder < SECOND && elapsed >= Delay(rate, tokens, bits)
    ensures Refilled(Level(tokens, remainder), burst, Gain(rate, elapsed)) / SECOND >= Min(bits, burst)
  {
    var level, gain := Level(tokens, remainder), Gain(rate, elapsed);
    if tokens < bits {
      RoundedUp((bits - tokens) * SECOND, rate);
      Monotone(rate, Delay(rate, tokens, bits), elapsed);
      assert level + gain >= bits * SECOND;
    }
    assert Refilled(level, burst, gain) >= Min(bits, burst) * SECOND;
  }

  class Shaper {
    const burst: u64
    var rate: u32
    var tokens: u64
    var remainder: nat
    var lastUs: u64

    /** A moment that was marked, and the level then; the start, unless another was. */
    ghost var markUs: u64
    ghost var allowance: nat
    /** Bits charged since the mark, and what time has brought since in bit-microseconds. */
    ghost var charged: nat
    ghost var earned: nat
    /** Since the mark the clock never ran backwards and the rate never changed. */
    ghost var steady: bool

    ghost predicate Valid()
      reads this
    {
      && tokens <= burst && remainder < SECOND
      && allowance < (burst + 1) * SECOND
      && (InRange(burst) ==> charged * SECOND + Level(tokens, remainder) <= allowance + earned)
      && (steady ==> markUs <= lastUs && earned == Gain(rate, lastUs - markUs))
    }

    ghost predicate Marked(us: u64, level: nat)
      reads `markUs, `allowance
    {
      markUs == us && allowance == level
    }

    constructor (now: u64, rate: u32, burst: u64)
      ensures Valid() && this.rate == rate && this.burst == burst && lastUs == markUs == now
      ensures tokens == burst && charged == 0 && earned == 0 && allowance == burst * SECOND && steady
    {
      this.rate, this.burst, tokens, remainder, lastUs := rate, burst, burst, 0, now;
      charged, earned, markUs, allowance, steady := 0, 0, now, burst * SECOND, true;
    }

    /** Marks this moment; nothing else changes. */
    ghost method Mark()
      requires Valid()
      modifies `markUs, `allowance, `charged, `earned, `steady
      ensures Valid() && markUs == lastUs && charged == 0 && allowance == Level(tokens, remainder) && steady
    {
      charged, earned, markUs, allowance, steady := 0, 0, lastUs, Level(tokens, remainder), true;
    }

    method SetRate(rate: u32)
      requires Valid()
      modifies this
      ensures Valid() && this.rate == rate && tokens == old(tokens) && charged == old(charged) && earned == old(earned)
      ensures Marked(old(markUs), old(allowance))
    {
      this.rate := rate;
      tokens := Min(tokens, burst);
      steady := false;
    }

    /** In range, the 64-bit arithmetic and its shortcut give exactly the refilled bucket. */
    method Refill(now: u64)
      requires Valid()
      modifies this
      ensures Valid() && lastUs == now && rate == old(rate) && charged == old(charged)
      ensures Marked(old(markUs), old(allowance))
      ensures steady == (old(steady) && now >= old(lastUs))
      ensures earned == old(earned) + if now > old(lastUs) then Gain(rate, now - old(lastUs)) else 0
      ensures InRange(burst) && now > old(lastUs) && rate > 0 ==>
        Level(tokens, remainder) == Refilled(old(Level(tokens, remainder)), burst, Gain(rate, now - old(lastUs)))
      ensures now <= old(lastUs) || rate == 0 ==> tokens == old(tokens) && remainder == old(remainder)
    {
      ghost var gain := if now > lastUs then Gain(rate, now - lastUs) else 0;
      Continues(rate, markUs, lastUs, now);
      steady := steady && now >= lastUs;
      earned := earned + gain;
      if rate == 0 || now <= lastUs {
        lastUs := now;
        return;
      }
      var elapsed := now - lastUs;
      lastUs := now;
      Fill(elapsed);
    }

    /** Whether the elapsed time is that which fills the bucket from empty. */
    method IsFull(elapsed: nat) returns (full: bool)
      requires rate > 0
      ensures InRange(burst) ==> (full <==> Gain(rate, elapsed) > burst * SECOND)
    {
      var fill := ((burst * SECOND) % WRAP / rate + 1) % WRAP;
      full := elapsed >= fill;
      if InRange(burst) {
        Quotient(burst * SECOND, rate);
        FillTime(burst * SECOND, rate, elapsed);
      }
    }

    /** What came in with what was left over, in 64 bits. */
    method Income(elapsed: nat) returns (numerator: u64)
      requires remainder < SECOND
      ensures InRange(burst) && Gain(rate, elapsed) <= burst * SECOND ==> numerator == Gain(rate, elapsed) + remainder
    {
      var gain := Gain(rate, elapsed);
      numerator := (gain % WRAP + remainder) % WRAP;
    }

    method Fill(elapsed: nat)
      requires tokens <= burst && remainder < SECOND && rate > 0
      modifies `tokens, `remainder
      ensures tokens <= burst && remainder < SECOND
      ensures InRange(burst) ==>
        Level(tokens, remainder) == Refilled(old(Level(tokens, remainder)), burst, Gain(rate, elapsed))
    {
      var full := IsFull(elapsed);
      if full {
        tokens, remainder := burst, 0;
        return;
      }
      var numerator := Income(elapsed);
      Add(numerator);
    }

    method Add(numerator: u64)
      requires tokens <= burst && remainder < SECOND
      modifies `tokens, `remainder
      ensures tokens <= burst && remainder < SECOND
      ensures InRange(burst) && numerator < burst * SECOND + SECOND ==>
        var level := old(tokens) * SECOND + numerator;
        Level(tokens, remainder) == if level >= burst * SECOND + SECOND then burst * SECOND else level
    {
      if InRange(burst) && numerator < burst * SECOND + SECOND {
        AddFits(burst, tokens, numerator);
      }
      tokens, remainder := (tokens + numerator / SECOND) % WRAP, numerator % SECOND;
      if tokens > burst {
        tokens, remainder := burst, 0;
      }
    }

    method TryConsume(bits: u64) returns (ok: bool)
      requires Valid()
      modifies this
      ensures Valid() && earned == old(earned) && steady == old(steady) && rate == old(rate) && lastUs == old(lastUs)
      ensures Marked(old(markUs), old(allowance))
      ensures ok <==> rate == 0 || old(tokens) >= Min(bits, burst)
      ensures charged == old(charged) + if ok && rate > 0 then Min(bits, burst) else 0
      ensures tokens == old(tokens) - if ok && rate > 0 then Min(bits, burst) else 0
    {
      if rate == 0 {
        return true;
      }
      var cost: u64 := bits;
      if cost > burst {
        cost := burst;
      }
      if tokens < cost {
        return false;
      }
      tokens := tokens - cost;
      charged := charged + cost;
      return true;
    }

    method DelayUs(bits: u64) returns (delay: u64)
      requires Valid()
      ensures InRange(bits) ==> delay == Delay(rate, tokens, bits)
      ensures rate == 0 ==> delay == 0
    {
      if rate == 0 || tokens >= bits {
        return 0;
      }
      var deficit := bits - tokens;
      var rounded := ((deficit * SECOND) % WRAP + rate - 1) % WRAP;
      NoMore(rounded, rate);
      if InRange(bits) {
        DelayFits(bits, tokens, rate);
      }
      delay := rounded / rate;
    }

    /** A frame that waits as long as it is told to, or longer, is let through. */
    method ConsumeAfterDelay(bits: u64, longer: nat) returns (ok: bool)
      requires Valid() && InRange(burst) && InRange(bits)
      requires lastUs + Delay(rate, tokens, bits) + longer < WRAP
      modifies this
      ensures Valid() && ok && lastUs == old(lastUs + Delay(rate, tokens, bits)) + longer
      ensures charged == old(charged) + if rate > 0 then Min(bits, burst) else 0
    {
      var delay := DelayUs(bits);
      if rate > 0 {
        DelayIsEnough(rate, burst, tokens, remainder, bits, delay + longer);
      }
      Refill(lastUs + delay + longer);
      ok := TryConsume(bits);
    }

    /**
      Between any two moments of a steady clock and rate, never more is charged than what was in the
      bucket and what the rate brings: at most the burst, the income of the time and one bit.
     */
    lemma ChargedWithinRate()
      requires Valid() && InRange(burst) && steady
      ensures markUs <= lastUs && charged <= (allowance + Gain(rate, lastUs - markUs)) / SECOND
      ensures charged <= burst + 1 + Gain(rate, lastUs - markUs) / SECOND
      ensures allowance <= burst * SECOND ==> charged <= burst + Gain(rate, lastUs - markUs) / SECOND
    {
    }
  }

  lemma Continues(rate: nat, start: nat, last: nat, now: nat)
    ensures start <= last <= now ==> Gain(rate, now - start) == Gain(rate, last - start) + Gain(rate, now - last)
  {
    if start <= last <= now {
      assert now - start == (last - start) + (now - last);
    }
  }

  lemma NoMore(amount: nat, rate: nat)
    requires rate > 0
    ensures 0 <= amount / rate <= amount
  {
    var q := amount / rate;
    assert amount == rate * q + amount % rate;
    Monotone(q, 1, rate);
    assert q * rate == rate * q;
  }

  /** In range, the rounding does not wrap. */
  lemma DelayFits(bits: nat, tokens: nat, rate: u32)
    requires tokens < bits && InRange(bits) && rate > 0
    ensures (((bits - tokens) * SECOND) % WRAP + rate - 1) % WRAP == (bits - tokens) * SECOND + rate - 1
  {
  }

  lemma Quotient(brim: nat, rate: nat)
    requires rate > 0 && brim + 1 < WRAP
    ensures (brim % WRAP / rate + 1) % WRAP == brim / rate + 1
  {
    NoMore(brim, rate);
  }

  /** In range, adding what has come in does not wrap, and whole tokens and rest together keep the level. */
  lemma AddFits(burst: nat, tokens: nat, numerator: nat)
    requires InRange(burst) && tokens <= burst && numerator < burst * SECOND + SECOND
    ensures tokens + numerator / SECOND < WRAP
    ensures Level(tokens + numerator / SECOND, numerator % SECOND) == tokens * SECOND + numerator
    ensures tokens + numerator / SECOND > burst <==> tokens * SECOND + numerator >= burst * SECOND + SECOND
  {
  }
}
