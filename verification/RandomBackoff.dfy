/** Retrying a function with random delays in between. */
module RandomBackoff {
  import opened WorkflowTypes

  /** Truncation towards zero. */
  function Trunc(x: real): int {
    if x >= 0.0 then x.Floor else -(-x).Floor
  }

  function Pow2(n: nat): nat {
    if n == 0 then 1 else 2 * Pow2(n - 1)
  }

  /** The random part of a delay. */
  function Spread(baseDelay: real, jitter: real, draw: real): real {
    draw * baseDelay * jitter * 2.0 - baseDelay
  }

  /** How long to wait after failure number `retries`, before truncation. */
  function RawDelay(baseDelay: real, jitter: real, draw: real, retries: nat): real {
    baseDelay + Pow2(retries) as real * Spread(baseDelay, jitter, draw)
  }

  /** The delays after each of `failures` failed calls. */
  function Delays(baseDelay: real, jitter: real, draws: nat -> real, failures: nat): (r: seq<int>)
    ensures |r| == failures
  {
    seq(failures, i requires 0 <= i < failures => Trunc(RawDelay(baseDelay, jitter, draws(i), i)))
  }

  /** A timer that is asked to wait for no more than zero does not wait. */
  function TotalWait(delays: seq<int>): nat {
    if delays == [] then 0
    else TotalWait(delays[..|delays| - 1]) + if delays[|delays| - 1] > 0 then delays[|delays| - 1] else 0
  }

  class Strategy {
    const maxRetries: int
    const baseDelay: real
    const jitter: real

    constructor (maxRetries: int, baseDelay: real, jitter: real)
      ensures this.maxRetries == maxRetries && this.baseDelay == baseDelay && this.jitter == jitter
    {
      this.maxRetries, this.baseDelay, this.jitter := maxRetries, baseDelay, jitter;
    }

    /** Call number `k` of the function has outcome `outcomes(k)`, and random number `k` is
        `draws(k)`.  The first success is returned; the last error is thrown only when every
        allowed call has failed; there is one delay for each failure. */
    method Execute<T, E>(outcomes: nat -> Result<T, E>, draws: nat -> real)
      returns (r: Result<T, Option<E>>, calls: nat, delays: seq<int>)
      ensures calls <= if maxRetries < 0 then 0 else maxRetries + 1
      ensures r.Ok? <==> exists k: nat :: k <= maxRetries && outcomes(k).Ok?
      ensures r.Ok? ==> calls > 0 && outcomes(calls - 1) == Ok(r.value)
      ensures r.Ok? ==> forall k: nat :: k < calls - 1 ==> outcomes(k).Err?
      ensures r.Err? ==> calls == if maxRetries < 0 then 0 else maxRetries + 1
      ensures r.Err? ==> r.error == if calls == 0 then None else Some(outcomes(calls - 1).error)
      ensures delays == Delays(baseDelay, jitter, draws, if r.Ok? then calls - 1 else calls)
    {
      var retries := 0;
      var lastError := None;
      calls, delays := 0, [];
      while retries <= maxRetries
        invariant 0 <= retries == calls <= if maxRetries < 0 then 0 else maxRetries + 1
        invariant forall k: nat :: k < calls ==> outcomes(k).Err?
        invariant lastError == if calls == 0 then None else Some(outcomes(calls - 1).error)
        invariant delays == Delays(baseDelay, jitter, draws, calls)
        decreases maxRetries - retries
      {
        var outcome := outcomes(calls);
        calls := calls + 1;
        match outcome
        case Ok(value) =>
          return Ok(value), calls, delays;
        case Err(e) =>
          delays := delays + [Trunc(RawDelay(baseDelay, jitter, draws(retries), retries))];
          retries := retries + 1;
          lastError := Some(e);
      }
      r := Err(lastError);
    }
  }

  // ---------------------------------------------------------------- bounds

  /** The part of the base delay that a jitter above one half can add to the random part. */
  function Growth(jitter: real): (r: real)
    ensures r >= 0.0
  {
    if 2.0 * jitter - 1.0 > 0.0 then 2.0 * jitter - 1.0 else 0.0
  }

  lemma {:induction false} Pow2Positive(n: nat)
    ensures Pow2(n) >= 1
  {
    if n > 0 { Pow2Positive(n - 1); }
  }

  lemma {:induction false} Pow2Grows(m: nat, n: nat)
    requires m <= n
    ensures Pow2(m) <= Pow2(n)
    decreases n
  {
    if m < n { Pow2Grows(m, n - 1); }
  }

  lemma Scaled(a: real, b: real, c: real)
    requires a <= b && c >= 0.0
    ensures c * a <= c * b
  {}

  lemma SpreadBound(baseDelay: real, jitter: real, draw: real)
    requires baseDelay >= 0.0 && 0.0 <= draw < 1.0
    ensures Spread(baseDelay, jitter, draw) <= baseDelay * Growth(jitter)
  {
    if jitter >= 0.0 {
      Scaled(draw, 1.0, baseDelay * jitter * 2.0);
      assert draw * baseDelay * jitter * 2.0 == baseDelay * jitter * 2.0 * draw;
      assert baseDelay * jitter * 2.0 - baseDelay == baseDelay * (2.0 * jitter - 1.0);
      Scaled(2.0 * jitter - 1.0, Growth(jitter), baseDelay);
    } else {
      Scaled(jitter, 0.0, draw * baseDelay * 2.0);
      assert draw * baseDelay * jitter * 2.0 == draw * baseDelay * 2.0 * jitter;
    }
  }

  lemma DelayBound(baseDelay: real, jitter: real, draw: real, retries: nat)
    requires baseDelay >= 0.0 && 0.0 <= draw < 1.0
    ensures RawDelay(baseDelay, jitter, draw, retries) <=
              baseDelay + Pow2(retries) as real * (baseDelay * Growth(jitter))
  {
    SpreadBound(baseDelay, jitter, draw);
    Scaled(Spread(baseDelay, jitter, draw), baseDelay * Growth(jitter), Pow2(retries) as real);
  }

  /** The bound on the waiting after `failures` failures. */
  function WaitBound(baseDelay: real, failures: nat, excess: real): real {
    baseDelay * failures as real + (Pow2(failures) - 1) as real * excess
  }

  lemma NextBound(baseDelay: real, failures: nat, excess: real)
    requires baseDelay >= 0.0 && excess >= 0.0
    ensures WaitBound(baseDelay, failures + 1, excess) ==
              WaitBound(baseDelay, failures, excess) + (baseDelay + Pow2(failures) as real * excess)
    ensures baseDelay + Pow2(failures) as real * excess >= 0.0
  {
    var p := Pow2(failures) as real;
    assert Pow2(failures + 1) as real == 2.0 * p;
    assert (2.0 * p - 1.0) * excess == (p - 1.0) * excess + p * excess;
    assert baseDelay * (failures + 1) as real == baseDelay * failures as real + baseDelay;
    Scaled(0.0, excess, p);
  }

  function Waited(delay: int): nat {
    if delay > 0 then delay else 0
  }

  lemma LastWait(baseDelay: real, jitter: real, draws: nat -> real, failures: nat, last: nat)
    requires failures == last + 1
    ensures TotalWait(Delays(baseDelay, jitter, draws, failures)) ==
            TotalWait(Delays(baseDelay, jitter, draws, last)) +
            Waited(Trunc(RawDelay(baseDelay, jitter, draws(last), last)))
  {
    var longer := Delays(baseDelay, jitter, draws, failures);
    assert longer[..last] == Delays(baseDelay, jitter, draws, last);
  }

  lemma WaitAtMost(delay: real, bound: real)
    requires delay <= bound && bound >= 0.0
    ensures Waited(Trunc(delay)) as real <= bound
  {}

  lemma WaitStep(baseDelay: real, jitter: real, draw: real, last: nat, excess: real)
    requires baseDelay >= 0.0 && 0.0 <= draw < 1.0 && excess == baseDelay * Growth(jitter)
    ensures Waited(Trunc(RawDelay(baseDelay, jitter, draw, last))) as real <=
            WaitBound(baseDelay, last + 1, excess) - WaitBound(baseDelay, last, excess)
  {
    var bound := baseDelay + Pow2(last) as real * excess;
    DelayBound(baseDelay, jitter, draw, last);
    Scaled(0.0, Growth(jitter), baseDelay);
    NextBound(baseDelay, last, excess);
    WaitAtMost(RawDelay(baseDelay, jitter, draw, last), bound);
  }

  /** Whatever is drawn, all the waiting after `failures` failures stays within the base delay
      for each, plus what a jitter above one half lets grow exponentially. */
  lemma {:induction false} BoundedWait(baseDelay: real, jitter: real, draws: nat -> real, failures: nat)
    requires baseDelay >= 0.0 && forall i: nat :: 0.0 <= draws(i) < 1.0
    ensures TotalWait(Delays(baseDelay, jitter, draws, failures)) as real <=
            WaitBound(baseDelay, failures, baseDelay * Growth(jitter))
  {
    if failures > 0 {
      var last := failures - 1;
      BoundedWait(baseDelay, jitter, draws, last);
      LastWait(baseDelay, jitter, draws, failures, last);
      WaitStep(baseDelay, jitter, draws(last), last, baseDelay * Growth(jitter));
    }
  }

  lemma BoundGrows(baseDelay: real, m: nat, n: nat, excess: real)
    requires m <= n && baseDelay >= 0.0 && excess >= 0.0
    ensures WaitBound(baseDelay, m, excess) <= WaitBound(baseDelay, n, excess)
  {
    Pow2Grows(m, n);
    Scaled(m as real, n as real, baseDelay);
    var p, q := (Pow2(m) - 1) as real, (Pow2(n) - 1) as real;
    Scaled(p, q, excess);
    assert p * excess == excess * p && q * excess == excess * q;
  }

  /** The bound for one execution; with the scheduler's jitter of one half it waits for at
      most the base delay per allowed call, however many retries there are. */
  lemma ExecutionWait(maxRetries: nat, baseDelay: real, jitter: real, draws: nat -> real, failures: nat)
    requires baseDelay >= 0.0 && failures <= maxRetries + 1 && forall i: nat :: 0.0 <= draws(i) < 1.0
    ensures TotalWait(Delays(baseDelay, jitter, draws, failures)) as real <=
              WaitBound(baseDelay, maxRetries + 1, baseDelay * Growth(jitter))
    ensures jitter <= 0.5 ==>
              TotalWait(Delays(baseDelay, jitter, draws, failures)) as real <= baseDelay * (maxRetries + 1) as real
  {
    BoundedWait(baseDelay, jitter, draws, failures);
    Scaled(0.0, Growth(jitter), baseDelay);
    BoundGrows(baseDelay, failures, maxRetries + 1, baseDelay * Growth(jitter));
  }

  /** With the same draw, a later retry waits longer exactly when twice the jitter times the
      draw exceeds one: at a jitter of one half, never. */
  lemma BacksOffExactly(baseDelay: real, jitter: real, draw: real, retries: nat)
    requires baseDelay > 0.0
    ensures RawDelay(baseDelay, jitter, draw, retries + 1) > RawDelay(baseDelay, jitter, draw, retries) <==>
              2.0 * jitter * draw > 1.0
    ensures 0.0 <= draw < 1.0 && 0.0 <= jitter <= 0.5 ==> 2.0 * jitter * draw <= 1.0
  {
    var spread, p := Spread(baseDelay, jitter, draw), Pow2(retries) as real;
    Pow2Positive(retries);
    assert Pow2(retries + 1) as real == 2.0 * p;
    assert 2.0 * p * spread == p * spread + p * spread;
    SignOfProduct(p, spread);
    assert spread == baseDelay * (2.0 * jitter * draw - 1.0);
    SignOfProduct(baseDelay, 2.0 * jitter * draw - 1.0);
    if 0.0 <= draw < 1.0 && 0.0 <= jitter <= 0.5 { AtMostOne(draw, 2.0 * jitter); }
  }

  lemma AtMostOne(a: real, b: real)
    requires 0.0 <= a <= 1.0 && 0.0 <= b <= 1.0
    ensures b * a <= 1.0
  {
    var product := b * a;
    assert product <= b by { Scaled(a, 1.0, b); }
  }

  lemma SignOfProduct(a: real, b: real)
    requires a > 0.0
    ensures a * b > 0.0 <==> b > 0.0
  {}

  // ---------------------------------------------------------------- the delays themselves

  /** The first delay is the base delay scaled by the draw and twice the jitter, and with the
      same draw the distance to the base delay doubles with every retry. */
  lemma DelayDoubles(baseDelay: real, jitter: real, draw: real, retries: nat, next: nat)
    requires next == retries + 1
    ensures RawDelay(baseDelay, jitter, draw, 0) == 2.0 * jitter * draw * baseDelay
    ensures RawDelay(baseDelay, jitter, draw, next) - baseDelay ==
              2.0 * (RawDelay(baseDelay, jitter, draw, retries) - baseDelay)
  {
    var spread, p := Spread(baseDelay, jitter, draw), Pow2(retries) as real;
    assert Pow2(next) as real == 2.0 * p;
    assert 2.0 * p * spread == 2.0 * (p * spread);
    assert Pow2(0) as real == 1.0 && spread == 2.0 * jitter * draw * baseDelay - baseDelay;
  }

  /** The least delay after failure number `retries`, and the bound that none reaches. */
  function Least(baseDelay: real, retries: nat): real {
    baseDelay * (1.0 - Pow2(retries) as real)
  }

  function Limit(baseDelay: real, jitter: real, retries: nat): real {
    baseDelay * (1.0 + Pow2(retries) as real * (2.0 * jitter - 1.0))
  }

  lemma DelayIsLine(baseDelay: real, jitter: real, draw: real, retries: nat, width: real)
    requires width == Limit(baseDelay, jitter, retries) - Least(baseDelay, retries)
    ensures RawDelay(baseDelay, jitter, draw, retries) == Least(baseDelay, retries) + width * draw
  {
    var p, slope := Pow2(retries) as real, 2.0 * baseDelay * jitter;
    assert width == p * slope by {
      assert baseDelay * (p * (2.0 * jitter - 1.0)) == p * slope - baseDelay * p;
    }
    assert Spread(baseDelay, jitter, draw) == slope * draw - baseDelay;
    assert p * (slope * draw - baseDelay) == p * slope * draw - p * baseDelay;
  }

  lemma WidthIsPositive(baseDelay: real, jitter: real, retries: nat)
    requires baseDelay > 0.0 && jitter > 0.0
    ensures Limit(baseDelay, jitter, retries) - Least(baseDelay, retries) > 0.0
  {
    var p, slope := Pow2(retries) as real, 2.0 * baseDelay * jitter;
    Pow2Positive(retries);
    SignOfProduct(baseDelay, jitter);
    SignOfProduct(p, slope);
    assert baseDelay * (p * (2.0 * jitter - 1.0)) == p * slope - baseDelay * p;
  }

  lemma SameFactor(a: real, b: real, c: real)
    requires a > 0.0
    ensures a * b == a * c <==> b == c
  {
    SignOfProduct(a, b - c);
    SignOfProduct(a, c - b);
    assert a * (b - c) == a * b - a * c && a * (c - b) == a * c - a * b;
  }

  /** The one draw that gives the delay, between zero and one exactly if the delay is between
      the least one and the limit. */
  lemma DrawFor(baseDelay: real, jitter: real, retries: nat, x: real) returns (part: real)
    requires baseDelay > 0.0 && jitter > 0.0
    ensures forall draw :: RawDelay(baseDelay, jitter, draw, retries) == x <==> draw == part
    ensures 0.0 <= part < 1.0 <==> Least(baseDelay, retries) <= x < Limit(baseDelay, jitter, retries)
  {
    var width := Limit(baseDelay, jitter, retries) - Least(baseDelay, retries);
    WidthIsPositive(baseDelay, jitter, retries);
    part := PartOf(x - Least(baseDelay, retries), width);
    forall draw: real ensures RawDelay(baseDelay, jitter, draw, retries) == x <==> draw == part {
      DelayIsLine(baseDelay, jitter, draw, retries, width);
      SameFactor(width, draw, part);
    }
  }

  lemma PartOf(distance: real, width: real) returns (part: real)
    requires width > 0.0
    ensures width * part == distance
    ensures 0.0 <= part < 1.0 <==> 0.0 <= distance < width
  {
    part := distance / width;
    assert part >= 0.0 <==> distance >= 0.0;
    assert width * (1.0 - part) == width - distance;
    SignOfProduct(width, 1.0 - part);
  }

  /** The draws between zero and one give exactly the delays from the least one up to the
      limit. */
  lemma DelayRange(baseDelay: real, jitter: real, retries: nat, x: real)
    requires baseDelay > 0.0 && jitter > 0.0
    ensures (exists draw :: 0.0 <= draw < 1.0 && RawDelay(baseDelay, jitter, draw, retries) == x) <==>
              Least(baseDelay, retries) <= x < Limit(baseDelay, jitter, retries)
  {
    var part := DrawFor(baseDelay, jitter, retries, x);
    assert RawDelay(baseDelay, jitter, part, retries) == x;
  }

  /** A delay is cut to the whole number next to it in the direction of zero. */
  lemma TruncatesTowardsZero(x: real)
    ensures x >= 0.0 ==> Trunc(x) >= 0 && Trunc(x) as real <= x < Trunc(x) as real + 1.0
    ensures x <= 0.0 ==> Trunc(x) <= 0 && Trunc(x) as real - 1.0 < x <= Trunc(x) as real
  {}
}
