/** How many requests the rate limiter lets through in any stretch of time. */
module RateBounds {
  import opened Model
  import opened RateLimit

  predicate LastAdmitted(h: seq<Request>, limit: nat, width: nat)
    requires width > 0
  {
    |h| > 0 && PlainVerdict(h, limit, width).Admitted?
  }

  predicate During(r: Request, c: Client, from: nat, to: nat) {
    r.client == c && from <= r.at / 1000 < to
  }

  /** How many requests of a client were admitted in the seconds from `from` until before `to`. */
  function Admissions(h: seq<Request>, limit: nat, width: nat, c: Client, from: nat, to: nat): nat
    requires width > 0
  {
    if |h| == 0 then 0
    else
      Admissions(h[..|h| - 1], limit, width, c, from, to)
        + if LastAdmitted(h, limit, width) && During(h[|h| - 1], c, from, to) then 1 else 0
  }

  /** How many were let through because their increment reported an error. */
  function Failures(h: seq<Request>, c: Client, from: nat, to: nat): nat {
    if |h| == 0 then 0
    else Failures(h[..|h| - 1], c, from, to) + if h[|h| - 1].out.Errs() && During(h[|h| - 1], c, from, to) then 1 else 0
  }

  /** How many were let through for either reason. */
  function LetThrough(h: seq<Request>, limit: nat, width: nat, c: Client, from: nat, to: nat): nat
    requires width > 0
  {
    if |h| == 0 then 0
    else
      LetThrough(h[..|h| - 1], limit, width, c, from, to)
        + if !PlainVerdict(h, limit, width).Rejected? && During(h[|h| - 1], c, from, to) then 1 else 0
  }

  // ----- one window -------------------------------------------------------------------------------

  function InSlot(h: seq<Request>, limit: nat, width: nat, c: Client, slot: nat): nat
    requires width > 0
  {
    if |h| == 0 then 0
    else
      var r := h[|h| - 1];
      InSlot(h[..|h| - 1], limit, width, c, slot)
        + if LastAdmitted(h, limit, width) && r.client == c && Slot(r.at, width) == slot then 1 else 0
  }

  lemma {:induction false} SlotBounded(h: seq<Request>, limit: nat, width: nat, c: Client, slot: nat)
    requires width > 0
    ensures InSlot(h, limit, width, c, slot) <= Counted(h, width, c, slot)
    ensures InSlot(h, limit, width, c, slot) <= limit
  {
    if |h| > 0 {
      SlotBounded(h[..|h| - 1], limit, width, c, slot);
    }
  }

  predicate ErrorFree(h: seq<Request>, width: nat, c: Client, slot: nat)
    requires width > 0
  {
    forall i | 0 <= i < |h| && h[i].client == c && Slot(h[i].at, width) == slot :: h[i].out.Done?
  }

  /** A window whose `n` requests met no error admits min(n, limit) of them, and these are the first:
      the last request so far is admitted exactly if fewer than `limit` came before it. */
  lemma {:induction false} FirstOnesAdmitted(h: seq<Request>, limit: nat, width: nat, c: Client, slot: nat)
    requires width > 0 && ErrorFree(h, width, c, slot)
    ensures
      var n := Counted(h, width, c, slot);
      InSlot(h, limit, width, c, slot) == if n < limit then n else limit
    ensures |h| > 0 && h[|h| - 1].client == c && Slot(h[|h| - 1].at, width) == slot ==>
      (LastAdmitted(h, limit, width) <==> Counted(h[..|h| - 1], width, c, slot) < limit)
  {
    if |h| > 0 {
      FirstOnesAdmitted(h[..|h| - 1], limit, width, c, slot);
    }
  }

  // ----- several windows --------------------------------------------------------------------------

  /** How many were admitted in the `n` windows from number `slot` on. */
  function InSlots(h: seq<Request>, limit: nat, width: nat, c: Client, slot: nat, n: nat): nat
    requires width > 0
  {
    if n == 0 then 0 else InSlots(h, limit, width, c, slot, n - 1) + InSlot(h, limit, width, c, slot + n - 1)
  }

  lemma {:induction false} SlotsBounded(h: seq<Request>, limit: nat, width: nat, c: Client, slot: nat, n: nat)
    requires width > 0
    ensures InSlots(h, limit, width, c, slot, n) <= limit * n
  {
    if n > 0 {
      SlotsBounded(h, limit, width, c, slot, n - 1);
      SlotBounded(h, limit, width, c, slot + n - 1);
      assert limit * n == limit * (n - 1) + limit;
    }
  }

  lemma {:induction false} SlotsLast(h: seq<Request>, limit: nat, width: nat, c: Client, slot: nat, n: nat)
    requires width > 0 && |h| > 0
    ensures
      var r := h[|h| - 1];
      InSlots(h, limit, width, c, slot, n) == InSlots(h[..|h| - 1], limit, width, c, slot, n)
        + if LastAdmitted(h, limit, width) && r.client == c && slot <= Slot(r.at, width) < slot + n then 1 else 0
  {
    if n > 0 {
      SlotsLast(h, limit, width, c, slot, n - 1);
    }
  }

  lemma DivMonotone(s: nat, t: nat, width: nat)
    requires s <= t && width > 0
    ensures s / width <= t / width
  {
    assert s / width * width <= s <= t < (t / width + 1) * width;
    SmallerFactor(s / width, t / width + 1, width);
  }

  /** Whatever was admitted in a stretch of seconds was admitted in one of the windows it touches. */
  lemma {:induction false} StretchInSlots(h: seq<Request>, limit: nat, width: nat, c: Client, from: nat, to: nat)
    requires width > 0 && from < to
    ensures Admissions(h, limit, width, c, from, to)
      <= InSlots(h, limit, width, c, from / width, TouchedSlots(from, to, width))
  {
    if |h| > 0 {
      StretchInSlots(h[..|h| - 1], limit, width, c, from, to);
      SlotsLast(h, limit, width, c, from / width, TouchedSlots(from, to, width));
      var s := h[|h| - 1].at / 1000;
      if from <= s < to {
        DivMonotone(from, s, width);
        DivMonotone(s, to - 1, width);
      }
    }
  }

  function TouchedSlots(from: nat, to: nat, width: nat): (n: nat)
    requires width > 0 && from < to
  {
    DivMonotone(from, to - 1, width);
    (to - 1) / width - from / width + 1
  }

  lemma DivShift(r: nat, q: nat, width: nat)
    requires width > 0
    ensures (q * width + r) / width == q + r / width
  {
    var k := r / width;
    assert (q + k) * width == q * width + k * width;
    assert (q + k) * width <= q * width + r < (q + k + 1) * width;
    QuotientIs(q * width + r, q + k, width);
  }

  lemma QuotientIs(x: nat, q: nat, width: nat)
    requires width > 0 && q * width <= x < (q + 1) * width
    ensures x / width == q
  {
    assert x / width * width <= x < (x / width + 1) * width;
    SmallerFactor(q, x / width + 1, width);
    SmallerFactor(x / width, q + 1, width);
  }

  lemma TouchedBounded(from: nat, length: nat, width: nat)
    requires width > 0 && length > 0
    ensures TouchedSlots(from, from + length, width) <= (length + width - 2) / width + 1
  {
    var q, r := from / width, from % width;
    assert from == q * width + r;
    DivShift(r + length - 1, q, width);
    DivMonotone(r + length - 1, length + width - 2, width);
  }

  // ----- main results -----------------------------------------------------------------------------

  lemma TimesMonotone(k: nat, a: nat, b: nat)
    requires a <= b
    ensures k * a <= k * b
  {
    assert k * b == k * a + k * (b - a);
    assert k * (b - a) >= 0;
  }

  /** In any `length` consecutive seconds, at most limit * (floor((length + width - 2) / width) + 1)
      requests of a client are admitted. */
  lemma SlidingBound(h: seq<Request>, limit: nat, width: nat, c: Client, from: nat, length: nat)
    requires width > 0 && length > 0
    ensures Admissions(h, limit, width, c, from, from + length) <= limit * ((length + width - 2) / width + 1)
  {
    var n := TouchedSlots(from, from + length, width);
    StretchInSlots(h, limit, width, c, from, from + length);
    SlotsBounded(h, limit, width, c, from / width, n);
    TouchedBounded(from, length, width);
    TimesMonotone(limit, n, (length + width - 2) / width + 1);
  }

  lemma {:induction false} LetThroughSplits(h: seq<Request>, limit: nat, width: nat, c: Client, from: nat, to: nat)
    requires width > 0
    ensures LetThrough(h, limit, width, c, from, to)
      == Admissions(h, limit, width, c, from, to) + Failures(h, c, from, to)
  {
    if |h| > 0 {
      LetThroughSplits(h[..|h| - 1], limit, width, c, from, to);
    }
  }

  /** In any stretch as long as the window, at most twice the limit is let through, not counting the
      requests whose increment reported an error. */
  lemma TwiceTheLimit(h: seq<Request>, limit: nat, width: nat, c: Client, from: nat)
    requires width > 0
    ensures LetThrough(h, limit, width, c, from, from + width) <= 2 * limit + Failures(h, c, from, from + width)
  {
    SlidingBound(h, limit, width, c, from, width);
    LetThroughSplits(h, limit, width, c, from, from + width);
    assert (width + width - 2) / width <= 1 by {
      if width == 1 {
      } else {
        QuotientIs(width + width - 2, 1, width);
      }
    }
    TimesMonotone(limit, (width + width - 2) / width + 1, 2);
  }

  // ----- the bound is reached ---------------------------------------------------------------------

  function Burst(h: seq<Request>, c: Client, at: nat, n: nat): seq<Request> {
    if n == 0 then h else Burst(h, c, at, n - 1) + [Request(at, c, Done)]
  }

  lemma {:induction false} BurstCounted(h: seq<Request>, width: nat, c: Client, at: nat, n: nat, slot: nat)
    requires width > 0
    ensures Counted(Burst(h, c, at, n), width, c, slot)
      == Counted(h, width, c, slot) + if Slot(at, width) == slot then n else 0
  {
    if n > 0 {
      BurstCounted(h, width, c, at, n - 1, slot);
      CountedSnoc(Burst(h, c, at, n - 1), width, Request(at, c, Done), c, slot);
    }
  }

  lemma {:induction false} BurstAdmitted(h: seq<Request>, limit: nat, width: nat, c: Client, at: nat, n: nat,
      from: nat, to: nat)
    requires width > 0 && Counted(h, width, c, Slot(at, width)) + n <= limit && from <= at / 1000 < to
    ensures Admissions(Burst(h, c, at, n), limit, width, c, from, to) == Admissions(h, limit, width, c, from, to) + n
  {
    if n > 0 {
      BurstAdmitted(h, limit, width, c, at, n - 1, from, to);
      BurstCounted(h, width, c, at, n, Slot(at, width));
      var b := Burst(h, c, at, n);
      assert b[..|b| - 1] == Burst(h, c, at, n - 1);
    }
  }

  lemma {:induction false} BurstOrdered(h: seq<Request>, c: Client, at: nat, n: nat)
    requires Ordered(h) && forall i | 0 <= i < |h| :: h[i].at <= at
    ensures Ordered(Burst(h, c, at, n)) && forall i | 0 <= i < |Burst(h, c, at, n)| :: Burst(h, c, at, n)[i].at <= at
  {
    if n > 0 {
      BurstOrdered(h, c, at, n - 1);
    }
  }

  /** In a window of two seconds or more, `limit` requests in its last second and `limit` in the
      next are all admitted: twice the limit within `width` seconds. */
  lemma TwiceIsReached(limit: nat, width: nat, c: Client) returns (h: seq<Request>)
    requires width >= 2
    ensures Ordered(h) && Admissions(h, limit, width, c, 1, 1 + width) == 2 * limit
  {
    var first := Burst([], c, (width - 1) * 1000, limit);
    h := Burst(first, c, width * 1000, limit);
    BurstOrdered([], c, (width - 1) * 1000, limit);
    BurstOrdered(first, c, width * 1000, limit);
    QuotientIs(width - 1, 0, width);
    QuotientIs(width, 1, width);
    assert (width - 1) * 1000 / 1000 == width - 1 && width * 1000 / 1000 == width;
    BurstCounted([], width, c, (width - 1) * 1000, limit, 1);
    BurstAdmitted([], limit, width, c, (width - 1) * 1000, limit, 1, 1 + width);
    BurstAdmitted(first, limit, width, c, width * 1000, limit, 1, 1 + width);
  }
}
