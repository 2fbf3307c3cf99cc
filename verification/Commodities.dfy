/** Goods on sale: lazy restocking and scarcity prices (commodity.go). */
module Commodities {
  import opened Goods
  import opened Entities

  /** What restocking reads and writes: the daily rate, the stock, and the instant it was last brought up to. */
  datatype Stock = Stock(prod: int, quantity: nat, clock: int)
  {
    function Max(): int { 10 * prod }
    function Rate(): int { 2 * prod }
  }

  class Commodity {
    const good: Good
    const sells: bool
    const buyPrice: real
    const sellPrice: real
    var prod: int
    var quantity: nat
    var lastRestock: int

    constructor (good: Good, sells: bool, buyPrice: real, sellPrice: real, prod: int, quantity: nat)
      ensures this.good == good && this.sells == sells && this.buyPrice == buyPrice && this.sellPrice == sellPrice
      ensures State() == Stock(prod, quantity, 0)
    {
      this.good, this.sells, this.buyPrice, this.sellPrice := good, sells, buyPrice, sellPrice;
      this.prod, this.quantity, lastRestock := prod, quantity, 0;
    }

    function State(): Stock
      reads this
    {
      Stock(prod, quantity, lastRestock)
    }

    /** Brings the stock up to date, in whole units; the clock moves only by the time those units took. */
    method Restock(now: int)
      modifies this`quantity, this`lastRestock
      ensures State() == Polled(old(State()), now)
    {
      if prod <= 0 {
        return;
      }
      if lastRestock == 0 {
        lastRestock := now;
        return;
      }
      var elapsed := now - lastRestock;
      if elapsed <= 0 {
        return;
      }
      var max := prod * 10;
      if quantity >= max {
        lastRestock := now;
        return;
      }
      var rate := 2 * prod;
      var gain := rate * elapsed / DAY;
      if gain <= 0 {
        return;
      }
      lastRestock := lastRestock + gain * DAY / rate;
      quantity := quantity + gain;
      if quantity >= max {
        quantity := max;
        lastRestock := now;
      }
    }
  }

  // ----- What any schedule of polls can do

  /** Whole units owed at an instant. */
  function Owed(s: Stock, now: int): int {
    s.Rate() * (now - s.clock) / DAY
  }

  /** The stock after one poll. */
  function Polled(s: Stock, now: int): Stock {
    if s.prod <= 0 then s
    else if s.clock == 0 then s.(clock := now)
    else if now <= s.clock then s
    else if s.quantity >= s.Max() then s.(clock := now)
    else if Owed(s, now) <= 0 then s
    else if s.quantity + Owed(s, now) >= s.Max() then s.(quantity := s.Max(), clock := now)
    else s.(quantity := s.quantity + Owed(s, now), clock := s.clock + Owed(s, now) * DAY / s.Rate())
  }

  /** The stock after a whole schedule of polls, at whatever times and in whatever order. */
  function Schedule(s: Stock, polls: seq<int>): Stock {
    if polls == [] then s else Polled(Schedule(s, polls[..|polls| - 1]), polls[|polls| - 1])
  }

  /** How many polls of the schedule added anything. */
  function Credits(s: Stock, polls: seq<int>): nat {
    if polls == [] then 0
    else
      var before := Schedule(s, polls[..|polls| - 1]);
      Credits(s, polls[..|polls| - 1]) + if Polled(before, polls[|polls| - 1]).quantity > before.quantity then 1 else 0
  }

  ghost predicate Running(s: Stock) {
    s.prod > 0 && s.clock > 0
  }

  /** The first poll of a producing stock sets its clock going and brings nothing; a stock that produces nothing never changes. */
  lemma FirstPoll(s: Stock, now: int)
    requires now > 0 && (s.clock == 0 || s.prod <= 0)
    ensures Polled(s, now).quantity == s.quantity && Polled(s, now).prod == s.prod
    ensures s.prod > 0 ==> Running(Polled(s, now)) && forall later :: now <= later ==>
              Owed(Polled(s, now), later) * DAY <= s.Rate() * (later - now) < Owed(Polled(s, now), later) * DAY + DAY
    ensures s.prod <= 0 ==> Polled(s, now) == s
  {
    if s.prod > 0 {
      forall later | now <= later
        ensures Owed(Polled(s, now), later) * DAY <= s.Rate() * (later - now) < Owed(Polled(s, now), later) * DAY + DAY
      {
        Quotient(s.Rate() * (later - now), DAY);
      }
    }
  }

  /** Credit measured against the clock: units in stock at their cost in time, less the time accounted for. */
  function Potential(s: Stock): int {
    DAY * s.quantity - s.Rate() * s.clock
  }

  lemma Quotient(a: int, b: int)
    requires b > 0
    ensures b * (a / b) <= a < b * (a / b) + b
  {
  }

  /** A unit's time is charged to within a second: the potential never falls, and rises by less than a second's worth. */
  lemma OnePoll(s: Stock, now: int)
    requires Running(s)
    ensures var t := Polled(s, now);
            && t.prod == s.prod && s.quantity <= t.quantity && s.clock <= t.clock && (t.clock <= now || t.clock == s.clock)
            && (t.quantity < t.Max() ==> Potential(s) <= Potential(t))
            && Potential(t) <= Potential(s) + (if t.quantity > s.quantity then s.Rate() - 1 else 0)
            && (s.quantity <= s.Max() ==> t.quantity <= t.Max())
            && (t.quantity < t.Max() ==> DAY * t.quantity > DAY * s.quantity + s.Rate() * (now - s.clock) - DAY)
  {
    if now > s.clock && s.quantity < s.Max() {
      var rate, gain := s.Rate(), Owed(s, now);
      Quotient(rate * (now - s.clock), DAY);
      if gain > 0 {
        Quotient(gain * DAY, rate);
        var step := gain * DAY / rate;
        StepWithin(rate, step, gain, now - s.clock);
        assert rate * (s.clock + step) == rate * s.clock + rate * step;
        assert rate * now == rate * s.clock + rate * (now - s.clock);
      } else {
        assert rate * (now - s.clock) < DAY;
      }
    } else {
      assert now <= s.clock ==> s.Rate() * (now - s.clock) <= 0 by {
        if now <= s.clock { Signed(s.Rate(), now - s.clock); }
      }
      assert s.Rate() * now == s.Rate() * s.clock + s.Rate() * (now - s.clock);
      if now > s.clock { Positive(s.Rate(), now - s.clock); }
    }
  }

  lemma Signed(a: int, b: int)
    requires a >= 0 && b <= 0
    ensures a * b <= 0
  {
  }

  lemma Positive(a: int, b: int)
    requires a >= 0 && b >= 0
    ensures a * b >= 0
  {
  }

  lemma StepWithin(rate: int, step: int, gain: int, elapsed: int)
    requires rate > 0 && gain > 0 && gain * DAY <= rate * elapsed && rate * step <= gain * DAY < rate * step + rate
    ensures 0 <= step <= elapsed
  {
    assert rate * (elapsed - step) == rate * elapsed - rate * step;
    assert rate * (step + 1) == rate * step + rate;
    AtLeastZero(rate, elapsed - step);
    AtLeastZero(rate, step + 1);
    if step == -1 {
      assert false;
    }
  }

  lemma AtLeastZero(a: int, b: int)
    requires a > 0 && a * b >= 0
    ensures b >= 0
  {
  }

  /**
    * Over any schedule of polls, whatever the times, stock never falls, a stock within its maximum stays within
    * it, the clock never runs ahead of the latest poll, and each poll that credits anything gives away
    * less than one second's production.
    */
  lemma {:induction false} AnySchedule(s: Stock, polls: seq<int>, end: int)
    requires Running(s) && s.clock <= end && forall i :: 0 <= i < |polls| ==> polls[i] <= end
    ensures var t := Schedule(s, polls);
            && t.prod == s.prod && s.quantity <= t.quantity && s.clock <= t.clock <= end
            && (s.quantity <= s.Max() ==> t.quantity <= t.Max())
            && (t.quantity < t.Max() ==> Potential(s) <= Potential(t))
            && Potential(t) <= Potential(s) + Credits(s, polls) * (s.Rate() - 1)
  {
    if polls != [] {
      var before, now := polls[..|polls| - 1], polls[|polls| - 1];
      AnySchedule(s, before, end);
      var mid := Schedule(s, before);
      OnePoll(mid, now);
      if Polled(mid, now).quantity > mid.quantity {
        assert (Credits(s, before) + 1) * (s.Rate() - 1) == Credits(s, before) * (s.Rate() - 1) + s.Rate() - 1;
      }
    }
  }

  lemma Appended(s: Stock, polls: seq<int>, more: int)
    ensures Schedule(s, polls + [more]) == Polled(Schedule(s, polls), more)
  {
    assert (polls + [more])[..|polls + [more]| - 1] == polls;
  }

  /**
    * However often a stock is polled, and at whatever times, a poll at `now` leaves at least what one poll
    * after the whole time would have: everything produced since the start, as far as there is room.
    */
  lemma NothingLost(s: Stock, polls: seq<int>, now: int)
    requires Running(s)
    ensures var t := Schedule(s, polls + [now]); t.quantity >= s.Max() || t.quantity >= s.quantity + Owed(s, now)
  {
    hide Polled, Schedule, Owed;
    Appended(s, polls, now);
    var mid := Schedule(s, polls);
    AnySchedule(s, polls, Latest(polls, s.clock));
    OnePoll(mid, now);
    var t := Polled(mid, now);
    if t.quantity < t.Max() {
      OwedSince(s, mid, t, now);
    }
  }

  lemma OwedSince(s: Stock, mid: Stock, t: Stock, now: int)
    requires Running(s) && mid.prod == s.prod && Potential(s) <= Potential(mid)
    requires DAY * t.quantity > DAY * mid.quantity + mid.Rate() * (now - mid.clock) - DAY
    ensures t.quantity >= s.quantity + Owed(s, now)
  {
    var rate := s.Rate();
    assert rate * (now - mid.clock) == rate * now - rate * mid.clock && rate * (now - s.clock) == rate * now - rate * s.clock;
    Quotient(rate * (now - s.clock), DAY);
  }

  function Latest(polls: seq<int>, least: int): (end: int)
    ensures end >= least && forall i :: 0 <= i < |polls| ==> polls[i] <= end
  {
    if polls == [] then least
    else
      var rest := Latest(polls[..|polls| - 1], least);
      if polls[|polls| - 1] > rest then polls[|polls| - 1] else rest
  }

  /** Polling more often is never worse than polling once. */
  lemma OftenIsNoWorse(s: Stock, polls: seq<int>, now: int)
    requires Running(s) && s.quantity <= s.Max()
    ensures Schedule(s, polls + [now]).quantity >= Polled(s, now).quantity
  {
    NothingLost(s, polls, now);
    AnySchedule(s, polls + [now], Latest(polls + [now], s.clock));
  }

  /** k crediting polls over a span of T seconds credit less than T + k seconds' production. */
  lemma CreditIsBounded(s: Stock, polls: seq<int>, end: int)
    requires Running(s) && s.clock <= end && forall i :: 0 <= i < |polls| ==> polls[i] <= end
    ensures var credited := Schedule(s, polls).quantity - s.quantity; var k := Credits(s, polls);
            && DAY * credited <= s.Rate() * (end - s.clock + k)
            && (k > 0 ==> DAY * credited < s.Rate() * (end - s.clock + k))
  {
    hide Polled, Schedule, Credits;
    AnySchedule(s, polls, end);
    var t, k, rate := Schedule(s, polls), Credits(s, polls), s.Rate();
    Positive(rate, end - t.clock);
    Bounded(rate, s.clock, t.clock, end, k, DAY * s.quantity, DAY * t.quantity);
  }

  lemma Bounded(rate: int, start: int, clock: int, end: int, k: nat, before: int, after: int)
    requires rate * (end - clock) >= 0 && rate > 0
    requires after - rate * clock <= before - rate * start + k * (rate - 1)
    ensures after - before <= rate * (end - start + k) && (k > 0 ==> after - before < rate * (end - start + k))
  {
    assert rate * (end - start + k) == rate * (end - clock) + rate * clock - rate * start + rate * k;
    assert k * (rate - 1) == rate * k - k;
  }

  // ----- Exactly when polls give nothing away

  /** Whatever the schedule, no more is credited than was produced. */
  ghost predicate NothingExtra(s: Stock) {
    forall polls: seq<int>, end: int :: s.clock <= end && (forall i :: 0 <= i < |polls| ==> polls[i] <= end) ==>
      Schedule(s, polls).quantity <= s.quantity + Owed(s, end)
  }

  /** Units take whole seconds, or seconds make whole units. */
  predicate Whole(s: Stock)
    requires s.prod > 0
  {
    DAY % s.Rate() == 0 || s.Rate() % DAY == 0
  }

  /**
    * The rate divides the day, or the day the rate, so that units take whole seconds; or there is not room for enough
    * units for the fractions of a second they were not charged to add up to a unit.
    */
  predicate NoFractions(s: Stock)
    requires s.prod > 0
  {
    Whole(s) || (s.Max() - s.quantity) * (DAY % s.Rate()) <= s.Rate()
  }

  /** That is exactly when, for any stock at any rate. */
  lemma NothingExtraExactlyWhen(s: Stock)
    requires Running(s)
    ensures NothingExtra(s) <==> NoFractions(s)
  {
    if NoFractions(s) {
      forall polls: seq<int>, end: int | s.clock <= end && (forall i :: 0 <= i < |polls| ==> polls[i] <= end)
        ensures Schedule(s, polls).quantity <= s.quantity + Owed(s, end)
      {
        CreditIsEarned(s, polls, end);
      }
    } else {
      var polls, end := Overcredited(s);
    }
  }

  lemma ExactQuotient(a: int, b: int, k: int)
    requires b > 0 && a == b * k
    ensures a / b == k
  {
    Quotient(a, b);
    Between(b, k, a / b);
  }

  lemma Scale(b: int, x: int, y: int)
    requires b >= 0 && x <= y
    ensures b * x <= b * y
  {
    Positive(b, y - x);
    assert b * (y - x) == b * y - b * x;
  }

  lemma Between(b: int, k: int, q: int)
    requires b > 0 && b * q <= b * k < b * q + b
    ensures q == k
  {
    assert b * (q + 1) == b * q + b && b * (k + 1) == b * k + b;
    if q < k {
      Scale(b, q + 1, k);
    } else if k < q {
      Scale(b, k + 1, q);
    }
  }

  /** The clock is charged exactly for whole units if units take whole seconds, or seconds make whole units. */
  lemma ChargedInFull(rate: int, gain: int, elapsed: int)
    requires rate > 0 && gain == rate * elapsed / DAY && (DAY % rate == 0 || rate % DAY == 0)
    ensures rate * (gain * DAY / rate) == gain * DAY
  {
    if DAY % rate == 0 {
      var q := DAY / rate;
      assert DAY == rate * q;
      assert gain * DAY == rate * (gain * q);
      ExactQuotient(gain * DAY, rate, gain * q);
    } else {
      var m := rate / DAY;
      assert rate == DAY * m;
      assert rate * elapsed == DAY * (m * elapsed);
      ExactQuotient(rate * elapsed, DAY, m * elapsed);
      ExactQuotient(gain * DAY, rate, elapsed);
    }
  }

  /** What a unit is not charged for: what is left of the day after its whole seconds. */
  function Uncharged(s: Stock): (r: int)
    requires s.prod > 0
    ensures 0 <= r < s.Rate() && DAY == s.Rate() * (DAY / s.Rate()) + r
  {
    DAY % s.Rate()
  }

  /** Stock gained since the start was charged to the clock, but for a fraction a unit. */
  ghost predicate ChargedBut(s: Stock, t: Stock)
    requires s.prod > 0
  {
    DAY * (t.quantity - s.quantity) <= s.Rate() * (t.clock - s.clock) + (t.quantity - s.quantity) * Uncharged(s)
  }

  /** A poll that may still add a unit has waited a second longer than the whole seconds of the units. */
  lemma WaitedFor(rate: int, q: int, r: int, n: int, g: int, elapsed: int)
    requires rate > 0 && r > 0 && g > 0 && DAY == rate * q + r && (n + g) * r <= rate && rate * elapsed >= g * DAY
    ensures n * r + g * DAY <= rate * elapsed
  {
    assert g * DAY == rate * (g * q) + g * r;
    Positive(g, r);
    assert g * r >= 1 by {
      assert g * r == (g - 1) * r + r;
      Positive(g - 1, r);
    }
    assert rate * (elapsed - g * q) == rate * elapsed - rate * (g * q);
    if elapsed - g * q <= 0 {
      Signed(rate, elapsed - g * q);
    }
    Positive(rate, elapsed - g * q - 1);
    assert rate * (elapsed - g * q - 1) == rate * elapsed - rate * (g * q) - rate;
    assert (n + g) * r == n * r + g * r;
  }

  /** One poll of a stock that charges in full: the potential does not rise. */
  lemma InFull(s: Stock, now: int)
    requires Running(s) && Whole(s)
    ensures Potential(Polled(s, now)) <= Potential(s)
  {
    if now > s.clock {
      var rate, gain := s.Rate(), Owed(s, now);
      assert rate * now == rate * s.clock + rate * (now - s.clock);
      Positive(rate, now - s.clock);
      Quotient(rate * (now - s.clock), DAY);
      ChargedInFull(rate, gain, now - s.clock);
      assert rate * (s.clock + gain * DAY / rate) == rate * s.clock + rate * (gain * DAY / rate);
    }
  }

  /** Gaining a few units more, with too little room for what they are not charged to add up to a second's production. */
  lemma Gained(rate: int, q: int, r: int, n: int, g: int, elapsed: int, spent: int, room: int)
    requires rate > 0 && r > 0 && g > 0 && n >= 0 && DAY == rate * q + r && n + g <= room && room * r <= rate
    requires g * DAY <= rate * elapsed && DAY * n <= spent + n * r
    ensures DAY * (n + g) <= spent + rate * elapsed <= spent + rate * elapsed + (n + g) * r
    ensures DAY * (n + g) <= spent + rate * (g * DAY / rate) + (n + g) * r
  {
    Scale(r, n + g, room);
    WaitedFor(rate, q, r, n, g, elapsed);
    WholeSeconds(rate, q, r, g);
    Positive(n + g, r);
    assert (n + g) * r == n * r + g * r;
  }

  /** One poll of a stock with too little room for the fractions to add up. */
  lemma NoRoom(s: Stock, mid: Stock, now: int)
    requires Running(s) && Running(mid) && mid.prod == s.prod && mid.quantity >= s.quantity && ChargedBut(s, mid)
    requires Uncharged(s) > 0 && (s.Max() - s.quantity) * Uncharged(s) <= s.Rate()
    ensures ChargedBut(s, Polled(mid, now))
    ensures Polled(mid, now).quantity > mid.quantity ==> DAY * (Polled(mid, now).quantity - s.quantity) <= s.Rate() * (now - s.clock)
  {
    var t, rate, q, r := Polled(mid, now), s.Rate(), DAY / s.Rate(), Uncharged(s);
    var n, g, spent := mid.quantity - s.quantity, t.quantity - mid.quantity, rate * (mid.clock - s.clock);
    if g > 0 {
      var elapsed := now - mid.clock;
      Quotient(rate * elapsed, DAY);
      assert g <= Owed(mid, now) && n + g <= s.Max() - s.quantity;
      hide Uncharged;
      Gained(rate, q, r, n, g, elapsed, spent, s.Max() - s.quantity);
      Split(rate, s.clock, mid.clock, now);
      Split(rate, s.clock, mid.clock, mid.clock + g * DAY / rate);
      assert t.clock == now || t.clock == mid.clock + g * DAY / rate;
    } else {
      assert t.quantity == mid.quantity && t.clock >= mid.clock;
      Scale(rate, mid.clock - s.clock, t.clock - s.clock);
    }
  }

  lemma Split(rate: int, a: int, b: int, c: int)
    ensures rate * (c - a) == rate * (b - a) + rate * (c - b)
  {
  }

  /** Units are charged for at least their whole seconds. */
  lemma WholeSeconds(rate: int, q: int, r: int, g: int)
    requires rate > 0 && g > 0 && 0 <= r && DAY == rate * q + r
    ensures rate * (g * DAY / rate) >= g * DAY - g * r
  {
    assert g * DAY == rate * (g * q) + g * r;
    Positive(g, r);
    Quotient(g * DAY, rate);
    var step := g * DAY / rate;
    assert rate * (step + 1 - g * q) == rate * step + rate - rate * (g * q);
    if step < g * q {
      Signed(rate, step + 1 - g * q);
    }
    Positive(rate, step - g * q);
    assert rate * (step - g * q) == rate * step - rate * (g * q);
  }

  /** A unit earned by now is earned by the end. */
  lemma StillEarned(s: Stock, t: Stock, now: int, end: int)
    requires s.prod > 0 && now <= end && DAY * (t.quantity - s.quantity) <= s.Rate() * (now - s.clock)
    ensures DAY * (t.quantity - s.quantity) <= s.Rate() * (end - s.clock)
  {
    Scale(s.Rate(), now - s.clock, end - s.clock);
  }

  /** What a clock has been charged for at the potential of the start has been earned. */
  lemma PaidFor(s: Stock, t: Stock, end: int)
    requires s.prod > 0 && t.prod == s.prod && t.clock <= end && Potential(t) <= Potential(s)
    ensures DAY * (t.quantity - s.quantity) <= s.Rate() * (end - s.clock)
  {
    Split(s.Rate(), 0, s.clock, t.clock);
    StillEarned(s, t, t.clock, end);
  }

  lemma {:induction false} EarnedInFull(s: Stock, polls: seq<int>, end: int)
    requires Running(s) && Whole(s) && s.clock <= end && forall i :: 0 <= i < |polls| ==> polls[i] <= end
    ensures Potential(Schedule(s, polls)) <= Potential(s)
    ensures DAY * (Schedule(s, polls).quantity - s.quantity) <= s.Rate() * (end - s.clock)
  {
    AnySchedule(s, polls, end);
    if polls != [] {
      var init, now := polls[..|polls| - 1], polls[|polls| - 1];
      hide Polled, Potential;
      EarnedInFull(s, init, end);
      AnySchedule(s, init, end);
      InFull(Schedule(s, init), now);
    }
    hide Schedule, Potential;
    PaidFor(s, Schedule(s, polls), end);
  }

  lemma {:induction false} EarnedWithin(s: Stock, polls: seq<int>, end: int)
    requires Running(s) && Uncharged(s) > 0 && (s.Max() - s.quantity) * Uncharged(s) <= s.Rate()
    requires s.clock <= end && forall i :: 0 <= i < |polls| ==> polls[i] <= end
    ensures ChargedBut(s, Schedule(s, polls))
    ensures DAY * (Schedule(s, polls).quantity - s.quantity) <= s.Rate() * (end - s.clock)
  {
    if polls == [] {
      Positive(s.Rate(), end - s.clock);
    } else {
      var init, now := polls[..|polls| - 1], polls[|polls| - 1];
      EarnedWithin(s, init, end);
      AnySchedule(s, init, end);
      AnySchedule(s, polls, end);
      var mid := Schedule(s, init);
      OnePoll(mid, now);
      hide Polled, Uncharged, ChargedBut;
      NoRoom(s, mid, now);
      if Polled(mid, now).quantity > mid.quantity {
        StillEarned(s, Polled(mid, now), now, end);
      }
    }
  }

  lemma LittleRoom(s: Stock)
    requires s.prod > 0 && NoFractions(s) && !Whole(s)
    ensures Uncharged(s) > 0 && (s.Max() - s.quantity) * Uncharged(s) <= s.Rate()
  {
  }

  /** What is credited by the end was produced by the end. */
  lemma CreditIsEarned(s: Stock, polls: seq<int>, end: int)
    requires Running(s) && NoFractions(s) && s.clock <= end && forall i :: 0 <= i < |polls| ==> polls[i] <= end
    ensures Schedule(s, polls).quantity <= s.quantity + Owed(s, end)
  {
    if Whole(s) {
      EarnedInFull(s, polls, end);
    } else {
      LittleRoom(s);
      EarnedWithin(s, polls, end);
    }
    Quotient(s.Rate() * (end - s.clock), DAY);
  }

  /** Where the clock stands after so many units, each charged for its whole seconds only. */
  function Rung(clock: int, q: int, units: nat): int {
    if units == 0 then clock else Rung(clock, q, units - 1) + q
  }

  /** Polls one after another, each as soon as it can credit one unit after the last. */
  function Ladder(clock: int, q: int, units: nat): seq<int> {
    if units == 0 then [] else Ladder(clock, q, units - 1) + [Rung(clock, q, units - 1) + q + 1]
  }

  lemma {:induction false} RungAt(clock: int, q: int, units: nat)
    ensures Rung(clock, q, units) == clock + units * q
  {
    if units > 0 {
      RungAt(clock, q, units - 1);
      assert units * q == (units - 1) * q + q;
    }
  }

  lemma {:induction false} LadderEnds(clock: int, q: int, units: nat)
    requires q >= 0
    ensures clock <= Rung(clock, q, units)
    ensures forall x :: x in Ladder(clock, q, units) ==> x <= Rung(clock, q, units) + 1
  {
    if units > 0 {
      LadderEnds(clock, q, units - 1);
    }
  }

  lemma NoPolls(s: Stock)
    ensures Schedule(s, []) == s
  {
  }

  lemma WholeSecond(rate: int)
    requires 0 < rate < DAY
    ensures DAY / rate >= 1
  {
  }

  /** As soon as a unit can be credited, it is, and charged for its whole seconds only. */
  lemma OneRung(s: Stock)
    requires Running(s) && s.Rate() < DAY && Uncharged(s) > 0 && s.quantity < s.Max()
    ensures var q := DAY / s.Rate(); var t := Polled(s, s.clock + q + 1);
            q >= 1 && t.prod == s.prod && t.quantity == s.quantity + 1 && (t.quantity < s.Max() ==> t.clock == s.clock + q)
  {
    var rate, q := s.Rate(), DAY / s.Rate();
    assert rate * (q + 1) == DAY - Uncharged(s) + rate;
    Quotient(rate * (q + 1), DAY);
    assert DAY * 1 <= rate * (q + 1) < DAY * 1 + DAY;
    assert Owed(s, s.clock + q + 1) == 1;
  }

  lemma {:induction false} Climbed(s: Stock, units: nat)
    requires Running(s) && s.Rate() < DAY && Uncharged(s) > 0 && units <= s.Max() - s.quantity
    ensures var q := DAY / s.Rate(); var t := Schedule(s, Ladder(s.clock, q, units));
            && q >= 1 && s.clock <= Rung(s.clock, q, units)
            && t.prod == s.prod && t.quantity == s.quantity + units
            && (units < s.Max() - s.quantity ==> t.clock == Rung(s.clock, q, units))
  {
    hide Schedule, Polled;
    var q := DAY / s.Rate();
    if units == 0 {
      assert Schedule(s, []) == s by { NoPolls(s); }
      WholeSecond(s.Rate());
    } else {
      Climbed(s, units - 1);
      var mid := Stock(s.prod, s.quantity + units - 1, Rung(s.clock, q, units - 1));
      assert Schedule(s, Ladder(s.clock, q, units - 1)) == mid;
      hide Uncharged;
      Appended(s, Ladder(s.clock, q, units - 1), mid.clock + q + 1);
      OneRung(mid);
    }
  }

  /** Where fractions add up, some schedule is credited more than was produced by its last poll. */
  lemma Overcredited(s: Stock) returns (polls: seq<int>, end: int)
    requires Running(s) && !NoFractions(s)
    ensures s.clock <= end && (forall i :: 0 <= i < |polls| ==> polls[i] <= end)
    ensures Schedule(s, polls).quantity > s.quantity + Owed(s, end)
  {
    if s.Rate() < DAY {
      polls, end := UnitByUnit(s);
    } else {
      polls := TwiceInASecond(s);
      end := s.clock + 1;
    }
  }

  /** What has been owed by the last of the polls. */
  lemma LastRung(s: Stock, units: nat)
    requires Running(s) && Uncharged(s) * units > s.Rate()
    ensures Owed(s, Rung(s.clock, DAY / s.Rate(), units) + 1) < units
  {
    var rate, q, r := s.Rate(), DAY / s.Rate(), Uncharged(s);
    RungAt(s.clock, q, units);
    OwedAt(rate, q, r, units);
  }

  lemma OwedAt(rate: int, q: int, r: int, units: nat)
    requires rate > 0 && DAY == rate * q + r && r * units > rate
    ensures rate * (units * q + 1) / DAY < units
  {
    assert rate * (units * q + 1) == units * (rate * q) + rate;
    assert units * (rate * q) == units * DAY - units * r;
    Quotient(rate * (units * q + 1), DAY);
  }

  lemma RoomForFractions(s: Stock)
    requires s.prod > 0 && !NoFractions(s)
    ensures Uncharged(s) > 0 && (s.Max() - s.quantity) * Uncharged(s) > s.Rate() && s.Rate() % DAY != 0
  {
  }

  /** There is room for so many units that fewer have been owed by the last of their polls. */
  lemma TooManyUnits(s: Stock) returns (units: nat)
    requires Running(s) && !NoFractions(s)
    ensures Uncharged(s) > 0 && units <= s.Max() - s.quantity && Owed(s, Rung(s.clock, DAY / s.Rate(), units) + 1) < units
  {
    RoomForFractions(s);
    units := EnoughUnits(s.Rate(), Uncharged(s), s.Max() - s.quantity);
    hide Owed, Rung, Uncharged;
    LastRung(s, units);
  }

  lemma UnitByUnit(s: Stock) returns (polls: seq<int>, end: int)
    requires Running(s) && !NoFractions(s) && s.Rate() < DAY
    ensures s.clock <= end && (forall i :: 0 <= i < |polls| ==> polls[i] <= end)
    ensures Schedule(s, polls).quantity > s.quantity + Owed(s, end)
  {
    hide NoFractions, Schedule, Owed, Rung, Ladder, Uncharged;
    var units := TooManyUnits(s);
    var q := DAY / s.Rate();
    Climbed(s, units);
    LadderEnds(s.clock, q, units);
    polls, end := Ladder(s.clock, q, units), Rung(s.clock, q, units) + 1;
    assert forall i :: 0 <= i < |polls| ==> polls[i] in polls;
  }

  /** Enough units for their fractions to exceed a second's production, for which there is room. */
  lemma EnoughUnits(rate: int, r: int, room: int) returns (units: nat)
    requires rate > 0 && r > 0 && room * r > rate
    ensures 1 <= units <= room && r * units > rate
  {
    Quotient(rate, r);
    Fewer(r, room, rate / r, rate);
    assert r * (rate / r + 1) == r * (rate / r) + r;
    if rate / r < 0 {
      Scale(r, rate / r + 1, 0);
    }
    units := rate / r + 1;
  }

  lemma Fewer(r: int, room: int, quotient: int, rate: int)
    requires r > 0 && room * r > rate && r * quotient <= rate
    ensures quotient < room
  {
    if room <= quotient {
      Scale(r, room, quotient);
    }
  }

  lemma NoneCharged(a: int, b: int)
    requires 0 <= a < b
    ensures a / b == 0
  {
  }

  /** Where a second makes more than one unit, but not whole ones, the clock is charged nothing for them. */
  lemma Free(s: Stock)
    requires Running(s) && s.Rate() >= DAY && s.Rate() % DAY != 0 && s.Rate() / DAY < s.Max() - s.quantity
    ensures Polled(s, s.clock + 1) == s.(quantity := s.quantity + s.Rate() / DAY) && Owed(s, s.clock + 1) == s.Rate() / DAY >= 1
  {
    var rate := s.Rate();
    var gain := rate / DAY;
    assert gain >= 1 && gain * DAY < rate;
    NoneCharged(gain * DAY, rate);
    assert Owed(s, s.clock + 1) == gain;
    hide Owed;
  }

  lemma SomethingGained(s: Stock, now: int)
    requires Running(s) && now > s.clock && s.quantity < s.Max() && Owed(s, now) >= 1
    ensures Polled(s, now).quantity > s.quantity
  {
    hide Owed;
  }

  lemma RoomForASecond(s: Stock)
    requires s.prod > 0 && !NoFractions(s) && s.Rate() >= DAY
    ensures s.Rate() % DAY != 0 && s.Rate() / DAY < s.Max() - s.quantity
  {
    RoomForFractions(s);
    assert Uncharged(s) == DAY by {
      NoneCharged(DAY, s.Rate());
    }
  }

  lemma SameOwed(s: Stock, t: Stock, now: int)
    requires t.prod == s.prod && t.clock == s.clock
    ensures Owed(t, now) == Owed(s, now)
  {
  }

  lemma TwiceInASecond(s: Stock) returns (polls: seq<int>)
    requires Running(s) && !NoFractions(s) && s.Rate() >= DAY
    ensures (forall i :: 0 <= i < |polls| ==> polls[i] <= s.clock + 1) && Schedule(s, polls).quantity > s.quantity + Owed(s, s.clock + 1)
  {
    RoomForASecond(s);
    Free(s);
    hide NoFractions, Polled, Owed, Schedule;
    var now := s.clock + 1;
    var t := Polled(s, now);
    SameOwed(s, t, now);
    SomethingGained(t, now);
    NoPolls(s);
    Appended(s, [], now);
    assert [] + [now] == [now];
    Appended(s, [now], now);
    polls := [now] + [now];
  }

  /** A port of the highest rate there is, sold out and then polled five times in eight minutes: four units made, five credited. */
  lemma PollsAreGenerous()
    ensures var s := Stock(449, 0, 1);
            Running(s) && !NoFractions(s) && Owed(s, 482) == 4 && Schedule(s, [98, 194, 290, 386, 482]) == Stock(449, 5, 481)
  {
    var s := Stock(449, 0, 1);
    Climbed(s, 5);
    assert DAY / s.Rate() == 96;
    assert Rung(1, 96, 0) == 1 && Rung(1, 96, 1) == 97 && Rung(1, 96, 2) == 193 && Rung(1, 96, 3) == 289 && Rung(1, 96, 4) == 385;
    assert Ladder(1, 96, 2) == [98, 194] && Ladder(1, 96, 4) == [98, 194, 290, 386];
    assert Ladder(1, 96, 5) == [98, 194, 290, 386, 482];
  }

  // ----- Prices

  /** How empty the stock is, from 0 (ten days' production or more) to 1 (none). */
  function Depletion(prod: int, quantity: nat): (d: real)
    ensures 0.0 <= d <= 1.0
    ensures prod <= 0 || quantity >= 10 * prod ==> d == 0.0
    ensures prod > 0 && quantity == 0 ==> d == 1.0
  {
    var max := 10 * prod;
    if max <= 0 || quantity >= max then 0.0
    else
      Fraction(max - quantity, max);
      (max - quantity) as real / max as real
  }

  lemma Fraction(a: int, b: int)
    requires 0 <= a <= b && b > 0
    ensures 0.0 <= a as real / b as real <= 1.0
    ensures a == b ==> a as real / b as real == 1.0
  {
  }

  lemma FractionMonotone(a: int, c: int, b: int)
    requires 0 <= a <= c && b > 0
    ensures a as real / b as real <= c as real / b as real
  {
  }

  lemma DepletionFalls(prod: int, quantity: nat, more: nat)
    requires quantity <= more
    ensures Depletion(prod, more) <= Depletion(prod, quantity)
  {
    if prod > 0 && more < 10 * prod {
      FractionMonotone(10 * prod - more, 10 * prod - quantity, 10 * prod);
    }
  }

  function EffectiveSell(price: real, prod: int, quantity: nat): real {
    price * (1.0 + 0.05 * Depletion(prod, quantity))
  }

  function EffectiveBuy(price: real, prod: int, quantity: nat): real {
    price * (1.0 - 0.05 * Depletion(prod, quantity))
  }

  lemma RealTimes(a: real, b: real, c: real)
    requires 0.0 <= a && b <= c
    ensures a * b <= a * c
  {
  }

  /** The emptier the stock, the more is charged for it and the less is paid for it, and never by more than a twentieth. */
  lemma ScarcityPrices(price: real, prod: int, quantity: nat, more: nat)
    requires price >= 0.0 && quantity <= more
    ensures price <= EffectiveSell(price, prod, more) <= EffectiveSell(price, prod, quantity) <= price * 1.05
    ensures price * 0.95 <= EffectiveBuy(price, prod, quantity) <= EffectiveBuy(price, prod, more) <= price
  {
    DepletionFalls(prod, quantity, more);
    var low, high := Depletion(prod, more), Depletion(prod, quantity);
    hide Depletion;
    RealTimes(price, 1.0, 1.0 + 0.05 * low);
    RealTimes(price, 1.0 + 0.05 * low, 1.0 + 0.05 * high);
    RealTimes(price, 1.0 + 0.05 * high, 1.05);
    RealTimes(price, 0.95, 1.0 - 0.05 * high);
    RealTimes(price, 1.0 - 0.05 * high, 1.0 - 0.05 * low);
    RealTimes(price, 1.0 - 0.05 * low, 1.0);
  }

  /** An empty stock of a producer moves its prices by the whole twentieth; a full one, and one that produces nothing, not at all. */
  lemma PricesAtTheEnds(price: real, prod: int, quantity: nat)
    ensures prod > 0 ==> EffectiveSell(price, prod, 0) == price * 1.05 && EffectiveBuy(price, prod, 0) == price * 0.95
    ensures prod <= 0 || quantity >= 10 * prod ==> EffectiveSell(price, prod, quantity) == EffectiveBuy(price, prod, quantity) == price
  {
  }

  /** Between an empty stock and a full one, each unit moves the price by the same. */
  lemma EvenSteps(price: real, prod: int, quantity: nat)
    requires quantity < 10 * prod
    ensures 10.0 * prod as real * (EffectiveSell(price, prod, quantity) - EffectiveSell(price, prod, quantity + 1)) == 0.05 * price
    ensures EffectiveSell(price, prod, quantity) - price == price - EffectiveBuy(price, prod, quantity)
  {
    var max := (10 * prod) as real;
    var a, b := Depletion(prod, quantity), Depletion(prod, quantity + 1);
    assert a * max == (10 * prod - quantity) as real && b * max == (10 * prod - quantity - 1) as real;
    assert max * (a - b) == 1.0;
    Distributed(price, max, a, b);
  }

  lemma Distributed(price: real, max: real, a: real, b: real)
    requires max * (a - b) == 1.0
    ensures max * (price * (1.0 + 0.05 * a) - price * (1.0 + 0.05 * b)) == 0.05 * price
  {
    assert price * (1.0 + 0.05 * a) - price * (1.0 + 0.05 * b) == price * 0.05 * (a - b);
    assert max * (price * 0.05 * (a - b)) == price * 0.05 * (max * (a - b));
  }

  /** The price of a whole lot, in credits, the fraction dropped. */
  function LotPrice(unit: real, quantity: nat): (r: nat)
    requires unit >= 0.0
    ensures r as real <= unit * quantity as real < r as real + 1.0
  {
    RealTimes(unit, 0.0, quantity as real);
    (unit * quantity as real).Floor
  }
}
