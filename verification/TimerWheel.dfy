/** The timeouts of socket.c on a wheel of ticks and one of minutes, what the handlers of WebSocketContext.h make of
  * them, and the idle timeout of WebSocketContextData.h. */
module TimerWheel {
  import opened Bytes

  /** Ticks of four seconds are counted modulo 240, and so are minutes; 255 is never. */
  const WHEEL: nat := 240
  const NEVER: nat := 255
  const TICKS_PER_MINUTE: nat := 15

  // ---------- When a timeout is due ----------

  /** The first tick not before `from` that shows `v` on the wheel. */
  function First(from: nat, v: nat): (t: nat)
    requires v < WHEEL
    ensures from <= t < from + WHEEL && t % WHEEL == v
    ensures forall u | from <= u < t :: u % WHEEL != v
  {
    FirstTick(from, v, (v + WHEEL - from % WHEEL) % WHEEL);
    from + (v + WHEEL - from % WHEEL) % WHEEL
  }

  lemma FirstTick(from: nat, v: nat, d: nat)
    requires v < WHEEL && d == (v + WHEEL - from % WHEEL) % WHEEL
    ensures d < WHEEL && (from + d) % WHEEL == v && forall u | from <= u < from + d :: u % WHEEL != v
  {
    var q, r := from / WHEEL, from % WHEEL;
    assert from == WHEEL * q + r;
    if v >= r {
      assert d == v - r && from + d == WHEEL * q + v;
    } else {
      assert d == v + WHEEL - r && from + d == WHEEL * (q + 1) + v;
    }
    forall u | from <= u < from + d ensures u % WHEEL != v {
      NotYet(from, q, r, v, d, u);
    }
  }

  lemma NotYet(from: nat, q: nat, r: nat, v: nat, d: nat, u: nat)
    requires from == WHEEL * q + r && r < WHEEL && v < WHEEL && from <= u < from + d
    requires d == if v >= r then v - r else v + WHEEL - r
    ensures u % WHEEL != v
  {
    if u < WHEEL * (q + 1) {
      assert u % WHEEL == u - WHEEL * q;
    } else {
      assert u % WHEEL == u - WHEEL * (q + 1);
    }
  }

  /** The tick at which a socket's timeout fires, if it is let be. */
  function Due(tick: nat, v: nat): Option<nat>
  {
    if v < WHEEL then Some(First(tick + 1, v)) else None
  }

  /** The same for minutes. */
  function DueLong(tick: nat, v: nat): Option<nat>
  {
    if v >= WHEEL then None
    else if ((tick + 1) / TICKS_PER_MINUTE) % WHEEL == v then Some(tick + 1)
    else Some(TICKS_PER_MINUTE * First((tick + 1) / TICKS_PER_MINUTE, v))
  }

  /** A sweep meets a timeout exactly when it is due, and otherwise leaves it due when it was. */
  lemma SweepMeets(tick: nat, v: nat)
    ensures var d := Due(tick, v);
            && ((tick + 1) % WHEEL == v <==> d == Some(tick + 1))
            && (d != Some(tick + 1) ==> Due(tick + 1, v) == d)
  {
    if v < WHEEL && (tick + 1) % WHEEL != v {
      FirstLater(tick + 1, v);
    }
  }

  lemma SameOnWheel(a: nat, b: nat)
    requires a <= b < a + WHEEL && a % WHEEL == b % WHEEL
    ensures a == b
  {
  }

  lemma FirstIs(from: nat, v: nat, t: nat)
    requires v < WHEEL && from <= t < from + WHEEL && t % WHEEL == v
    ensures First(from, v) == t
  {
    hide First;
    SameOnWheel(Min(t, First(from, v)), t + First(from, v) - Min(t, First(from, v)));
  }

  lemma FirstLater(from: nat, v: nat)
    requires v < WHEEL && from % WHEEL != v
    ensures First(from + 1, v) == First(from, v)
  {
    hide First;
    assert First(from, v) != from;
    FirstIs(from + 1, v, First(from, v));
  }

  lemma SweepMeetsLong(tick: nat, v: nat)
    ensures var d := DueLong(tick, v);
            && (((tick + 1) / TICKS_PER_MINUTE) % WHEEL == v && v < WHEEL <==> d == Some(tick + 1))
            && (d != Some(tick + 1) ==> DueLong(tick + 1, v) == d)
  {
    hide First;
    var m, n := (tick + 1) / TICKS_PER_MINUTE, (tick + 2) / TICKS_PER_MINUTE;
    if v < WHEEL && m % WHEEL != v {
      FirstLater(m, v);
      assert First(m, v) > m;
      NextMinute(tick);
      if n == m + 1 && n % WHEEL == v {
        assert First(n, v) == n;
      }
    }
  }

  lemma NextMinute(tick: nat)
    ensures var m, n := (tick + 1) / TICKS_PER_MINUTE, (tick + 2) / TICKS_PER_MINUTE;
            && (n == m || n == m + 1) && (n == m + 1 ==> tick + 2 == TICKS_PER_MINUTE * n)
            && TICKS_PER_MINUTE * m <= tick + 1 < TICKS_PER_MINUTE * (m + 1)
  {
  }

  /** `us_socket_timeout` counts ticks, rounded up. */
  function Ticks(seconds: nat): nat { (seconds + 3) / 4 }

  function ShortValue(tick: nat, seconds: nat): nat
  {
    if seconds == 0 then NEVER else (tick % WHEEL + Ticks(seconds)) % WHEEL
  }

  function LongValue(tick: nat, minutes: nat): nat
  {
    if minutes == 0 then NEVER else ((tick / TICKS_PER_MINUTE) % WHEEL + minutes) % WHEEL
  }

  /** A timeout fires at the sweep it is set for exactly when the wheel does not turn full circle before; else
    * earlier. */
  lemma DueAtIff(tick: nat, seconds: nat)
    requires seconds > 0
    ensures var d := Due(tick, ShortValue(tick, seconds));
            d.Some? && tick < d.value <= tick + Min(WHEEL, Ticks(seconds))
              && (d.value == tick + Ticks(seconds) <==> Ticks(seconds) <= WHEEL)
  {
    hide First;
    var n, v := Ticks(seconds), ShortValue(tick, seconds);
    WheelSum(tick, n);
    if n <= WHEEL {
      FirstIs(tick + 1, v, tick + n);
    }
  }

  lemma WheelSum(tick: nat, n: nat)
    ensures (tick % WHEEL + n) % WHEEL == (tick + n) % WHEEL
  {
    var q := tick / WHEEL;
    assert tick + n == WHEEL * q + (tick % WHEEL + n);
    WheelTurns(tick % WHEEL + n, q);
  }

  lemma {:induction false} WheelTurns(x: nat, q: nat)
    ensures (WHEEL * q + x) % WHEEL == x % WHEEL
  {
    if q > 0 {
      WheelTurns(x, q - 1);
      assert WHEEL * q + x == (WHEEL * (q - 1) + x) + WHEEL;
    }
  }

  /** A long timeout fires in the minute it is set for. */
  lemma DueLongWithin(tick: nat, minutes: nat)
    requires 1 <= minutes < WHEEL
    ensures var d := DueLong(tick, LongValue(tick, minutes));
            && d == Some(TICKS_PER_MINUTE * (tick / TICKS_PER_MINUTE + minutes))
            && tick + TICKS_PER_MINUTE * (minutes - 1) + 1 <= d.value <= tick + TICKS_PER_MINUTE * minutes
  {
    hide First;
    var m := tick / TICKS_PER_MINUTE;
    WheelSum(m, minutes);
    var n := (tick + 1) / TICKS_PER_MINUTE;
    assert n == m || n == m + 1;
    FirstIs(n, LongValue(tick, minutes), m + minutes);
    if n % WHEEL == LongValue(tick, minutes) {
      SameOnWheel(n, m + minutes);
      assert tick + 1 == TICKS_PER_MINUTE * n;
    }
  }

  /** And exactly then if it is less than four hours; four hours are told from none only in the last tick of a
    * minute. */
  lemma DueLongIff(tick: nat, minutes: nat)
    requires minutes > 0
    ensures DueLong(tick, LongValue(tick, minutes)) == Some(TICKS_PER_MINUTE * (tick / TICKS_PER_MINUTE + minutes)) <==>
            minutes < WHEEL || (minutes == WHEEL && tick % TICKS_PER_MINUTE == TICKS_PER_MINUTE - 1)
    ensures DueLong(tick, LongValue(tick, minutes)).Some?
  {
    hide First;
    var m, n := tick / TICKS_PER_MINUTE, (tick + 1) / TICKS_PER_MINUTE;
    assert n == if tick % TICKS_PER_MINUTE == TICKS_PER_MINUTE - 1 then m + 1 else m;
    WheelSum(m, minutes);
    if minutes < WHEEL {
      DueLongWithin(tick, minutes);
    } else if minutes == WHEEL && n == m + 1 {
      FirstIs(n, LongValue(tick, minutes), m + WHEEL);
      assert n % WHEEL != m % WHEEL;
    } else if minutes == WHEEL {
      assert LongValue(tick, minutes) == n % WHEEL;
    }
  }

  // ---------- Idle timeouts ----------

  /** `calculateIdleTimeoutComponents`: the time to be idle, and the time to answer a ping. */
  method IdleTimeoutComponents(idle: nat, pings: bool) returns (first: nat, second: nat)
    requires idle < 0x10000
    ensures (first, second) == Components(idle, pings)
  {
    var margin := 4;
    if idle == 0 {
      return 0, margin;
    }
    while idle >= margin * 2 + margin * 2 && margin < 16
      invariant margin in {4, 8, 16} && (margin > 4 ==> idle >= 2 * margin)
      decreases 16 - margin
    {
      margin := margin * 2;
    }
    first, second := (idle + 0x10000 - (if pings then margin else 0)) % 0x10000, margin;
  }

  function Margin(idle: nat): nat { if idle < 16 then 4 else if idle < 32 then 8 else 16 }

  function Components(idle: nat, pings: bool): (nat, nat)
  {
    if idle == 0 then (0, 4)
    else (if !pings then idle else if idle < 4 then 0x10000 + idle - 4 else idle - Margin(idle), Margin(idle))
  }

  /** A WebSocket among the sockets. */
  datatype Idle = Idle(first: nat, second: nat, pings: bool, timedOut: bool, shuttingDown: bool)

  /** The timeouts of a socket, and what kind of socket it is. */
  datatype Sock = Sock(timeout: nat, longTimeout: nat, idle: Option<Idle>)

  predicate IsShort(v: Sock, tick: nat) { v.timeout == tick % WHEEL }

  predicate IsLong(v: Sock, tick: nat) { v.longTimeout == (tick / TICKS_PER_MINUTE) % WHEEL }

  /** `on_timeout`: a WebSocket is pinged once, and then closed. */
  function TimedOut(v: Sock, tick: nat): Option<Sock>
  {
    if v.idle == None then Some(v) else
      var i := v.idle.value;
      if i.pings && !i.shuttingDown && !i.timedOut then Some(Pinged(v, tick)) else None
  }

  function Pinged(v: Sock, tick: nat): Sock
    requires v.idle.Some?
  {
    v.(timeout := ShortValue(tick, v.idle.value.second), idle := Some(v.idle.value.(timedOut := true)))
  }

  /** `on_long_timeout`: a WebSocket is asked to reconnect, and given as long as for a ping. */
  function EndOf(v: Sock, tick: nat): Sock
  {
    if v.idle == None || v.idle.value.shuttingDown then v
    else v.(timeout := ShortValue(tick, v.idle.value.second), idle := Some(v.idle.value.(shuttingDown := true)))
  }

  /** A timeout is cleared, and its handler called. */
  function ShortReact(v: Sock, tick: nat): Option<Sock>
  {
    if IsShort(v, tick) then TimedOut(v.(timeout := NEVER), tick) else Some(v)
  }

  function LongReact(v: Sock, tick: nat): Sock
  {
    if IsLong(v, tick) then EndOf(v.(longTimeout := NEVER), tick) else v
  }

  /** What a sweep makes of a socket; it may be closed. */
  function React(v: Sock, tick: nat): Option<Sock>
  {
    match ShortReact(v, tick)
    case None => None
    case Some(w) => Some(LongReact(w, tick))
  }

  /** Whether a handler is called. */
  predicate Rings(v: Sock, tick: nat, long: bool)
  {
    if long then ShortReact(v, tick).Some? && IsLong(ShortReact(v, tick).value, tick) else IsShort(v, tick)
  }

  /** What becomes of a socket nobody touches in a number of sweeps. */
  function StateAt(v: Sock, tick: nat, n: nat): Option<Sock>
  {
    if n == 0 then Some(v) else
      match StateAt(v, tick, n - 1)
      case None => None
      case Some(w) => React(w, tick + n)
  }

  predicate RingsAt(v: Sock, tick: nat, k: nat, long: bool)
    requires k > 0
  {
    match StateAt(v, tick, k - 1)
    case None => false
    case Some(w) => Rings(w, tick + k, long)
  }

  /** A timeout is gone once it was due. */
  function Left(due: Option<nat>, v: nat, now: nat): nat
  {
    if due.Some? && due.value <= now then NEVER else v
  }

  /** The timeouts of a socket that is no WebSocket ring at the sweeps they are due at, at no others, and are
    * cleared. */
  lemma {:induction false} Punctual(v: Sock, tick: nat, n: nat)
    requires v.idle == None
    ensures var short, long := Due(tick, v.timeout), DueLong(tick, v.longTimeout);
            && StateAt(v, tick, n) == Some(Sock(Left(short, v.timeout, tick + n),
              Left(long, v.longTimeout, tick + n), None))
            && (n > 0 ==> (RingsAt(v, tick, n, false) <==> short == Some(tick + n)))
            && (n > 0 ==> (RingsAt(v, tick, n, true) <==> long == Some(tick + n)))
  {
    hide Due, DueLong;
    DueLater(tick, v.timeout, n);
    DueLongLater(tick, v.longTimeout, n);
    if n > 0 {
      Punctual(v, tick, n - 1);
      DueLater(tick, v.timeout, n - 1);
      DueLongLater(tick, v.longTimeout, n - 1);
      SweepMeets(tick + n - 1, v.timeout);
      SweepMeetsLong(tick + n - 1, v.longTimeout);
      NeverNow(tick + n);
    }
  }

  lemma NeverNow(tick: nat)
    ensures NEVER != tick % WHEEL && NEVER != (tick / TICKS_PER_MINUTE) % WHEEL
  {
  }

  /** A timeout stays due when it is, until then, and is never due in the past. */
  lemma {:induction false} DueLater(tick: nat, v: nat, n: nat)
    ensures var d := Due(tick, v);
            && (d.Some? ==> d.value > tick) && ((d.Some? && d.value <= tick + n) || Due(tick + n, v) == d)
  {
    if n > 0 {
      DueLater(tick, v, n - 1);
      SweepMeets(tick + n - 1, v);
    }
  }

  lemma {:induction false} DueLongLater(tick: nat, v: nat, n: nat)
    ensures var d := DueLong(tick, v);
            && (d.Some? ==> d.value > tick) && ((d.Some? && d.value <= tick + n) || DueLong(tick + n, v) == d)
  {
    LongIsLater(tick, v);
    if n > 0 {
      DueLongLater(tick, v, n - 1);
      SweepMeetsLong(tick + n - 1, v);
    }
  }

  lemma LongIsLater(tick: nat, v: nat)
    ensures DueLong(tick, v).Some? ==> DueLong(tick, v).value > tick
  {
    hide First;
    var n := (tick + 1) / TICKS_PER_MINUTE;
    assert v < WHEEL && n % WHEEL != v ==> First(n, v) != n;
  }

  /** A timeout set to a number of seconds rings at exactly the sweep they are rounded up to if and only if the wheel
    * does not turn full circle before. */
  lemma RingsWhenSetIff(v: Sock, tick: nat, seconds: nat)
    requires v.idle == None && v.timeout == ShortValue(tick, seconds) && seconds > 0
    ensures (forall k: nat | k > 0 :: RingsAt(v, tick, k, false) <==> k == Ticks(seconds)) <==> Ticks(seconds) <= WHEEL
  {
    hide StateAt, RingsAt, Due, ShortValue;
    DueAtIff(tick, seconds);
    forall k: nat | k > 0 ensures RingsAt(v, tick, k, false) <==> Due(tick, v.timeout) == Some(tick + k) {
      Punctual(v, tick, k);
    }
    var d := Due(tick, v.timeout).value - tick;
    assert RingsAt(v, tick, d, false);
  }

  /** The same for minutes. */
  lemma RingsWhenSetLongIff(v: Sock, tick: nat, minutes: nat)
    requires v.idle == None && v.longTimeout == LongValue(tick, minutes) && minutes > 0
    ensures (forall k: nat | k > 0 ::
               RingsAt(v, tick, k, true) <==> tick + k == TICKS_PER_MINUTE * (tick / TICKS_PER_MINUTE + minutes))
            <==> minutes < WHEEL || (minutes == WHEEL && tick % TICKS_PER_MINUTE == TICKS_PER_MINUTE - 1)
  {
    hide StateAt, RingsAt, DueLong, LongValue;
    DueLongIff(tick, minutes);
    LongIsLater(tick, v.longTimeout);
    forall k: nat | k > 0 ensures RingsAt(v, tick, k, true) <==> DueLong(tick, v.longTimeout) == Some(tick + k) {
      Punctual(v, tick, k);
    }
    var d := DueLong(tick, v.longTimeout).value - tick;
    assert RingsAt(v, tick, d, true);
  }

  lemma {:induction false} StateSplit(v: Sock, tick: nat, a: nat, b: nat)
    requires StateAt(v, tick, a).Some?
    ensures StateAt(v, tick, a + b) == StateAt(StateAt(v, tick, a).value, tick + a, b)
  {
    hide React;
    if b > 0 {
      StateSplit(v, tick, a, b - 1);
    }
  }

  /** A WebSocket that is not to be pinged any more. */
  predicate LastChance(v: Sock)
  {
    v.longTimeout >= WHEEL && v.idle.Some?
      && (!v.idle.value.pings || v.idle.value.timedOut || v.idle.value.shuttingDown)
  }

  /** It is closed at the sweep its timeout is due at. */
  lemma {:induction false} ClosesWhenDue(v: Sock, tick: nat, n: nat)
    requires LastChance(v)
    ensures var d := Due(tick, v.timeout);
              StateAt(v, tick, n) == if d.Some? && d.value <= tick + n then None else Some(v)
  {
    hide Due, ShortValue;
    DueLater(tick, v.timeout, n);
    if n > 0 {
      ClosesWhenDue(v, tick, n - 1);
      DueLater(tick, v.timeout, n - 1);
      SweepMeets(tick + n - 1, v.timeout);
      NoMinute(v.longTimeout, tick + n);
    }
  }

  lemma NoMinute(v: nat, tick: nat)
    requires v >= WHEEL
    ensures v != (tick / TICKS_PER_MINUTE) % WHEEL
  {
  }

  /** A WebSocket that may still be pinged is pinged at the sweep its timeout is due at. */
  lemma {:induction false} PingsWhenDue(v: Sock, tick: nat, n: nat)
    requires v.longTimeout >= WHEEL && v.idle.Some? && !LastChance(v)
    ensures var d := Due(tick, v.timeout);
            && (d == None || d.value > tick + n ==> StateAt(v, tick, n) == Some(v))
            && (d == Some(tick + n) ==> StateAt(v, tick, n) == Some(Pinged(v, tick + n)))
  {
    hide Due, ShortValue;
    DueLater(tick, v.timeout, n);
    if n > 0 {
      PingsWhenDue(v, tick, n - 1);
      DueLater(tick, v.timeout, n - 1);
      SweepMeets(tick + n - 1, v.timeout);
      NoMinute(v.longTimeout, tick + n);
    }
  }

  /** A WebSocket that was just heard of. */
  function Fresh(tick: nat, idle: nat, pings: bool): Sock
  {
    var c := Components(idle, pings);
    Sock(ShortValue(tick, c.0), NEVER, Some(Idle(c.0, c.1, pings, false, false)))
  }

  /** The tick at which it is closed if it is not heard of again. */
  function CloseTick(tick: nat, idle: nat, pings: bool): Option<nat>
  {
    var c := Components(idle, pings);
    match Due(tick, ShortValue(tick, c.0))
    case None => None
    case Some(t) => if pings then Due(t, ShortValue(t, c.1)) else Some(t)
  }

  lemma ClosesAtCloseTick(tick: nat, idle: nat, pings: bool, n: nat)
    ensures var c := CloseTick(tick, idle, pings);
            StateAt(Fresh(tick, idle, pings), tick, n) == None <==> c.Some? && c.value <= tick + n
  {
    hide Due, ShortValue, Components, StateAt;
    var v, c := Fresh(tick, idle, pings), Components(idle, pings);
    if !pings {
      ClosesWhenDue(v, tick, n);
    } else {
      var d := Due(tick, v.timeout);
      DueLater(tick, v.timeout, 0);
      if d == None || d.value > tick + n {
        PingsWhenDue(v, tick, n);
        if d.Some? {
          DueLater(d.value, ShortValue(d.value, c.1), 0);
        }
      } else {
        var k := d.value - tick;
        PingsWhenDue(v, tick, k);
        var w := StateAt(v, tick, k).value;
        StateSplit(v, tick, k, n - k);
        ClosesWhenDue(w, tick + k, n - k);
      }
    }
  }

  lemma CloseTickIff(tick: nat, idle: nat, pings: bool)
    requires 0 < idle < 0x10000
    ensures CloseTick(tick, idle, pings) == Some(tick + Ticks(idle)) <==> if pings then 4 < idle <= 976 else idle <= 960
  {
    hide Due, ShortValue;
    var c := Components(idle, pings);
    if c.0 > 0 {
      DueAtIff(tick, c.0);
      DueAtIff(Due(tick, ShortValue(tick, c.0)).value, c.1);
    } else {
      NeverDue(tick);
    }
  }

  lemma NeverDue(tick: nat)
    ensures Due(tick, ShortValue(tick, 0)) == None
  {
  }

  predicate ClosedBy(v: Sock, tick: nat, n: nat) { StateAt(v, tick, n) == None }

  /** With pings or without, an idle WebSocket is closed at the sweep its idle timeout is rounded up to and at no other,
    * unless it is so short that no time is left to be idle, or so long that the wheel turns full circle. */
  lemma IdleWebSocketClosesIff(tick: nat, idle: nat, pings: bool)
    requires 0 < idle < 0x10000
    ensures (forall n: nat :: ClosedBy(Fresh(tick, idle, pings), tick, n) <==> n >= Ticks(idle))
            <==> if pings then 4 < idle <= 976 else idle <= 960
  {
    hide StateAt, Fresh, CloseTick, Ticks;
    CloseTickIff(tick, idle, pings);
    var v, c, k := Fresh(tick, idle, pings), CloseTick(tick, idle, pings), Ticks(idle);
    forall n: nat ensures ClosedBy(v, tick, n) <==> c.Some? && c.value <= tick + n {
      ClosesAtCloseTick(tick, idle, pings, n);
    }
    assert k > 0 by { TicksPositive(idle); }
    if forall n: nat :: ClosedBy(v, tick, n) <==> n >= k {
      assert ClosedBy(v, tick, k) && !ClosedBy(v, tick, k - 1);
    }
  }

  lemma TicksPositive(seconds: nat)
    ensures seconds > 0 <==> Ticks(seconds) > 0
  {
  }
}
