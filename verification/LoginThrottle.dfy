/**
 The login throttle. A request reserves a provisional failure under two keys before the password is
 checked; a success takes its reservation back.
 */
module LoginThrottle {
  import opened Options

  type Instant = int

  const WINDOW_MS := 15 * 60 * 1000

  /** A key hash is determined by what is hashed. */
  datatype Key = IdentityIp(email: string, ip: string) | Ip(ip: string)

  function Limit(key: Key): nat {
    if key.IdentityIp? then 5 else 30
  }

  datatype Record = Record(count: nat, windowStartedAt: Instant, blockedUntil: Option<Instant>)

  type Table = map<Key, Record>

  /** None when the request was refused because a key was still blocked. */
  datatype Reservation = Reservation(allowed: bool, counts: Option<(nat, nat)>)

  predicate Blocked(t: Table, key: Key, now: Instant) {
    key in t && t[key].blockedUntil.Some? && t[key].blockedUntil.value > now
  }

  predicate WindowOver(t: Table, key: Key, now: Instant) {
    key !in t || now - t[key].windowStartedAt >= WINDOW_MS
  }

  function NextCount(t: Table, key: Key, now: Instant): nat {
    if WindowOver(t, key, now) then 1 else t[key].count + 1
  }

  function Counted(t: Table, key: Key, now: Instant): Table {
    var count := NextCount(t, key, now);
    t[key := Record(count, if WindowOver(t, key, now) then now else t[key].windowStartedAt,
                    if count >= Limit(key) then Some(now + WINDOW_MS) else None)]
  }

  function Reserve(t: Table, email: string, ip: string, now: Instant): (Table, Reservation) {
    var a, b := IdentityIp(email, ip), Ip(ip);
    if Blocked(t, a, now) || Blocked(t, b, now) then (t, Reservation(false, None))
    else
      (Counted(Counted(t, a, now), b, now),
       Reservation(NextCount(t, a, now) < Limit(a) && NextCount(t, b, now) < Limit(b),
                   Some((NextCount(t, a, now), NextCount(t, b, now)))))
  }

  /** Takes back a count: all of the reservation for the identity, one attempt for the address. */
  function TakenBack(t: Table, key: Key, reserved: nat): Table {
    if key !in t then t
    else
      var taken := if key.IdentityIp? then reserved else 1;
      if t[key].count <= taken then t - {key}
      else t[key := Record(t[key].count - taken, t[key].windowStartedAt, None)]
  }

  function FinalizeSuccess(t: Table, email: string, ip: string, r: Reservation): Table {
    if r.counts.None? then t
    else TakenBack(TakenBack(t, IdentityIp(email, ip), r.counts.value.0), Ip(ip), r.counts.value.1)
  }

  class ThrottleStore {
    var t: Table

    constructor ()
      ensures t == map[]
    {
      t := map[];
    }

    /** The loop over both keys; which key comes first does not matter, since they are different rows. */
    method ReserveAttempt(email: string, ip: string, now: Instant) returns (r: Reservation)
      modifies this
      ensures (t, r) == Reserve(old(t), email, ip, now)
    {
      var keys := [IdentityIp(email, ip), Ip(ip)];
      if Blocked(t, keys[0], now) || Blocked(t, keys[1], now) {
        return Reservation(false, None);
      }
      var before := t;
      var allowed := true;
      var counts: seq<nat> := [];
      for i := 0 to 2
        invariant |counts| == i
        invariant i == 0 ==> t == before && allowed
        invariant i == 1 ==>
          && t == Counted(before, keys[0], now) && counts[0] == NextCount(before, keys[0], now)
          && (allowed <==> counts[0] < Limit(keys[0]))
        invariant i == 2 ==>
          && t == Counted(Counted(before, keys[0], now), keys[1], now)
          && counts == [NextCount(before, keys[0], now), NextCount(before, keys[1], now)]
          && (allowed <==> counts[0] < Limit(keys[0]) && counts[1] < Limit(keys[1]))
      {
        var key := keys[i];
        var expired := key !in before || now - before[key].windowStartedAt >= WINDOW_MS;
        var failureCount := if expired then 1 else before[key].count + 1;
        counts := counts + [failureCount];
        var reachedLimit := failureCount >= Limit(key);
        if reachedLimit { allowed := false; }
        t := t[key := Record(failureCount, if expired then now else before[key].windowStartedAt,
                             if reachedLimit then Some(now + WINDOW_MS) else None)];
      }
      return Reservation(allowed, Some((counts[0], counts[1])));
    }

    method Finalize(email: string, ip: string, r: Reservation)
      modifies this
      ensures t == FinalizeSuccess(old(t), email, ip, r)
    {
      if r.counts.None? { return; }
      var keys, reserved := [IdentityIp(email, ip), Ip(ip)], [r.counts.value.0, r.counts.value.1];
      for i := 0 to 2
        invariant i == 0 ==> t == old(t)
        invariant i == 1 ==> t == TakenBack(old(t), keys[0], reserved[0])
        invariant i == 2 ==> t == TakenBack(TakenBack(old(t), keys[0], reserved[0]), keys[1], reserved[1])
      {
        var key := keys[i];
        if key in t {
          var taken := if key.IdentityIp? then reserved[i] else 1;
          if t[key].count <= taken { t := t - {key}; }
          else { t := t[key := Record(t[key].count - taken, t[key].windowStartedAt, None)]; }
        }
      }
    }
  }

  // ---------------------------------------------------------------- invariant

  /** A count stays within its limit and reaches it exactly when the key is blocked, for a full window. */
  ghost predicate RecordOk(key: Key, r: Record, now: Instant) {
    && 1 <= r.count <= Limit(key)
    && (r.count == Limit(key) <==> r.blockedUntil.Some?)
    && (r.blockedUntil.Some? ==> r.blockedUntil.value >= r.windowStartedAt + WINDOW_MS)
    && r.windowStartedAt <= now
  }

  ghost predicate TableOk(t: Table, now: Instant) {
    forall key :: key in t ==> RecordOk(key, t[key], now)
  }

  datatype Step =
    | ReserveStep(email: string, ip: string)
    | FinalizeStep(email: string, ip: string, reservation: Reservation)
    | Wait(duration: nat)

  datatype State = State(t: Table, now: Instant)

  /** Only reservations that were handed out are finalized, and those count from one. */
  predicate Allowed(step: Step) {
    step.FinalizeStep? && step.reservation.counts.Some? ==>
      step.reservation.counts.value.0 >= 1 && step.reservation.counts.value.1 >= 1
  }

  function Next(s: State, step: Step): State {
    match step
    case ReserveStep(email, ip) => s.(t := Reserve(s.t, email, ip, s.now).0)
    case FinalizeStep(email, ip, r) => s.(t := FinalizeSuccess(s.t, email, ip, r))
    case Wait(duration) => s.(now := s.now + duration)
  }

  lemma StepKeepsTable(s: State, step: Step)
    requires TableOk(s.t, s.now) && Allowed(step)
    ensures TableOk(Next(s, step).t, Next(s, step).now)
  {
  }

  // ---------------------------------------------------------------- how many attempts get through

  predicate Touches(step: Step, key: Key) {
    match step
    case ReserveStep(email, ip) => key == IdentityIp(email, ip) || key == Ip(ip)
    case FinalizeStep(email, ip, _) => key == IdentityIp(email, ip) || key == Ip(ip)
    case Wait(_) => false
  }

  /** How one step changes the number of attempts let through under a key in its current window. */
  function Advance(s: State, step: Step, key: Key, before: nat): nat {
    if !Touches(step, key) then before
    else if step.FinalizeStep? then 0
    else
      var r := Reserve(s.t, step.email, step.ip, s.now).1;
      if r.counts.None? then before
      else (if WindowOver(s.t, key, s.now) then 0 else before) + (if r.allowed then 1 else 0)
  }

  /** Attempts let through under a key since its window began or an attempt under it last succeeded. */
  function LetThrough(s: State, steps: seq<Step>, key: Key, before: nat): nat
    decreases |steps|
  {
    if steps == [] then before else LetThrough(Next(s, steps[0]), steps[1..], key, Advance(s, steps[0], key, before))
  }

  function Run(s: State, steps: seq<Step>): State
    decreases |steps|
  {
    if steps == [] then s else Run(Next(s, steps[0]), steps[1..])
  }

  /** The attempts let through never exceed the stored count, nor the limit less one. */
  ghost predicate Bounded(s: State, key: Key, n: nat) {
    n <= (if key in s.t then s.t[key].count else 0) && n <= Limit(key) - 1
  }

  lemma StepKeepsBound(s: State, step: Step, key: Key, n: nat)
    requires TableOk(s.t, s.now) && Allowed(step) && Bounded(s, key, n)
    ensures Bounded(Next(s, step), key, Advance(s, step, key, n))
  {
  }

  /**
   From an empty table, under any interleaving of reservations and successes over any keys with a forward
   clock: every stored count lies between one and its limit and equals the limit exactly when the key is
   blocked, and at most limit - 1 attempts get through in one window without a success.
   */
  lemma {:induction false} RunKeepsThrottle(s: State, steps: seq<Step>, key: Key, n: nat)
    requires TableOk(s.t, s.now) && Bounded(s, key, n)
    requires forall i :: 0 <= i < |steps| ==> Allowed(steps[i])
    ensures TableOk(Run(s, steps).t, Run(s, steps).now)
    ensures LetThrough(s, steps, key, n) <= Limit(key) - 1
    decreases |steps|
  {
    if steps != [] {
      StepKeepsTable(s, steps[0]);
      StepKeepsBound(s, steps[0], key, n);
      RunKeepsThrottle(Next(s, steps[0]), steps[1..], key, Advance(s, steps[0], key, n));
    }
  }

  lemma ThrottleFromEmpty(start: Instant, steps: seq<Step>, key: Key)
    requires forall i :: 0 <= i < |steps| ==> Allowed(steps[i])
    ensures var final := Run(State(map[], start), steps);
            && TableOk(final.t, final.now)
            && LetThrough(State(map[], start), steps, key, 0) <= Limit(key) - 1
  {
    RunKeepsThrottle(State(map[], start), steps, key, 0);
  }

  // ---------------------------------------------------------------- neither more nor less

  /** n reservations in a row for one identity and address, at one instant. */
  function ReserveTimes(t: Table, email: string, ip: string, now: Instant, n: nat): Table {
    if n == 0 then t else Reserve(ReserveTimes(t, email, ip, now, n - 1), email, ip, now).0
  }

  /** Neither key is blocked and both windows are over, or never began. */
  predicate Fresh(t: Table, email: string, ip: string, now: Instant) {
    var a, b := IdentityIp(email, ip), Ip(ip);
    WindowOver(t, a, now) && WindowOver(t, b, now) && !Blocked(t, a, now) && !Blocked(t, b, now)
  }

  /** The counters after n attempts in one new window; the identity's limit is the lower one and stops both. */
  function AfterAttempts(t: Table, email: string, ip: string, now: Instant, n: nat): Table {
    var a := IdentityIp(email, ip);
    var counted := if n < Limit(a) then n else Limit(a);
    if n == 0 then t
    else t[a := Record(counted, now, if n >= Limit(a) then Some(now + WINDOW_MS) else None)]
          [Ip(ip) := Record(counted, now, None)]
  }

  lemma OneMoreAttempt(t: Table, email: string, ip: string, now: Instant, n: nat)
    requires Fresh(t, email, ip, now)
    ensures var a, before := IdentityIp(email, ip), AfterAttempts(t, email, ip, now, n);
            var (after, r) := Reserve(before, email, ip, now);
            && after == AfterAttempts(t, email, ip, now, n + 1)
            && r == Reservation(n + 1 < Limit(a), if n < Limit(a) then Some((n + 1, n + 1)) else None)
  {
  }

  /**
   In a new window exactly limit - 1 attempts of an identity get through; the attempt that reaches the limit is denied
   and blocks the identity for one window, and further ones leave no mark.
   */
  lemma {:induction false} AllowanceIsExact(t: Table, email: string, ip: string, now: Instant, n: nat)
    requires Fresh(t, email, ip, now)
    ensures ReserveTimes(t, email, ip, now, n) == AfterAttempts(t, email, ip, now, n)
    ensures Reserve(ReserveTimes(t, email, ip, now, n), email, ip, now).1.allowed <==> n + 1 < Limit(IdentityIp(email, ip))
  {
    if n > 0 {
      AllowanceIsExact(t, email, ip, now, n - 1);
      OneMoreAttempt(t, email, ip, now, n - 1);
    }
    OneMoreAttempt(t, email, ip, now, n);
  }

  /** When a block has run out, so has the window it came from: the next attempt counts from one again. */
  lemma BlockEndsWithItsWindow(t: Table, key: Key, now: Instant, later: Instant)
    requires TableOk(t, now) && key in t && t[key].blockedUntil.Some?
    ensures Blocked(t, key, later) <==> later < t[key].blockedUntil.value
    ensures !Blocked(t, key, later) ==> WindowOver(t, key, later) && NextCount(t, key, later) == 1
  {
  }

  /** A success right after its reservation clears the identity and leaves the address as it was before. */
  lemma SuccessTakesItsAttemptBack(t: Table, email: string, ip: string, now: Instant)
    requires TableOk(t, now) && Reserve(t, email, ip, now).1.counts.Some?
    ensures var (reserved, r) := Reserve(t, email, ip, now);
            var after, a, b := FinalizeSuccess(reserved, email, ip, r), IdentityIp(email, ip), Ip(ip);
            && a !in after
            && (if WindowOver(t, b, now) then b !in after
                else b in after && after[b] == Record(t[b].count, t[b].windowStartedAt, None))
            && (forall key :: key != a && key != b ==>
                  (key in after <==> key in t) && (key in t ==> after[key] == t[key]))
  {
  }

  /** Attempts of the identity reserved in the same window before a success is finalized stay counted. */
  lemma LaterAttemptsStayCounted(t: Table, email: string, ip: string, now: Instant, first: nat, later: nat)
    requires Fresh(t, email, ip, now) && 1 <= first && first + later < Limit(IdentityIp(email, ip))
    ensures var a := IdentityIp(email, ip);
            var r := Reserve(ReserveTimes(t, email, ip, now, first - 1), email, ip, now).1;
            var after := FinalizeSuccess(ReserveTimes(t, email, ip, now, first + later), email, ip, r);
            r.allowed && if later == 0 then a !in after else a in after && after[a].count == later
  {
    NthReservation(t, email, ip, now, first);
    CountAfterAttempts(t, email, ip, now, first + later);
    AttemptTakenBack(ReserveTimes(t, email, ip, now, first + later), email, ip, first);
  }

  lemma NthReservation(t: Table, email: string, ip: string, now: Instant, n: nat)
    requires Fresh(t, email, ip, now) && 1 <= n < Limit(IdentityIp(email, ip))
    ensures Reserve(ReserveTimes(t, email, ip, now, n - 1), email, ip, now).1 == Reservation(true, Some((n, n)))
  {
    AllowanceIsExact(t, email, ip, now, n - 1);
    OneMoreAttempt(t, email, ip, now, n - 1);
  }

  lemma CountAfterAttempts(t: Table, email: string, ip: string, now: Instant, n: nat)
    requires Fresh(t, email, ip, now) && 1 <= n < Limit(IdentityIp(email, ip))
    ensures var a, after := IdentityIp(email, ip), ReserveTimes(t, email, ip, now, n);
            a in after && after[a].count == n
  {
    AllowanceIsExact(t, email, ip, now, n);
  }

  lemma AttemptTakenBack(t: Table, email: string, ip: string, reserved: nat)
    requires IdentityIp(email, ip) in t && reserved <= t[IdentityIp(email, ip)].count
    ensures var a := IdentityIp(email, ip);
            var after := FinalizeSuccess(t, email, ip, Reservation(true, Some((reserved, reserved))));
            if t[a].count == reserved then a !in after else a in after && after[a].count == t[a].count - reserved
  {
  }
}
