/**
 * The client-side rate limiter of the storefront: a keyed attempt counter with a
 * fixed window and a lockout, whose one record lives in the browser's key-value
 * storage under the limiter's key.
 *
 * The storage is abstracted to the record that `getRecord` would return for the
 * key: `None` when nothing is stored or when the stored text is not a readable
 * record (the read fails open), `Some(r)` otherwise. The clock is the `now`
 * parameter (epoch milliseconds) of each operation.
 */
module RateLimit {
  import opened Wrappers
  import opened Text

  /** The parsed record: attempts in the current window, its start, an optional lockout end. */
  datatype AttemptRecord = AttemptRecord(count: int, firstAttempt: int, blockedUntil: Option<int>)

  /** The answer of `canAttempt`: `{allowed: true, remainingAttempts}` or `{allowed: false, retryAfter}`. */
  datatype Verdict = Allowed(remainingAttempts: int) | Refused(retryAfter: int)

  /** Configuration fixed at construction. */
  datatype Config = Config(maxAttempts: int, windowMs: int, storageKey: string)

  /** What one `canAttempt` call answers and what it leaves in storage. */
  datatype Step = Step(verdict: Verdict, stored: Option<AttemptRecord>)

  const HOUR_MS: int := 60 * 60 * 1000

  /** The order-submission limiter: 3 attempts per hour. */
  const PEDIDOS: Config := Config(3, HOUR_MS, "rate_limit_pedidos")

  /** The contact-message limiter: 5 attempts per hour. */
  const CONTACTO: Config := Config(5, HOUR_MS, "rate_limit_contacto")

  /** `Math.ceil(x / d)` for an integer `x` and a positive integer `d`. */
  function CeilDiv(x: int, d: int): (q: int)
    requires d > 0
    ensures (q - 1) * d < x <= q * d
  {
    -((-x) / d)
  }

  /** `if (record.blockedUntil)`: a missing field and the value 0 are both falsy. */
  predicate HasBlock(r: AttemptRecord) {
    r.blockedUntil.Some? && r.blockedUntil.value != 0
  }

  /** The counting window has run out: strictly more than `windowMs` since the first attempt. */
  predicate WindowExpired(cfg: Config, r: AttemptRecord, now: int) {
    now - r.firstAttempt > cfg.windowMs
  }

  /** The conditions under which `canAttempt` lets the caller proceed. */
  predicate AllowedAt(cfg: Config, stored: Option<AttemptRecord>, now: int) {
    match stored
    case None => true
    case Some(r) =>
      if HasBlock(r) then now >= r.blockedUntil.value
      else WindowExpired(cfg, r, now) || r.count < cfg.maxAttempts
  }

  /** `canAttempt` as a transition of the stored record. */
  function CheckAttempt(cfg: Config, stored: Option<AttemptRecord>, now: int): (s: Step)
    ensures s.verdict.Allowed? <==> AllowedAt(cfg, stored, now)
    // the only writes: a deletion on the way to "allowed", a lockout on the way to "refused"
    ensures s.stored == stored
         || (s.verdict.Allowed? && s.stored.None?)
         || (s.verdict.Refused? && stored.Some?
             && s.stored == Some(stored.value.(blockedUntil := Some(now + cfg.windowMs))))
    // an allowed call after a deletion grants the full allowance minus the attempt about to be made
    ensures s.verdict.Allowed? && s.stored.None? ==> s.verdict.remainingAttempts == cfg.maxAttempts - 1
    ensures s.verdict.Refused? && cfg.windowMs > 0 ==> s.verdict.retryAfter >= 1
  {
    match stored
    case None => Step(Allowed(cfg.maxAttempts - 1), None)
    case Some(r) =>
      if HasBlock(r) then
        if now < r.blockedUntil.value then
          Step(Refused(CeilDiv(r.blockedUntil.value - now, 1000)), stored)
        else
          Step(Allowed(cfg.maxAttempts - 1), None)
      else if WindowExpired(cfg, r, now) then
        Step(Allowed(cfg.maxAttempts - 1), None)
      else if cfg.maxAttempts - r.count <= 0 then
        Step(Refused(CeilDiv(cfg.windowMs, 1000)), Some(r.(blockedUntil := Some(now + cfg.windowMs))))
      else
        Step(Allowed(cfg.maxAttempts - r.count), stored)
  }

  /** `recordAttempt` as a transition: the record that it writes. */
  function RecordAttemptStep(cfg: Config, stored: Option<AttemptRecord>, now: int): (r: AttemptRecord)
    // a new window starts exactly when there is no record or the window has expired
    ensures (r.count == 1 && r.firstAttempt == now && r.blockedUntil.None?)
         || (stored.Some? && r == stored.value.(count := stored.value.count + 1))
    ensures stored.None? || WindowExpired(cfg, stored.value, now) ==> r == AttemptRecord(1, now, None)
    ensures stored.Some? && !WindowExpired(cfg, stored.value, now) ==>
              r.count == stored.value.count + 1 && r.firstAttempt == stored.value.firstAttempt
              && r.blockedUntil == stored.value.blockedUntil
  {
    match stored
    case None => AttemptRecord(1, now, None)
    case Some(rec) =>
      if WindowExpired(cfg, rec, now) then AttemptRecord(1, now, None)
      else rec.(count := rec.count + 1)
  }

  /** One limiter instance, holding the record stored under its key. */
  class RateLimiter {
    const config: Config
    var stored: Option<AttemptRecord>

    /** The constructor only keeps the configuration; whatever is already stored stays. */
    constructor (config: Config, stored: Option<AttemptRecord>)
      ensures this.config == config && this.stored == stored
    {
      this.config := config;
      this.stored := stored;
    }

    method CanAttempt(now: int) returns (v: Verdict)
      modifies this
      ensures CheckAttempt(config, old(stored), now) == Step(v, stored)
      ensures Consistent(config, old(stored)) ==> Consistent(config, stored)
    {
      var record := GetRecord();
      if record.None? {
        return Allowed(config.maxAttempts - 1);
      }
      var r := record.value;
      if HasBlock(r) {
        if now < r.blockedUntil.value {
          var retryAfter := CeilDiv(r.blockedUntil.value - now, 1000);
          return Refused(retryAfter);
        }
        ClearRecord();
        return Allowed(config.maxAttempts - 1);
      }
      var windowExpired := now - r.firstAttempt > config.windowMs;
      if windowExpired {
        ClearRecord();
        return Allowed(config.maxAttempts - 1);
      }
      var remainingAttempts := config.maxAttempts - r.count;
      if remainingAttempts <= 0 {
        var blockedUntil := now + config.windowMs;
        SetRecord(r.(blockedUntil := Some(blockedUntil)));
        var retryAfter := CeilDiv(config.windowMs, 1000);
        return Refused(retryAfter);
      }
      return Allowed(remainingAttempts);
    }

    method RecordAttempt(now: int)
      modifies this
      ensures stored == Some(RecordAttemptStep(config, old(stored), now))
      ensures Consistent(config, old(stored)) ==> Consistent(config, stored)
    {
      var record := GetRecord();
      if record.None? {
        SetRecord(AttemptRecord(1, now, None));
        return;
      }
      var r := record.value;
      var windowExpired := now - r.firstAttempt > config.windowMs;
      if windowExpired {
        SetRecord(AttemptRecord(1, now, None));
        return;
      }
      SetRecord(r.(count := r.count + 1));
    }

    /** Deletes the stored record; harmless when nothing is stored. */
    method ClearRecord()
      modifies this
      ensures stored == None
    {
      stored := None;
    }

    method GetRecord() returns (r: Option<AttemptRecord>)
      ensures r == stored
    {
      r := stored;
    }

    /** Replaces the stored record as a whole (no merge). */
    method SetRecord(r: AttemptRecord)
      modifies this
      ensures stored == Some(r)
    {
      stored := Some(r);
    }
  }

  // ----- one call of canAttempt, case by case -----

  lemma NoRecordAllows(cfg: Config, now: int)
    ensures CheckAttempt(cfg, None, now) == Step(Allowed(cfg.maxAttempts - 1), None)
  {
  }

  lemma ActiveLockoutRefuses(cfg: Config, r: AttemptRecord, now: int)
    requires HasBlock(r) && now < r.blockedUntil.value
    ensures var s := CheckAttempt(cfg, Some(r), now);
            s.stored == Some(r) && s.verdict.Refused?
            && (s.verdict.retryAfter - 1) * 1000 < r.blockedUntil.value - now <= s.verdict.retryAfter * 1000
            && s.verdict.retryAfter >= 1
  {
  }

  /** The lockout is checked before the window: an expired lockout clears the record. */
  lemma ExpiredLockoutResets(cfg: Config, r: AttemptRecord, now: int)
    requires HasBlock(r) && now >= r.blockedUntil.value
    ensures CheckAttempt(cfg, Some(r), now) == Step(Allowed(cfg.maxAttempts - 1), None)
  {
  }

  lemma ExpiredWindowResets(cfg: Config, r: AttemptRecord, now: int)
    requires !HasBlock(r) && WindowExpired(cfg, r, now)
    ensures CheckAttempt(cfg, Some(r), now) == Step(Allowed(cfg.maxAttempts - 1), None)
  {
  }

  lemma FullWindowLocksOut(cfg: Config, r: AttemptRecord, now: int)
    requires !HasBlock(r) && !WindowExpired(cfg, r, now) && r.count >= cfg.maxAttempts
    ensures CheckAttempt(cfg, Some(r), now)
         == Step(Refused(CeilDiv(cfg.windowMs, 1000)),
                 Some(AttemptRecord(r.count, r.firstAttempt, Some(now + cfg.windowMs))))
  {
  }

  lemma OpenWindowAllows(cfg: Config, r: AttemptRecord, now: int)
    requires !HasBlock(r) && !WindowExpired(cfg, r, now) && r.count < cfg.maxAttempts
    ensures CheckAttempt(cfg, Some(r), now) == Step(Allowed(cfg.maxAttempts - r.count), Some(r))
    ensures r.count >= 1 ==> 1 <= cfg.maxAttempts - r.count <= cfg.maxAttempts - 1
  {
  }

  /** A stored 0 is falsy, so `blockedUntil: 0` behaves exactly like no lockout at all. */
  lemma ZeroLockoutIgnored(cfg: Config, r: AttemptRecord, now: int)
    requires r.blockedUntil == Some(0)
    ensures CheckAttempt(cfg, Some(r), now).verdict == CheckAttempt(cfg, Some(r.(blockedUntil := None)), now).verdict
  {
  }

  // ----- recordAttempt -----

  /** `recordAttempt` never consults `maxAttempts`. */
  lemma RecordIgnoresLimit(cfg: Config, max: int, stored: Option<AttemptRecord>, now: int)
    ensures RecordAttemptStep(cfg, stored, now) == RecordAttemptStep(cfg.(maxAttempts := max), stored, now)
  {
  }

  /**
   * The window test of `recordAttempt` ignores `blockedUntil`: once the window of a
   * locked-out record has run out, one `recordAttempt` drops a lockout that is still
   * running, and the next `canAttempt` lets the caller through.
   */
  lemma RecordDropsActiveLockout(cfg: Config, r: AttemptRecord, now: int)
    requires HasBlock(r) && now < r.blockedUntil.value && WindowExpired(cfg, r, now)
    requires cfg.maxAttempts > 1
    ensures !AllowedAt(cfg, Some(r), now)
    ensures AllowedAt(cfg, Some(RecordAttemptStep(cfg, Some(r), now)), now)
  {
  }

  // ----- invariants kept by both operations -----

  /**
   * What the operations maintain: counts are positive, and a lockout is only ever
   * recorded on a record whose count reached `maxAttempts`.
   */
  predicate Consistent(cfg: Config, stored: Option<AttemptRecord>) {
    stored.Some? ==>
      stored.value.count >= 1
      && (stored.value.blockedUntil.Some? ==> stored.value.count >= cfg.maxAttempts)
  }

  lemma CheckAttemptKeepsConsistent(cfg: Config, stored: Option<AttemptRecord>, now: int)
    requires Consistent(cfg, stored)
    ensures Consistent(cfg, CheckAttempt(cfg, stored, now).stored)
  {
  }

  lemma RecordAttemptKeepsConsistent(cfg: Config, stored: Option<AttemptRecord>, now: int)
    requires Consistent(cfg, stored)
    ensures Consistent(cfg, Some(RecordAttemptStep(cfg, stored, now)))
  {
  }

  /**
   * On a consistent record a refusal is always earned: `maxAttempts` attempts were recorded.
   * (A lockout stored by anything else could refuse a record with fewer.)
   */
  lemma RefusedOnlyAfterLimit(cfg: Config, stored: Option<AttemptRecord>, now: int)
    requires Consistent(cfg, stored)
    requires CheckAttempt(cfg, stored, now).verdict.Refused?
    ensures stored.Some? && stored.value.count >= cfg.maxAttempts
  {
  }

  // ----- sequences of calls -----

  /** The record after `recordAttempt` at each of the instants `times`, in order. */
  function RecordAll(cfg: Config, stored: Option<AttemptRecord>, times: seq<int>): Option<AttemptRecord>
    decreases |times|
  {
    if times == [] then stored
    else RecordAll(cfg, Some(RecordAttemptStep(cfg, stored, times[0])), times[1..])
  }

  /** Attempts inside the window of the record add up and never touch its lockout field. */
  lemma {:induction false} RecordAllCounts(cfg: Config, r: AttemptRecord, times: seq<int>)
    requires forall i :: 0 <= i < |times| ==> times[i] - r.firstAttempt <= cfg.windowMs
    ensures RecordAll(cfg, Some(r), times) == Some(r.(count := r.count + |times|))
    decreases |times|
  {
    if times != [] {
      var next := r.(count := r.count + 1);
      assert RecordAttemptStep(cfg, Some(r), times[0]) == next;
      RecordAllCounts(cfg, next, times[1..]);
    }
  }

  /** A window opened by the first of `n` attempts holds all `n` when they stay inside it. */
  predicate FreshStart(cfg: Config, stored: Option<AttemptRecord>, times: seq<int>) {
    && |times| >= 1
    && (stored.None? || WindowExpired(cfg, stored.value, times[0]))
    && (forall i :: 0 <= i < |times| ==> times[i] - times[0] <= cfg.windowMs)
  }

  lemma FreshStartCounts(cfg: Config, stored: Option<AttemptRecord>, times: seq<int>)
    requires FreshStart(cfg, stored, times)
    ensures RecordAll(cfg, stored, times) == Some(AttemptRecord(|times|, times[0], None))
  {
    var first := AttemptRecord(1, times[0], None);
    assert RecordAttemptStep(cfg, stored, times[0]) == first;
    forall i | 0 <= i < |times[1..]| ensures times[1..][i] - first.firstAttempt <= cfg.windowMs {
      assert times[1..][i] == times[i + 1];
    }
    RecordAllCounts(cfg, first, times[1..]);
  }

  /**
   * `maxAttempts` calls of `recordAttempt` inside one window make the next `canAttempt`
   * in that window refuse, for `ceil(windowMs / 1000)` seconds, and start the lockout.
   */
  lemma LockoutAfterMaxAttempts(cfg: Config, stored: Option<AttemptRecord>, times: seq<int>, now: int)
    requires FreshStart(cfg, stored, times) && |times| >= cfg.maxAttempts
    requires now - times[0] <= cfg.windowMs
    ensures CheckAttempt(cfg, RecordAll(cfg, stored, times), now)
         == Step(Refused(CeilDiv(cfg.windowMs, 1000)),
                 Some(AttemptRecord(|times|, times[0], Some(now + cfg.windowMs))))
  {
    FreshStartCounts(cfg, stored, times);
  }

  /** Fewer than `maxAttempts` attempts inside one window never lock out. */
  lemma NoPrematureLockout(cfg: Config, stored: Option<AttemptRecord>, times: seq<int>, now: int)
    requires FreshStart(cfg, stored, times) && |times| < cfg.maxAttempts
    requires now - times[0] <= cfg.windowMs
    ensures CheckAttempt(cfg, RecordAll(cfg, stored, times), now)
         == Step(Allowed(cfg.maxAttempts - |times|), RecordAll(cfg, stored, times))
  {
    FreshStartCounts(cfg, stored, times);
  }

  /** One attempt, then more than a window of silence: the next check starts over. */
  lemma WindowReset(cfg: Config, stored: Option<AttemptRecord>, t0: int, now: int)
    requires stored.None? || WindowExpired(cfg, stored.value, t0)
    requires now - t0 > cfg.windowMs
    ensures CheckAttempt(cfg, Some(RecordAttemptStep(cfg, stored, t0)), now)
         == Step(Allowed(cfg.maxAttempts - 1), None)
  {
  }

  // ----- the two limiters the site runs -----

  /** Three orders within the hour close the order limiter for the rest of it: a fourth is refused for an hour. */
  lemma PedidosFourthRefused(stored: Option<AttemptRecord>, times: seq<int>, now: int)
    requires FreshStart(PEDIDOS, stored, times) && |times| == 3
    requires now - times[0] <= HOUR_MS
    ensures CheckAttempt(PEDIDOS, RecordAll(PEDIDOS, stored, times), now).verdict == Refused(3600)
  {
    LockoutAfterMaxAttempts(PEDIDOS, stored, times, now);
  }

  /** After four messages within the hour the contact limiter still allows a fifth, its last. */
  lemma ContactoFifthAllowed(stored: Option<AttemptRecord>, times: seq<int>, now: int)
    requires FreshStart(CONTACTO, stored, times) && |times| == 4
    requires now - times[0] <= HOUR_MS
    ensures CheckAttempt(CONTACTO, RecordAll(CONTACTO, stored, times), now).verdict == Allowed(1)
  {
    NoPrematureLockout(CONTACTO, stored, times, now);
  }

  /** Five messages within the hour close the contact limiter: a sixth is refused for an hour. */
  lemma ContactoSixthRefused(stored: Option<AttemptRecord>, times: seq<int>, now: int)
    requires FreshStart(CONTACTO, stored, times) && |times| == 5
    requires now - times[0] <= HOUR_MS
    ensures CheckAttempt(CONTACTO, RecordAll(CONTACTO, stored, times), now).verdict == Refused(3600)
  {
    LockoutAfterMaxAttempts(CONTACTO, stored, times, now);
  }

  // ----- the scenarios of the limiter's own test suite, on the limiter object -----

  /** Three attempts within a minute lock a 3-per-minute limiter for 60 seconds; 61 s later it is open again. */
  method ScenarioLockoutThenRelease(t: int)
  {
    var limiter := new RateLimiter(Config(3, 60000, "test_rate_limiter"), None);
    var v := limiter.CanAttempt(t);
    assert v == Allowed(2);
    limiter.RecordAttempt(t);
    limiter.RecordAttempt(t);
    limiter.RecordAttempt(t);
    v := limiter.CanAttempt(t);
    assert v == Refused(60);
    v := limiter.CanAttempt(t + 61000);
    assert v == Allowed(2);
  }

  /** Clearing after an attempt forgets it: the next check allows with two of three left. */
  method ScenarioClearThenAttempt(t: int)
  {
    var limiter := new RateLimiter(Config(3, 60000, "test_rate_limiter"), None);
    limiter.RecordAttempt(t);
    limiter.ClearRecord();
    var v := limiter.CanAttempt(t);
    assert v == Allowed(2);
  }

  // ----- the user-facing message -----

  datatype WaitUnit = Minutes | Hours

  /** The wait shown to the user: an amount of minutes or hours. */
  datatype Wait = Wait(amount: int, unit: WaitUnit)

  /**
   * The wait `formatearMensajeRateLimit` shows for `retryAfter` seconds: the time
   * rounded up to whole minutes while that is under 60, and to whole hours otherwise.
   */
  function ShownWait(retryAfter: int): (w: Wait)
    ensures w.unit == Minutes <==> CeilDiv(retryAfter, 60) < 60
    ensures w.unit == Minutes ==> (w.amount - 1) * 60 < retryAfter <= w.amount * 60
    ensures w.unit == Hours ==> w.amount >= 1 && (w.amount - 1) * 3600 < retryAfter <= w.amount * 3600
  {
    var minutos := CeilDiv(retryAfter, 60);
    if minutos < 60 then Wait(minutos, Minutes)
    else
      var horas := CeilDiv(minutos, 60);
      assert (minutos - 1) * 60 < retryAfter <= minutos * 60;
      assert (horas - 1) * 60 < minutos <= horas * 60;
      assert (horas - 1) * 3600 <= (minutos - 1) * 60;
      Wait(horas, Hours)
  }

  function UnitWord(u: WaitUnit): string {
    match u
    case Minutes => "minuto"
    case Hours => "hora"
  }

  /** "N minuto(s)" / "N hora(s)": the number, a space, the unit, and "s" when N > 1. */
  function WaitPhrase(w: Wait): (p: string)
    ensures |p| >= 1 && (p[|p| - 1] == 's' <==> w.amount > 1)
  {
    IntToString(w.amount) + " " + UnitWord(w.unit) + (if w.amount > 1 then "s" else "")
  }

  const MESSAGE_PREFIX: string := "Has alcanzado el límite de intentos. Por favor, espera "
  const MESSAGE_SUFFIX: string := " antes de intentar nuevamente."

  function FormatearMensajeRateLimit(retryAfter: int): (msg: string)
    ensures StartsWith(msg, MESSAGE_PREFIX) && EndsWith(msg, MESSAGE_SUFFIX)
    // between the fixed text stands a phrase from which exactly the shown wait reads back
    ensures |msg| >= |MESSAGE_PREFIX| + |MESSAGE_SUFFIX|
    ensures ParseWaitPhrase(msg[|MESSAGE_PREFIX|..|msg| - |MESSAGE_SUFFIX|]) == Some(ShownWait(retryAfter))
  {
    var phrase := WaitPhrase(ShownWait(retryAfter));
    var msg := MESSAGE_PREFIX + phrase + MESSAGE_SUFFIX;
    assert msg[|MESSAGE_PREFIX|..|msg| - |MESSAGE_SUFFIX|] == phrase;
    WaitPhraseRoundTrip(ShownWait(retryAfter));
    msg
  }

  /** Reads a phrase back: the number up to the first space, then the unit and its plural. */
  function ParseWaitPhrase(p: string): Option<Wait> {
    if exists k :: 0 <= k < |p| && p[k] == ' ' then
      var k := FirstSpace(p, 0);
      var number := ParseInt(p[..k]);
      var rest := p[k + 1..];
      if number.None? then None
      else
        var n := number.value;
        var plural := if n > 1 then "s" else "";
        if rest == "minuto" + plural then Some(Wait(n, Minutes))
        else if rest == "hora" + plural then Some(Wait(n, Hours))
        else None
    else None
  }

  function FirstSpace(p: string, from: nat): (k: nat)
    requires exists k :: from <= k < |p| && p[k] == ' '
    ensures from <= k < |p| && p[k] == ' ' && forall j :: from <= j < k ==> p[j] != ' '
    decreases |p| - from
  {
    if p[from] == ' ' then from else FirstSpace(p, from + 1)
  }

  lemma NumeralHasNoSpace(i: int)
    ensures forall j :: 0 <= j < |IntToString(i)| ==> IntToString(i)[j] != ' '
  {
    if i < 0 {
      assert IntToString(i) == "-" + NatToString(-i);
    }
  }

  /** The phrase determines the wait: amount, unit and plural can all be read back from it. */
  lemma {:induction false} WaitPhraseRoundTrip(w: Wait)
    ensures ParseWaitPhrase(WaitPhrase(w)) == Some(w)
  {
    var digits := IntToString(w.amount);
    var tail := UnitWord(w.unit) + (if w.amount > 1 then "s" else "");
    var p := WaitPhrase(w);
    assert p == digits + " " + tail;
    var n := |digits|;
    assert p[n] == ' ';
    NumeralHasNoSpace(w.amount);
    assert forall j :: 0 <= j < n ==> p[j] == digits[j];
    var k := FirstSpace(p, 0);
    assert k == n;
    assert p[..k] == digits;
    IntToStringRoundTrip(w.amount);
    assert p[k + 1..] == tail;
    match w.unit
    case Minutes =>
      assert tail != "hora" + (if w.amount > 1 then "s" else "");
    case Hours =>
      assert tail[0] != ("minuto" + (if w.amount > 1 then "s" else ""))[0];
  }

  /** Ninety seconds read "2 minutos"; two hours read "2 horas". */
  lemma MessageExamples()
    ensures WaitPhrase(ShownWait(90)) == "2 minutos"
    ensures WaitPhrase(ShownWait(7200)) == "2 horas"
    ensures WaitPhrase(ShownWait(60)) == "1 minuto"
  {
    assert ShownWait(90) == Wait(2, Minutes);
    assert ShownWait(7200) == Wait(2, Hours);
    assert ShownWait(60) == Wait(1, Minutes);
  }
}
