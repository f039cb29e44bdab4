// Token buckets and the two-level rate limiter, over real time.

module TokenBuckets {

  /** The abstract state of a bucket; a disabled one grants everything. */
  datatype Bucket = Bucket(rate: real, burst: real, tokens: real, last: real, disabled: bool)

  function Least(a: real, b: real): real {
    if a <= b then a else b
  }

  function NewBucket(rpm: real, burst: int, now: real): Bucket {
    if rpm <= 0.0 then Bucket(0.0, 0.0, 0.0, now, true)
    else
      var size := if burst >= 1 then burst as real else 1.0;
      Bucket(rpm / 60.0, size, size, now, false)
  }

  /** Tokens that drip in over this time. */
  function Gain(from: real, to: real, rate: real): real {
    (to - from) * rate
  }

  lemma GainIsPositive(from: real, to: real, rate: real)
    requires from <= to && rate >= 0.0
    ensures Gain(from, to, rate) >= 0.0
  {
  }

  lemma GainAdds(a: real, b: real, c: real, rate: real)
    ensures Gain(a, b, rate) + Gain(b, c, rate) == Gain(a, c, rate)
  {
  }

  function Refilled(b: Bucket, now: real): Bucket {
    b.(tokens := Least(b.burst, b.tokens + Gain(b.last, now, b.rate)), last := now)
  }

  /** Refill, then take one token if there is one. */
  function Tried(b: Bucket, now: real): Bucket {
    if b.disabled then b
    else
      var r := Refilled(b, now);
      if r.tokens >= 1.0 then r.(tokens := r.tokens - 1.0) else r
  }

  predicate Grants(b: Bucket, now: real) {
    b.disabled || Refilled(b, now).tokens >= 1.0
  }

  function Refunded(b: Bucket): Bucket {
    if b.disabled then b else b.(tokens := Least(b.burst, b.tokens + 1.0))
  }

  ghost predicate WellFilled(b: Bucket) {
    b.disabled || (b.rate > 0.0 && b.burst >= 1.0 && 0.0 <= b.tokens <= b.burst)
  }

  lemma NewIsWellFilled(rpm: real, burst: int, now: real)
    ensures WellFilled(NewBucket(rpm, burst, now))
  {
  }

  /** Tokens stay within the bucket through a try and a refund. */
  lemma TryKeepsWellFilled(b: Bucket, now: real)
    requires WellFilled(b) && b.last <= now
    ensures WellFilled(Tried(b, now)) && WellFilled(Refunded(Tried(b, now)))
  {
    if !b.disabled { GainIsPositive(b.last, now, b.rate); }
  }

  class TokenBucket {
    const rate: real
    const burst: real
    const disabled: bool
    var tokens: real
    var last: real

    constructor (rpm: real, burst: int, now: real)
      ensures State() == NewBucket(rpm, burst, now)
    {
      if rpm <= 0.0 {
        this.rate, this.burst, tokens, disabled := 0.0, 0.0, 0.0, true;
      } else {
        var size := if burst >= 1 then burst as real else 1.0;
        this.rate, this.burst, tokens, disabled := rpm / 60.0, size, size, false;
      }
      last := now;
    }

    function State(): Bucket
      reads this
    {
      Bucket(rate, burst, tokens, last, disabled)
    }

    method Refill(now: real)
      modifies this
      ensures State() == Refilled(old(State()), now)
    {
      tokens := Least(burst, tokens + Gain(last, now, rate));
      last := now;
    }

    method TryAcquire(now: real) returns (ok: bool)
      modifies this
      ensures State() == Tried(old(State()), now)
      ensures ok == Grants(old(State()), now)
    {
      if disabled { return true; }
      Refill(now);
      if tokens >= 1.0 {
        tokens := tokens - 1.0;
        return true;
      }
      return false;
    }

    method Release()
      modifies this
      ensures State() == Refunded(old(State()))
    {
      if disabled { return; }
      tokens := Least(burst, tokens + 1.0);
    }
  }
}

module RateLimiters {
  import opened TokenBuckets

  datatype Verdict = Granted | ServerLimit | ModelLimit(model: string)

  datatype Limiter = Limiter(server: Bucket, models: map<string, Bucket>, modelRpm: real)

  function Burst(rpm: real): int {
    if rpm > 0.0 then (if rpm.Floor >= 1 then rpm.Floor else 1) else 0
  }

  /** The model's bucket, created full on first use. */
  function BucketOf(l: Limiter, model: string, now: real): Bucket {
    if model in l.models then l.models[model] else NewBucket(l.modelRpm, Burst(l.modelRpm), now)
  }

  function VerdictOf(l: Limiter, model: string, now: real): Verdict {
    if !Grants(l.server, now) then ServerLimit
    else if !Grants(BucketOf(l, model, now), now) then ModelLimit(model)
    else Granted
  }

  /** The server bucket first; a refusal by the model's bucket gives the server token back. */
  function TryStep(l: Limiter, model: string, now: real): Limiter {
    if !Grants(l.server, now) then l.(server := Tried(l.server, now))
    else
      var bucket := BucketOf(l, model, now);
      var server := Tried(l.server, now);
      Limiter(if Grants(bucket, now) then server else Refunded(server),
              l.models[model := Tried(bucket, now)], l.modelRpm)
  }

  datatype Call = Call(model: string, now: real)

  ghost predicate InTime(calls: seq<Call>) {
    forall i, j :: 0 <= i < j < |calls| ==> calls[i].now <= calls[j].now
  }

  function After(l: Limiter, calls: seq<Call>): Limiter {
    if calls == [] then l
    else
      var c := calls[|calls| - 1];
      TryStep(After(l, calls[..|calls| - 1]), c.model, c.now)
  }

  /** How many of the calls are granted, in all or for one model. */
  function GrantedCount(l: Limiter, calls: seq<Call>): nat {
    if calls == [] then 0
    else
      var init, c := calls[..|calls| - 1], calls[|calls| - 1];
      GrantedCount(l, init) + if VerdictOf(After(l, init), c.model, c.now).Granted? then 1 else 0
  }

  function GrantedTo(l: Limiter, calls: seq<Call>, model: string): nat {
    if calls == [] then 0
    else
      var init, c := calls[..|calls| - 1], calls[|calls| - 1];
      GrantedTo(l, init, model)
      + if c.model == model && VerdictOf(After(l, init), c.model, c.now).Granted? then 1 else 0
  }

  ghost predicate Sound(l: Limiter, now: real) {
    && WellFilled(l.server) && l.server.last <= now
    && forall m :: m in l.models ==> WellFilled(l.models[m]) && l.models[m].last <= now
  }

  lemma StepIsSound(l: Limiter, model: string, now: real)
    requires Sound(l, now)
    ensures Sound(TryStep(l, model, now), now)
  {
    TryKeepsWellFilled(l.server, now);
    NewIsWellFilled(l.modelRpm, Burst(l.modelRpm), now);
    TryKeepsWellFilled(BucketOf(l, model, now), now);
  }

  /** Tokens stay between zero and the burst in every state the calls lead to. */
  lemma {:induction false} RunIsSound(l: Limiter, calls: seq<Call>, start: real)
    requires Sound(l, start) && InTime(calls)
    requires calls != [] ==> start <= calls[0].now
    ensures Sound(After(l, calls), if calls == [] then start else calls[|calls| - 1].now)
  {
    if calls != [] {
      var init, c := calls[..|calls| - 1], calls[|calls| - 1];
      RunIsSound(l, init, start);
      StepIsSound(After(l, init), c.model, c.now);
    }
  }

  /** One call: the bucket after it, where a refusal further on refunds the token. */
  function Charged(b: Bucket, now: real, refund: bool): Bucket {
    if refund && Grants(b, now) then Refunded(Tried(b, now)) else Tried(b, now)
  }

  function Spent(b: Bucket, now: real, refund: bool): nat {
    if !refund && Grants(b, now) then 1 else 0
  }

  lemma ChargeIsPaid(b: Bucket, now: real, refund: bool)
    requires WellFilled(b) && !b.disabled && b.last <= now
    ensures var after := Charged(b, now, refund);
      && WellFilled(after) && after.rate == b.rate && after.burst == b.burst && !after.disabled && after.last == now
      && after.tokens + Spent(b, now, refund) as real <= b.burst
      && after.tokens + Spent(b, now, refund) as real <= b.tokens + Gain(b.last, now, b.rate)
  {
    GainIsPositive(b.last, now, b.rate);
  }

  /** A bucket charged at these times, some of the charges refunded. */
  datatype Charge = Charge(now: real, refund: bool)

  function ChargedBy(b: Bucket, charges: seq<Charge>): Bucket {
    if charges == [] then b
    else
      var c := charges[|charges| - 1];
      Charged(ChargedBy(b, charges[..|charges| - 1]), c.now, c.refund)
  }

  function SpentBy(b: Bucket, charges: seq<Charge>): nat {
    if charges == [] then 0
    else
      var init, c := charges[..|charges| - 1], charges[|charges| - 1];
      SpentBy(b, init) + Spent(ChargedBy(b, init), c.now, c.refund)
  }

  ghost predicate Ordered(charges: seq<Charge>) {
    forall i, j :: 0 <= i < j < |charges| ==> charges[i].now <= charges[j].now
  }

  /** The potential argument: tokens left plus tokens spent never exceed the burst plus the refill. */
  lemma {:induction false} WindowBound(b: Bucket, charges: seq<Charge>)
    requires WellFilled(b) && !b.disabled
    requires charges != [] && Ordered(charges) && b.last <= charges[0].now
    ensures var last := charges[|charges| - 1].now; var after := ChargedBy(b, charges);
      && WellFilled(after) && after.rate == b.rate && after.burst == b.burst && !after.disabled && after.last == last
      && after.tokens + SpentBy(b, charges) as real <= b.burst + Gain(charges[0].now, last, b.rate)
  {
    var init, c := charges[..|charges| - 1], charges[|charges| - 1];
    if init == [] {
      ChargeIsPaid(b, c.now, c.refund);
      assert ChargedBy(b, init) == b && SpentBy(b, init) == 0;
    } else {
      WindowBound(b, init);
      var mid := ChargedBy(b, init);
      ChargeIsPaid(mid, c.now, c.refund);
      GainAdds(charges[0].now, mid.last, c.now, b.rate);
    }
  }

  // ---------------------------------------------------------------- both levels

  /** The charges the calls make to the server bucket: a call the model's bucket refuses is refunded. */
  function ServerCharges(l: Limiter, calls: seq<Call>): seq<Charge> {
    if calls == [] then []
    else
      var init, c := calls[..|calls| - 1], calls[|calls| - 1];
      ServerCharges(l, init) + [Charge(c.now, !Grants(BucketOf(After(l, init), c.model, c.now), c.now))]
  }

  lemma ServerStep(l: Limiter, c: Call)
    requires !l.server.disabled
    ensures var refund := !Grants(BucketOf(l, c.model, c.now), c.now);
      && TryStep(l, c.model, c.now).server == Charged(l.server, c.now, refund)
      && (if VerdictOf(l, c.model, c.now).Granted? then 1 else 0) == Spent(l.server, c.now, refund)
  {
  }

  lemma OneMoreCharge(b: Bucket, charges: seq<Charge>, c: Charge)
    ensures ChargedBy(b, charges + [c]) == Charged(ChargedBy(b, charges), c.now, c.refund)
    ensures SpentBy(b, charges + [c]) == SpentBy(b, charges) + Spent(ChargedBy(b, charges), c.now, c.refund)
  {
    assert (charges + [c])[..|charges|] == charges;
  }

  lemma {:induction false} ServerChargesInTime(l: Limiter, calls: seq<Call>)
    ensures |ServerCharges(l, calls)| == |calls|
    ensures forall i :: 0 <= i < |calls| ==> ServerCharges(l, calls)[i].now == calls[i].now
  {
    if calls != [] { ServerChargesInTime(l, calls[..|calls| - 1]); }
  }

  lemma {:induction false} ServerIsCharged(l: Limiter, calls: seq<Call>)
    requires !l.server.disabled
    ensures var charges := ServerCharges(l, calls);
      && After(l, calls).server == ChargedBy(l.server, charges) && !After(l, calls).server.disabled
      && GrantedCount(l, calls) == SpentBy(l.server, charges)
  {
    if calls != [] {
      var init, c := calls[..|calls| - 1], calls[|calls| - 1];
      ServerIsCharged(l, init);
      ServerStep(After(l, init), c);
      OneMoreCharge(l.server, ServerCharges(l, init),
                    Charge(c.now, !Grants(BucketOf(After(l, init), c.model, c.now), c.now)));
    }
  }

  /** Over any window of calls the server grants at most its burst plus the rate times the window,
      although refusals by a model's bucket refund the server. */
  lemma ServerRateBound(l: Limiter, calls: seq<Call>)
    requires calls != [] && InTime(calls)
    requires WellFilled(l.server) && !l.server.disabled && l.server.last <= calls[0].now
    ensures GrantedCount(l, calls) as real
         <= l.server.burst + Gain(calls[0].now, calls[|calls| - 1].now, l.server.rate)
  {
    ServerIsCharged(l, calls);
    ServerChargesInTime(l, calls);
    WindowBound(l.server, ServerCharges(l, calls));
  }

  predicate Reaches(l: Limiter, c: Call, model: string) {
    c.model == model && Grants(l.server, c.now)
  }

  /** The calls that reach the bucket of one model. */
  function ModelCharges(l: Limiter, calls: seq<Call>, model: string): seq<Charge> {
    if calls == [] then []
    else
      var init, c := calls[..|calls| - 1], calls[|calls| - 1];
      ModelCharges(l, init, model) + if Reaches(After(l, init), c, model) then [Charge(c.now, false)] else []
  }

  lemma {:induction false} ModelChargesInTime(l: Limiter, calls: seq<Call>, model: string)
    requires InTime(calls)
    ensures Ordered(ModelCharges(l, calls, model))
    ensures forall c :: c in ModelCharges(l, calls, model) ==>
      calls != [] && calls[0].now <= c.now <= calls[|calls| - 1].now
  {
    if calls != [] {
      var init := calls[..|calls| - 1];
      var earlier := ModelCharges(l, init, model);
      ModelChargesInTime(l, init, model);
      assert forall i :: 0 <= i < |earlier| ==> earlier[i] in earlier;
    }
  }

  /** A bucket made full at its first use is as good as one made full when the window opened. */
  lemma FullSinceTheStart(l: Limiter, model: string, start: real, now: real)
    requires model !in l.models && start <= now && !BucketOf(l, model, start).disabled
    ensures Charged(BucketOf(l, model, now), now, false) == Charged(BucketOf(l, model, start), now, false)
    ensures Spent(BucketOf(l, model, now), now, false) == Spent(BucketOf(l, model, start), now, false)
  {
    GainIsPositive(start, now, NewBucket(l.modelRpm, Burst(l.modelRpm), start).rate);
  }

  /** The model's bucket after these charges, as if it had been there since the start. */
  ghost predicate Matches(l: Limiter, model: string, b: Bucket, charges: seq<Charge>, start: real, rpm: real) {
    && l.modelRpm == rpm
    && (if model in l.models then l.models[model] == ChargedBy(b, charges)
        else charges == [] && BucketOf(l, model, start) == b)
  }

  lemma MatchesStep(l: Limiter, c: Call, model: string, b: Bucket, charges: seq<Charge>, start: real, rpm: real)
    requires Matches(l, model, b, charges, start, rpm) && !b.disabled && start <= c.now
    ensures var more := if Reaches(l, c, model) then [Charge(c.now, false)] else [];
      && Matches(TryStep(l, c.model, c.now), model, b, charges + more, start, rpm)
      && SpentBy(b, charges + more) == SpentBy(b, charges)
         + if c.model == model && VerdictOf(l, c.model, c.now).Granted? then 1 else 0
  {
    if Reaches(l, c, model) {
      var longer := charges + [Charge(c.now, false)];
      assert longer[..|longer| - 1] == charges;
      if model !in l.models { FullSinceTheStart(l, model, start, c.now); }
    } else {
      assert charges + [] == charges;
    }
  }

  lemma {:induction false} ModelIsCharged(l: Limiter, calls: seq<Call>, model: string, start: real)
    requires InTime(calls) && (calls != [] ==> start <= calls[0].now)
    requires !BucketOf(l, model, start).disabled
    ensures var b, charges := BucketOf(l, model, start), ModelCharges(l, calls, model);
      && Matches(After(l, calls), model, b, charges, start, l.modelRpm)
      && GrantedTo(l, calls, model) == SpentBy(b, charges)
  {
    if calls != [] {
      var init, c := calls[..|calls| - 1], calls[|calls| - 1];
      ModelIsCharged(l, init, model, start);
      MatchesStep(After(l, init), c, model, BucketOf(l, model, start), ModelCharges(l, init, model), start, l.modelRpm);
    }
  }

  /** ... and the same bound holds for every model's own bucket, also for one made in the window. */
  lemma ModelRateBound(l: Limiter, calls: seq<Call>, model: string)
    requires calls != [] && InTime(calls)
    requires Sound(l, calls[0].now) && !BucketOf(l, model, calls[0].now).disabled
    ensures var b := BucketOf(l, model, calls[0].now);
      GrantedTo(l, calls, model) as real <= b.burst + Gain(calls[0].now, calls[|calls| - 1].now, b.rate)
  {
    var first, last := calls[0].now, calls[|calls| - 1].now;
    var b, charges := BucketOf(l, model, first), ModelCharges(l, calls, model);
    NewIsWellFilled(l.modelRpm, Burst(l.modelRpm), first);
    ModelIsCharged(l, calls, model, first);
    ModelChargesInTime(l, calls, model);
    if charges == [] {
      GainIsPositive(first, last, b.rate);
    } else {
      var from, to := charges[0].now, charges[|charges| - 1].now;
      assert charges[0] in charges && charges[|charges| - 1] in charges;
      WindowBound(b, charges);
      GainAdds(first, from, last, b.rate);
      GainAdds(from, to, last, b.rate);
      GainIsPositive(first, from, b.rate);
      GainIsPositive(to, last, b.rate);
    }
  }

  // ---------------------------------------------------------------- in requests per minute

  function Capacity(rpm: real): real {
    if rpm >= 1.0 then rpm.Floor as real else 1.0
  }

  /** The bucket of a limit in requests per minute; without a limit it grants everything. */
  predicate Configured(b: Bucket, rpm: real) {
    if rpm <= 0.0 then b.disabled
    else !b.disabled && b.rate == rpm / 60.0 && b.burst == Capacity(rpm)
  }

  ghost predicate Limited(l: Limiter, rpm: real, modelRpm: real) {
    && Configured(l.server, rpm) && l.modelRpm == modelRpm
    && forall m :: m in l.models ==> Configured(l.models[m], modelRpm)
  }

  function NewLimiter(rpm: real, modelRpm: real, made: real): Limiter {
    Limiter(NewBucket(rpm, Burst(rpm), made), map[], modelRpm)
  }

  lemma NewIsConfigured(rpm: real, made: real)
    ensures var b := NewBucket(rpm, Burst(rpm), made);
      Configured(b, rpm) && b.last == made && WellFilled(b) && (rpm > 0.0 ==> b.tokens == b.burst)
  {
  }

  lemma {:induction false} StaysLimited(l: Limiter, calls: seq<Call>, rpm: real, modelRpm: real)
    requires Limited(l, rpm, modelRpm)
    ensures Limited(After(l, calls), rpm, modelRpm)
  {
    if calls != [] {
      var c := calls[|calls| - 1];
      StaysLimited(l, calls[..|calls| - 1], rpm, modelRpm);
      NewIsConfigured(modelRpm, c.now);
    }
  }

  /** A limiter that has served some calls is ready for a later window. */
  lemma ReadyForWindow(rpm: real, modelRpm: real, made: real, earlier: seq<Call>, calls: seq<Call>)
    requires calls != [] && InTime(earlier + calls) && made <= (earlier + calls)[0].now
    ensures var l := After(NewLimiter(rpm, modelRpm, made), earlier);
      Limited(l, rpm, modelRpm) && Sound(l, calls[0].now) && InTime(calls)
  {
    var l, all := NewLimiter(rpm, modelRpm, made), earlier + calls;
    NewIsConfigured(rpm, made);
    StaysLimited(l, earlier, rpm, modelRpm);
    assert forall i :: 0 <= i < |earlier| ==> all[i] == earlier[i];
    assert forall i :: 0 <= i < |calls| ==> all[|earlier| + i] == calls[i];
    RunIsSound(l, earlier, made);
  }

  /** In every window of every run the server grants at most its capacity and rpm a minute ... */
  lemma ServerKeepsRpm(rpm: real, modelRpm: real, made: real, earlier: seq<Call>, calls: seq<Call>)
    requires rpm > 0.0 && calls != [] && InTime(earlier + calls) && made <= (earlier + calls)[0].now
    ensures GrantedCount(After(NewLimiter(rpm, modelRpm, made), earlier), calls) as real
         <= Capacity(rpm) + Gain(calls[0].now, calls[|calls| - 1].now, rpm / 60.0)
  {
    ReadyForWindow(rpm, modelRpm, made, earlier, calls);
    ServerRateBound(After(NewLimiter(rpm, modelRpm, made), earlier), calls);
  }

  /** ... and so does every model. */
  lemma ModelKeepsRpm(rpm: real, modelRpm: real, made: real, earlier: seq<Call>, calls: seq<Call>, model: string)
    requires modelRpm > 0.0 && calls != [] && InTime(earlier + calls) && made <= (earlier + calls)[0].now
    ensures GrantedTo(After(NewLimiter(rpm, modelRpm, made), earlier), calls, model) as real
         <= Capacity(modelRpm) + Gain(calls[0].now, calls[|calls| - 1].now, modelRpm / 60.0)
  {
    var l := After(NewLimiter(rpm, modelRpm, made), earlier);
    ReadyForWindow(rpm, modelRpm, made, earlier, calls);
    NewIsConfigured(modelRpm, calls[0].now);
    ModelRateBound(l, calls, model);
  }

  lemma GainInMinute(from: real, to: real, rpm: real)
    requires rpm > 0.0 && to <= from + 60.0
    ensures Gain(from, to, rpm / 60.0) <= rpm
  {
    var r, minute := rpm / 60.0, from + 60.0;
    assert Gain(from, minute, r) == 60.0 * r == rpm;
    GainIsPositive(to, minute, r);
    GainAdds(from, to, minute, r);
  }

  /** So within any minute at most twice the limit is granted, or one call more for a limit below one. */
  lemma MinuteKeepsRpm(rpm: real, modelRpm: real, made: real, earlier: seq<Call>, calls: seq<Call>, model: string)
    requires calls != [] && InTime(earlier + calls) && made <= (earlier + calls)[0].now
    requires calls[|calls| - 1].now <= calls[0].now + 60.0
    ensures var l := After(NewLimiter(rpm, modelRpm, made), earlier);
      && (rpm > 0.0 ==> GrantedCount(l, calls) as real <= rpm + if rpm >= 1.0 then rpm else 1.0)
      && (modelRpm > 0.0 ==> GrantedTo(l, calls, model) as real <= modelRpm + if modelRpm >= 1.0 then modelRpm else 1.0)
  {
    var first, last := calls[0].now, calls[|calls| - 1].now;
    if rpm > 0.0 {
      ServerKeepsRpm(rpm, modelRpm, made, earlier, calls);
      GainInMinute(first, last, rpm);
    }
    if modelRpm > 0.0 {
      ModelKeepsRpm(rpm, modelRpm, made, earlier, calls, model);
      GainInMinute(first, last, modelRpm);
    }
  }

  // ---------------------------------------------------------------- what is granted

  /** The time in which one token drips in. */
  function Pause(rpm: real): real
    requires rpm > 0.0
  {
    60.0 / rpm
  }

  lemma PauseFillsOne(rpm: real, from: real, to: real)
    requires rpm > 0.0 && to >= from + Pause(rpm)
    ensures Gain(from, to, rpm / 60.0) >= 1.0
  {
    var r, ready := rpm / 60.0, from + Pause(rpm);
    PauseIsOne(rpm);
    assert Gain(from, ready, r) == Pause(rpm) * r;
    GainIsPositive(ready, to, r);
    GainAdds(from, ready, to, r);
  }

  lemma PauseIsOne(rpm: real)
    requires rpm > 0.0
    ensures Pause(rpm) * (rpm / 60.0) == 1.0
  {
  }

  /** A bucket that has not been asked for that long grants, and one without a limit always does. */
  lemma WaitedBucketGrants(b: Bucket, rpm: real, now: real)
    requires Configured(b, rpm) && WellFilled(b) && (rpm > 0.0 ==> now >= b.last + Pause(rpm))
    ensures Grants(b, now)
  {
    if rpm > 0.0 {
      PauseFillsOne(rpm, b.last, now);
      assert b.burst >= 1.0 && b.tokens + Gain(b.last, now, b.rate) >= 1.0;
    }
  }

  /** Between any two calls lies a pause of both levels. */
  ghost predicate Spaced(calls: seq<Call>, rpm: real, modelRpm: real) {
    forall i :: 0 < i < |calls| ==>
      && calls[i - 1].now <= calls[i].now
      && (rpm > 0.0 ==> calls[i].now >= calls[i - 1].now + Pause(rpm))
      && (modelRpm > 0.0 ==> calls[i].now >= calls[i - 1].now + Pause(modelRpm))
  }

  lemma {:induction false} SpacedIsInTime(calls: seq<Call>, rpm: real, modelRpm: real)
    requires Spaced(calls, rpm, modelRpm)
    ensures InTime(calls)
  {
    if calls != [] {
      var init := calls[..|calls| - 1];
      SpacedIsInTime(init, rpm, modelRpm);
      forall i, j | 0 <= i < j < |calls| ensures calls[i].now <= calls[j].now {
        if j < |init| {
          assert init[i].now <= init[j].now;
        } else if i < j - 1 {
          assert init[i].now <= init[j - 1].now;
        }
      }
    }
  }

  lemma FullBucketGrants(b: Bucket, now: real)
    requires WellFilled(b) && b.last <= now && (b.disabled || b.tokens == b.burst)
    ensures Grants(b, now)
  {
    if !b.disabled { GainIsPositive(b.last, now, b.rate); }
  }

  /** Calls that keep to the limits are all granted. */
  lemma {:induction false} SpacedCallsAreGranted(rpm: real, modelRpm: real, made: real, calls: seq<Call>)
    requires Spaced(calls, rpm, modelRpm) && (calls != [] ==> made <= calls[0].now)
    ensures GrantedCount(NewLimiter(rpm, modelRpm, made), calls) == |calls|
  {
    if calls != [] {
      var init, c := calls[..|calls| - 1], calls[|calls| - 1];
      var l := NewLimiter(rpm, modelRpm, made);
      SpacedCallsAreGranted(rpm, modelRpm, made, init);
      SpacedIsInTime(calls, rpm, modelRpm);
      NewIsConfigured(rpm, made);
      NewIsConfigured(modelRpm, c.now);
      if init == [] {
        FullBucketGrants(l.server, c.now);
        FullBucketGrants(BucketOf(l, c.model, c.now), c.now);
      } else {
        StaysLimited(l, init, rpm, modelRpm);
        RunIsSound(l, init, made);
        LaterCallIsGranted(After(l, init), c, init[|init| - 1].now, rpm, modelRpm);
      }
    }
  }

  lemma LaterCallIsGranted(l: Limiter, c: Call, before: real, rpm: real, modelRpm: real)
    requires Limited(l, rpm, modelRpm) && Sound(l, before) && before <= c.now
    requires rpm > 0.0 ==> c.now >= before + Pause(rpm)
    requires modelRpm > 0.0 ==> c.now >= before + Pause(modelRpm)
    ensures VerdictOf(l, c.model, c.now).Granted?
  {
    WaitedBucketGrants(l.server, rpm, c.now);
    if c.model in l.models {
      WaitedBucketGrants(l.models[c.model], modelRpm, c.now);
    } else {
      NewIsConfigured(modelRpm, c.now);
      FullBucketGrants(BucketOf(l, c.model, c.now), c.now);
    }
  }

  /** A call that the model's bucket refuses costs the server nothing. */
  lemma RefundIsExact(l: Limiter, model: string, now: real)
    requires Sound(l, now) && VerdictOf(l, model, now).ModelLimit?
    ensures TryStep(l, model, now).server == if l.server.disabled then l.server else Refilled(l.server, now)
  {
  }

  // ---------------------------------------------------------------- the object

  class RateLimiter {
    const server: TokenBucket
    const modelRpm: real
    var models: map<string, TokenBucket>

    ghost predicate Valid()
      reads this
    {
      && (forall m :: m in models ==> models[m] != server)
      && (forall m, n :: m in models && n in models && m != n ==> models[m] != models[n])
    }

    constructor (serverRpm: real, modelRpm: real, now: real)
      ensures Valid() && fresh(server)
      ensures State() == Limiter(NewBucket(serverRpm, Burst(serverRpm), now), map[], modelRpm)
    {
      server := new TokenBucket(serverRpm, Burst(serverRpm), now);
      this.modelRpm, models := modelRpm, map[];
    }

    ghost function State(): Limiter
      reads this, server, models.Values
    {
      Limiter(server.State(), map m | m in models :: models[m].State(), modelRpm)
    }

    method GetModelBucket(model: string, now: real) returns (bucket: TokenBucket)
      requires Valid()
      modifies this`models
      ensures Valid() && models == old(models)[model := bucket]
      ensures if model in old(models) then bucket == old(models)[model] else fresh(bucket)
      ensures bucket.State() == BucketOf(old(State()), model, now)
    {
      if model !in models {
        bucket := new TokenBucket(modelRpm, Burst(modelRpm), now);
        models := models[model := bucket];
      } else {
        bucket := models[model];
      }
    }

    /** The first level. */
    method TryServer(now: real) returns (granted: bool)
      requires Valid()
      modifies server
      ensures Valid() && granted == Grants(old(State()).server, now)
      ensures State() == old(State()).(server := Tried(old(State()).server, now))
    {
      ghost var was := State();
      granted := server.TryAcquire(now);
      StateIs(was.(server := Tried(was.server, now)));
    }

    method RefundServer()
      requires Valid()
      modifies server
      ensures Valid() && State() == old(State()).(server := Refunded(old(State()).server))
    {
      ghost var was := State();
      server.Release();
      StateIs(was.(server := Refunded(was.server)));
    }

    /** The second level: the model's own bucket. */
    method TryModel(model: string, now: real) returns (granted: bool)
      requires Valid()
      modifies this`models, models.Values
      ensures Valid() && forall m :: m in models ==> m in old(models) || fresh(models[m])
      ensures forall m :: m in old(models) ==> m in models && models[m] == old(models)[m]
      ensures granted == Grants(BucketOf(old(State()), model, now), now)
      ensures State() == old(State()).(models :=
        old(State()).models[model := Tried(BucketOf(old(State()), model, now), now)])
    {
      ghost var was := State();
      var bucket := GetModelBucket(model, now);
      assert forall m :: m in old(models) && m != model ==> models[m] != bucket;
      granted := bucket.TryAcquire(now);
      StateIs(was.(models := was.models[model := Tried(BucketOf(was, model, now), now)]));
    }

    method TryAcquire(model: string, now: real) returns (verdict: Verdict)
      requires Valid()
      modifies this`models, server, models.Values
      ensures Valid()
      ensures State() == TryStep(old(State()), model, now)
      ensures verdict == VerdictOf(old(State()), model, now)
    {
      var ok := TryServer(now);
      if !ok { return ServerLimit; }
      var granted := TryModel(model, now);
      if !granted {
        RefundServer();
        return ModelLimit(model);
      }
      verdict := Granted;
    }

    lemma StateIs(l: Limiter)
      requires server.State() == l.server && modelRpm == l.modelRpm && models.Keys == l.models.Keys
      requires forall m :: m in models ==> models[m].State() == l.models[m]
      ensures State() == l
    {
    }
  }
}
