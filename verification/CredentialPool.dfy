/** Rotation of provider credentials with cooldowns and permanent exclusion. One step of an
    acquisition reads the clock once; between steps other tasks may change the pool. */
module CredentialPool {
  import opened Options

  type Time = real
  const COOLDOWN_SECONDS: Time := 300.0

  datatype Provider = Provider(authVariable: string, endpoint: string, credential: string)

  /** When a credential may be used again; Never marks an exhausted one. */
  datatype Until = At(time: Time) | Never {
    predicate Reached(now: Time) {
      At? && time <= now
    }

    predicate AtMost(other: Until) {
      other.Never? || (At? && time <= other.time)
    }
  }

  function Later(u: Until, v: Until): Until {
    if u.AtMost(v) then v else u
  }

  function Earlier(u: Until, v: Until): Until {
    if u.AtMost(v) then u else v
  }

  ghost predicate Distinct(providers: seq<Provider>) {
    forall i, j :: 0 <= i < j < |providers| ==> providers[i] != providers[j]
  }

  datatype Acquisition = Got(provider: Provider) | Wait(seconds: Time) | AllDisabled

  /** `signals` counts the wake-ups sent to waiting acquisitions. */
  datatype Pool = Pool(providers: seq<Provider>, cool: map<Provider, Until>, next: nat, signals: nat) {
    ghost predicate Valid() {
      && next < |providers| && Distinct(providers)
      && (forall p :: p in providers <==> p in cool)
    }

    predicate Eligible(p: Provider, now: Time) {
      p in cool && cool[p].Reached(now)
    }

    /** The index `offset` places after the next one in turn. */
    function Turn(offset: nat): (i: nat)
      requires |providers| > 0
      ensures i < |providers|
    {
      (next + offset) % |providers|
    }

    /** The first offset from `from` on whose credential is eligible, or the number of credentials. */
    function FirstEligible(now: Time, from: nat): nat
      requires from <= |providers|
      decreases |providers| - from
    {
      if from == |providers| || Eligible(providers[Turn(from)], now) then from else FirstEligible(now, from + 1)
    }

    /** The smallest of the first n cooldowns. */
    function Earliest(n: nat): Until
      requires Valid() && 0 < n <= |providers|
    {
      if n == 1 then cool[providers[0]] else Earlier(Earliest(n - 1), cool[providers[n - 1]])
    }

    /** One step of an acquisition: its outcome and the turn afterwards. */
    function Acquire(current: Option<Provider>, now: Time): (Acquisition, Pool)
      requires Valid()
    {
      if current.Some? && Eligible(current.value, now) then (Got(current.value), this)
      else
        var offset := FirstEligible(now, 0);
        if offset < |providers| then (Got(providers[Turn(offset)]), this.(next := Turn(offset + 1)))
        else
          match Earliest(|providers|)
          case Never => (AllDisabled, this)
          case At(t) => (Wait(t - now), this)
    }

    /** A reset that lies ahead is believed; otherwise the default applies. The later time wins. */
    function RateLimited(p: Provider, now: Time, resetsAt: Option<Until>): Pool {
      if p !in cool || cool[p].Never? then this
      else
        var believed := resetsAt.Some? && resetsAt.value.At? && resetsAt.value.time > now;
        var until := if believed then resetsAt.value else At(now + COOLDOWN_SECONDS);
        this.(cool := cool[p := Later(cool[p], until)])
    }

    /** Excludes a credential for good; the first time, everyone waiting is woken. */
    function Disabled(p: Provider): Pool {
      if p !in cool || cool[p].Never? then this else this.(cool := cool[p := Never], signals := signals + 1)
    }
  }

  class CredentialPool {
    const providers: seq<Provider>
    var coolUntil: map<Provider, Until>
    var nextIndex: nat
    var signals: nat

    function Value(): Pool
      reads this
    {
      Pool(providers, coolUntil, nextIndex, signals)
    }

    constructor (providers: seq<Provider>)
      requires providers != [] && Distinct(providers)
      ensures Value().Valid() && this.providers == providers && nextIndex == 0
      ensures forall p :: p in providers ==> coolUntil[p] == At(0.0)
    {
      this.providers := providers;
      coolUntil := map p | p in providers :: At(0.0);
      nextIndex, signals := 0, 0;
    }

    /** One pass over the credentials at one reading of the clock. */
    method TryAcquire(current: Option<Provider>, now: Time) returns (r: Acquisition)
      requires Value().Valid() && (current.Some? ==> current.value in providers)
      modifies this`nextIndex
      ensures (r, Value()) == old(Value()).Acquire(current, now)
    {
      hide Distinct, Pool.Earliest;
      if current.Some? && coolUntil[current.value].Reached(now) { return Got(current.value); }
      ghost var pool := Value();
      for offset := 0 to |providers|
        invariant pool.FirstEligible(now, 0) == pool.FirstEligible(now, offset) && Value() == pool
      {
        var index := (nextIndex + offset) % |providers|;
        var provider := providers[index];
        if coolUntil[provider].Reached(now) {
          TurnNext(pool, offset);
          nextIndex := (index + 1) % |providers|;
          return Got(provider);
        }
      }
      var earliest := EarliestCooldown();
      r := if earliest.Never? then AllDisabled else Wait(earliest.time - now);
    }

    method EarliestCooldown() returns (earliest: Until)
      requires Value().Valid()
      ensures earliest == Value().Earliest(|providers|)
    {
      earliest := coolUntil[providers[0]];
      for i := 1 to |providers|
        invariant earliest == Value().Earliest(i)
      {
        earliest := Earlier(earliest, coolUntil[providers[i]]);
      }
    }

    method MarkRateLimited(p: Provider, now: Time, resetsAt: Option<Until>)
      requires Value().Valid() && p in providers
      modifies this`coolUntil
      ensures Value() == old(Value()).RateLimited(p, now, resetsAt)
    {
      if coolUntil[p].Never? { return; }
      var until := At(now + COOLDOWN_SECONDS);
      if resetsAt.Some? && resetsAt.value.At? && resetsAt.value.time > now { until := resetsAt.value; }
      coolUntil := coolUntil[p := Later(coolUntil[p], until)];
    }

    method Disable(p: Provider)
      requires Value().Valid() && p in providers
      modifies this`coolUntil, this`signals
      ensures Value() == old(Value()).Disabled(p)
    {
      if coolUntil[p].Never? { return; }
      coolUntil := coolUntil[p := Never];
      signals := signals + 1;
    }

    /** Lets another task act. */
    method Disturb(a: Action)
      requires Value().Valid()
      modifies this`coolUntil, this`nextIndex, this`signals
      ensures Value() == Do(old(Value()), a)
    {
      match a
      case Acquiring(current, now) =>
        if current.Some? && current.value !in providers {
          var _ := TryAcquire(None, now);
        } else {
          var _ := TryAcquire(current, now);
        }
      case RateLimiting(p, at, resetsAt) => if p in providers { MarkRateLimited(p, at, resetsAt); }
      case Disabling(p) => if p in providers { Disable(p); }
    }

    method DisturbAll(actions: seq<Action>)
      requires Value().Valid()
      modifies this`coolUntil, this`nextIndex, this`signals
      ensures Value() == PoolAt(old(Value()), actions, |actions|)
    {
      hide Do, Distinct;
      ghost var before := Value();
      for j := 0 to |actions|
        invariant Value() == PoolAt(before, actions, j)
      {
        Disturb(actions[j]);
      }
    }

    /** Tries until a credential is found or none is left. Before each further pass the task has waited
        and others have acted, as the script says; None if the script ends while it still waits. */
    method Acquire(current: Option<Provider>, script: seq<Pass>) returns (r: Option<Acquisition>)
      requires Value().Valid() && (current.Some? ==> current.value in providers)
      modifies this`coolUntil, this`nextIndex, this`signals
      ensures (r, Value()) == Acquired(old(Value()), current, script)
    {
      hide Pool.Acquire, Do, Acquired, PoolAt, Distinct;
      ghost var start := Value();
      assert script[0..] == script && script[|script|..] == [];
      for i := 0 to |script|
        invariant Value().Valid() && providers == start.providers
        invariant Acquired(start, current, script) == Acquired(Value(), current, script[i..])
      {
        AcquiredNext(Value(), current, script, i);
        DisturbAll(script[i].meanwhile);
        var pass := TryAcquire(current, script[i].now);
        if !pass.Wait? { return Some(pass); }
      }
      AcquiredNone(Value(), current);
      r := None;
    }
  }

  /** Where a provider first occurs. */
  ghost function FirstAt(given: seq<Provider>, p: Provider): (i: nat)
    ensures i <= |given| && (i < |given| ==> given[i] == p) && forall k :: 0 <= k < i ==> given[k] != p
  {
    if given == [] || given[0] == p then 0 else FirstAt(given[1..], p) + 1
  }

  /** The distinct providers among the first n, in the order of their first occurrence. */
  ghost predicate Deduplicated(given: seq<Provider>, distinct: seq<Provider>, n: nat) {
    && Distinct(distinct)
    && (forall p :: p in distinct <==> FirstAt(given, p) < n)
    && (forall k, l :: 0 <= k < l < |distinct| ==> FirstAt(given, distinct[k]) < FirstAt(given, distinct[l]))
  }

  lemma DeduplicatedNext(given: seq<Provider>, distinct: seq<Provider>, n: nat)
    requires n < |given| && Deduplicated(given, distinct, n)
    ensures Deduplicated(given, if given[n] in distinct then distinct else distinct + [given[n]], n + 1)
  {
    var next := if given[n] in distinct then distinct else distinct + [given[n]];
    assert FirstAt(given, given[n]) <= n;
    forall p ensures p in next <==> FirstAt(given, p) < n + 1 {
      if FirstAt(given, p) == n { assert given[n] == p; }
    }
  }

  /** Keeps the first of equal providers, in order; refuses an empty batch and mixed authentication. */
  method CreatePool(given: seq<Provider>) returns (pool: CredentialPool?)
    ensures pool != null <==> given != [] && forall p, q :: p in given && q in given ==>
      p.authVariable == q.authVariable
    ensures pool != null ==> fresh(pool) && pool.Value().Valid() && pool.nextIndex == 0
    ensures pool != null ==> Deduplicated(given, pool.providers, |given|)
    ensures pool != null ==> forall p :: p in pool.providers ==> pool.coolUntil[p] == At(0.0)
  {
    hide Deduplicated, FirstAt;
    if given == [] { return null; }
    var distinct: seq<Provider> := [];
    NothingDeduplicated(given);
    for i := 0 to |given|
      invariant Deduplicated(given, distinct, i)
      invariant forall k :: 0 <= k < i ==> given[k].authVariable == given[0].authVariable
    {
      if given[i].authVariable != given[0].authVariable { return null; }
      DeduplicatedNext(given, distinct, i);
      if given[i] !in distinct { distinct := distinct + [given[i]]; }
    }
    DeduplicatedIsUsable(given, distinct);
    pool := new CredentialPool(distinct);
  }

  lemma NothingDeduplicated(given: seq<Provider>)
    ensures Deduplicated(given, [], 0)
  {
  }

  lemma DeduplicatedIsUsable(given: seq<Provider>, distinct: seq<Provider>)
    requires given != [] && Deduplicated(given, distinct, |given|)
    ensures distinct != [] && Distinct(distinct) && forall p :: p in distinct <==> p in given
  {
    assert FirstAt(given, given[0]) == 0;
    assert given[0] in distinct;
    forall p ensures p in distinct <==> p in given {
      if p in given {
        var k :| 0 <= k < |given| && given[k] == p;
        assert FirstAt(given, p) <= k;
      }
    }
  }

  // ----- the loop of an acquisition

  /** What other tasks do before a pass, and the clock reading of the pass. */
  datatype Pass = Pass(meanwhile: seq<Action>, now: Time)

  lemma AcquireKeeps(pool: Pool, current: Option<Provider>, now: Time)
    requires pool.Valid()
    ensures pool.Acquire(current, now).1.Valid()
  {
    AcquireMeaning(pool, current, now);
  }

  function Acquired(pool: Pool, current: Option<Provider>, script: seq<Pass>): (Option<Acquisition>, Pool)
    requires pool.Valid()
    decreases |script|
  {
    if script == [] then (None, pool)
    else
      var disturbed := PoolAt(pool, script[0].meanwhile, |script[0].meanwhile|);
      AcquireKeeps(disturbed, current, script[0].now);
      var (r, after) := disturbed.Acquire(current, script[0].now);
      if r.Wait? then Acquired(after, current, script[1..]) else (Some(r), after)
  }

  lemma AcquiredNone(pool: Pool, current: Option<Provider>)
    requires pool.Valid()
    ensures Acquired(pool, current, []) == (None, pool)
  {
  }

  lemma AcquiredNext(pool: Pool, current: Option<Provider>, script: seq<Pass>, i: nat)
    requires pool.Valid() && i < |script|
    ensures var disturbed := PoolAt(pool, script[i].meanwhile, |script[i].meanwhile|);
            var (r, after) := disturbed.Acquire(current, script[i].now);
      && after.Valid() && after.providers == pool.providers
      && Acquired(pool, current, script[i..])
         == if r.Wait? then Acquired(after, current, script[i + 1..]) else (Some(r), after)
  {
    hide PoolAt, Distinct;
    assert script[i..][0] == script[i] && script[i..][1..] == script[i + 1..];
    AcquireMeaning(PoolAt(pool, script[i].meanwhile, |script[i].meanwhile|), current, script[i].now);
  }

  /** A waiting task sleeps until its time is over or a signal is sent. */
  predicate Wakes(waited: Pool, seconds: Time, asleep: Time, now: Pool, clock: Time) {
    clock >= asleep + seconds || now.signals != waited.signals
  }

  predicate Harmless(a: Action) {
    a.Acquiring?
  }

  lemma {:induction false} SignalsMeanDisabled(pool: Pool, actions: seq<Action>, n: nat)
    requires pool.Valid() && n <= |actions|
    ensures var after := PoolAt(pool, actions, n);
      && after.signals >= pool.signals
      && (after.signals == pool.signals ==> forall p :: p in pool.providers ==>
            (after.cool[p].Never? <==> pool.cool[p].Never?))
      && ((forall k :: 0 <= k < n ==> Harmless(actions[k])) ==>
            after.cool == pool.cool && after.signals == pool.signals)
  {
    hide Distinct, Do, Pool.Valid;
    if n > 0 {
      SignalsMeanDisabled(pool, actions, n - 1);
      var before := PoolAt(pool, actions, n - 1);
      DoKeeps(before, actions[n - 1]);
      SignalOfOne(before, actions[n - 1]);
    }
  }

  lemma SignalOfOne(pool: Pool, a: Action)
    requires pool.Valid()
    ensures var after := Do(pool, a);
      && after.signals >= pool.signals && after.providers == pool.providers
      && (after.signals == pool.signals ==> forall p :: p in pool.providers ==>
            p in after.cool && (after.cool[p].Never? <==> pool.cool[p].Never?))
      && (a.Acquiring? ==> after.cool == pool.cool && after.signals == pool.signals)
  {
    if a.Acquiring? { AcquireMeaning(pool, a.current, a.now); }
  }

  /** No wake-up is lost: if every credential has been disabled while a task waited, the task is awake
      and its next pass fails. A task that slept its time out gets a credential, unless some credential
      was cooled or disabled meanwhile. */
  lemma WakesAreUseful(pool: Pool, actions: seq<Action>, n: nat, current: Option<Provider>, asleep: Time, clock: Time)
    requires pool.Valid() && n <= |actions| && pool.Acquire(current, asleep).0.Wait?
    ensures var seconds, after := pool.Acquire(current, asleep).0.seconds, PoolAt(pool, actions, n);
      && ((forall p :: p in after.providers ==> after.cool[p].Never?) ==>
            Wakes(pool, seconds, asleep, after, clock) && after.Acquire(current, clock).0.AllDisabled?)
      && (clock >= asleep + seconds && (forall k :: 0 <= k < n ==> Harmless(actions[k])) ==>
            after.Acquire(current, clock).0.Got?)
  {
    hide Pool.Acquire;
    AcquireMeaning(pool, current, asleep);
    SignalsMeanDisabled(pool, actions, n);
    var after := PoolAt(pool, actions, n);
    AcquireMeaning(after, current, clock);
  }

  // ----- one step

  lemma TurnNext(pool: Pool, offset: nat)
    requires |pool.providers| > 0
    ensures pool.Turn(offset + 1) == (pool.Turn(offset) + 1) % |pool.providers|
  {
    var n := |pool.providers|;
    SuccessorModulo(pool.next + offset, n);
  }

  lemma SuccessorModulo(x: nat, n: nat)
    requires n > 0
    ensures (x + 1) % n == (x % n + 1) % n
  {
    var q, r := x / n, x % n;
    assert x == q * n + r;
    if r + 1 < n {
      ModuloUnique(x + 1, n, q, r + 1);
      ModuloUnique(r + 1, n, 0, r + 1);
    } else {
      assert x + 1 == (q + 1) * n;
      ModuloUnique(x + 1, n, q + 1, 0);
      ModuloUnique(n, n, 1, 0);
    }
  }

  lemma ModuloUnique(x: nat, n: nat, q: nat, r: nat)
    requires n > 0 && r < n && x == q * n + r
    ensures x % n == r && x / n == q
  {
    var q', r' := x / n, x % n;
    assert x == q' * n + r';
    if q' > q { Apart(q', q, n); }
    if q' < q { Apart(q, q', n); }
  }

  lemma ApartBy(a: nat, b: nat, d: nat, n: nat)
    requires a == b + d + 1
    ensures a * n == b * n + d * n + n
  {
  }

  lemma Apart(a: nat, b: nat, n: nat)
    requires a > b
    ensures a * n >= b * n + n
  {
    ApartBy(a, b, a - b - 1, n);
  }

  lemma {:induction false} FirstEligibleFacts(pool: Pool, now: Time, from: nat)
    requires pool.Valid() && from <= |pool.providers|
    ensures var r := pool.FirstEligible(now, from);
      && from <= r <= |pool.providers|
      && (r < |pool.providers| ==> pool.Eligible(pool.providers[pool.Turn(r)], now))
      && (forall o :: from <= o < r ==> !pool.Eligible(pool.providers[pool.Turn(o)], now))
    decreases |pool.providers| - from
  {
    hide Pool.Turn, Pool.Eligible;
    if from < |pool.providers| && !pool.Eligible(pool.providers[pool.Turn(from)], now) {
      FirstEligibleFacts(pool, now, from + 1);
    }
  }

  /** How far the index is from the one in turn. */
  function Distance(pool: Pool, i: nat): (o: nat)
    requires pool.next < |pool.providers| && i < |pool.providers|
    ensures o < |pool.providers|
  {
    if i >= pool.next then i - pool.next else i + |pool.providers| - pool.next
  }

  lemma DistanceIsTurn(pool: Pool, i: nat, o: nat)
    requires pool.next < |pool.providers| && i < |pool.providers| && o < |pool.providers|
    ensures pool.Turn(o) == i <==> o == Distance(pool, i)
  {
    var n := |pool.providers|;
    if pool.next + o < n { ModuloUnique(pool.next + o, n, 0, pool.next + o); }
    else { ModuloUnique(pool.next + o, n, 1, pool.next + o - n); }
  }

  lemma {:induction false} EarliestFacts(pool: Pool, n: nat) returns (least: nat)
    requires pool.Valid() && 0 < n <= |pool.providers|
    ensures least < n && pool.cool[pool.providers[least]] == pool.Earliest(n)
    ensures forall i :: 0 <= i < n ==> pool.Earliest(n).AtMost(pool.cool[pool.providers[i]])
  {
    least := 0;
    if n > 1 {
      least := EarliestFacts(pool, n - 1);
      if !pool.Earliest(n - 1).AtMost(pool.cool[pool.providers[n - 1]]) { least := n - 1; }
    }
  }

  ghost predicate NoneEligible(pool: Pool, now: Time) {
    forall p :: p in pool.providers ==> !pool.Eligible(p, now)
  }

  lemma NoOffsetNoneEligible(pool: Pool, now: Time)
    requires pool.Valid()
    ensures pool.FirstEligible(now, 0) == |pool.providers| <==> NoneEligible(pool, now)
  {
    FirstEligibleFacts(pool, now, 0);
    if pool.FirstEligible(now, 0) == |pool.providers| {
      forall p | p in pool.providers ensures !pool.Eligible(p, now) {
        var i :| 0 <= i < |pool.providers| && pool.providers[i] == p;
        DistanceIsTurn(pool, i, Distance(pool, i));
      }
    }
  }

  /** What an acquisition step means: it returns only a credential eligible at the clock value it
      read; it keeps an eligible current one, and otherwise takes the first eligible in cyclic order
      and moves the turn just behind it; it waits a positive time only if none is eligible, until the
      very moment one can be; and it fails exactly when all are disabled. */
  lemma AcquireMeaning(pool: Pool, current: Option<Provider>, now: Time)
    requires pool.Valid()
    ensures var (r, after) := pool.Acquire(current, now);
      && after.Valid() && after == pool.(next := after.next)
      && (r.Got? ==> pool.Eligible(r.provider, now))
      && (current.Some? && pool.Eligible(current.value, now) ==> r == Got(current.value) && after == pool)
      && (current.None? || !pool.Eligible(current.value, now) ==> (r.Got? <==> !NoneEligible(pool, now)))
      && (r.Wait? ==> r.seconds > 0.0 && NoneEligible(pool, now) && !NoneEligible(pool, now + r.seconds))
      && (r.Wait? ==> forall t :: t < now + r.seconds ==> NoneEligible(pool, t))
      && (r.AllDisabled? <==> forall p :: p in pool.providers ==> pool.cool[p].Never?)
  {
    hide Pool.Turn, Pool.FirstEligible, Pool.Earliest;
    FirstEligibleFacts(pool, now, 0);
    NoOffsetNoneEligible(pool, now);
    EarliestMeaning(pool);
    if !NoneEligible(pool, now) {
      var p :| p in pool.providers && pool.Eligible(p, now);
      assert pool.cool[p].At?;
    }
  }

  /** The earliest cooldown ends the time in which nothing is eligible; it never ends if all are
      disabled. */
  lemma EarliestMeaning(pool: Pool)
    requires pool.Valid()
    ensures var e := pool.Earliest(|pool.providers|);
      && (e.Never? <==> forall p :: p in pool.providers ==> pool.cool[p].Never?)
      && (e.At? ==> forall t :: NoneEligible(pool, t) <==> t < e.time)
  {
    var i := EarliestFacts(pool, |pool.providers|);
    var e := pool.Earliest(|pool.providers|);
    forall p | p in pool.providers ensures e.AtMost(pool.cool[p]) {
      var j :| 0 <= j < |pool.providers| && pool.providers[j] == p;
    }
    if e.At? {
      forall t ensures NoneEligible(pool, t) <==> t < e.time {
        if t >= e.time { assert pool.Eligible(pool.providers[i], t); }
      }
    }
  }

  /** A rotating acquisition picks the eligible credential closest after the turn. */
  lemma RotationIsCyclic(pool: Pool, now: Time) returns (i: nat)
    requires pool.Valid() && !NoneEligible(pool, now)
    ensures i < |pool.providers| && pool.Eligible(pool.providers[i], now)
    ensures pool.Acquire(None, now) == (Got(pool.providers[i]), pool.(next := (i + 1) % |pool.providers|))
    ensures forall j :: 0 <= j < |pool.providers| && pool.Eligible(pool.providers[j], now) ==>
      Distance(pool, i) <= Distance(pool, j)
  {
    hide Pool.Turn, Pool.Eligible, Pool.FirstEligible;
    FirstEligibleFacts(pool, now, 0);
    NoOffsetNoneEligible(pool, now);
    var o := pool.FirstEligible(now, 0);
    i := pool.Turn(o);
    TurnNext(pool, o);
    DistanceIsTurn(pool, i, o);
    forall j | 0 <= j < |pool.providers| && pool.Eligible(pool.providers[j], now)
      ensures Distance(pool, i) <= Distance(pool, j) {
      DistanceIsTurn(pool, j, Distance(pool, j));
    }
  }

  /** What a rate limit means: the credential is eligible when it would have been and not before the
      announced reset, if that lies ahead, or else five minutes from now; a disabled one stays so, and
      no other credential is touched. */
  lemma RateLimitMeaning(pool: Pool, p: Provider, now: Time, resetsAt: Option<Until>)
    requires pool.Valid() && p in pool.providers
    ensures var after := pool.RateLimited(p, now, resetsAt);
            var until := if resetsAt.Some? && resetsAt.value.At? && resetsAt.value.time > now then resetsAt.value.time
                         else now + 300.0;
      && after.Valid() && after == pool.(cool := after.cool)
      && (forall t :: after.Eligible(p, t) <==> pool.Eligible(p, t) && until <= t)
      && (after.cool[p].Never? <==> pool.cool[p].Never?)
      && (forall q :: q in pool.providers && q != p ==> after.cool[q] == pool.cool[q])
  {
  }

  /** What exclusion means: the credential is never eligible again, everyone waiting is signalled the
      first time, and no other credential is touched. */
  lemma DisabledMeaning(pool: Pool, p: Provider)
    requires pool.Valid() && p in pool.providers
    ensures var after := pool.Disabled(p);
      && after.Valid() && after == pool.(cool := after.cool, signals := after.signals)
      && (forall t :: !after.Eligible(p, t)) && after.cool[p].Never?
      && after.signals == pool.signals + (if pool.cool[p].Never? then 0 else 1)
      && (forall q :: q in pool.providers && q != p ==> after.cool[q] == pool.cool[q])
  {
  }

  // ----- every run

  datatype Action =
    | Acquiring(current: Option<Provider>, now: Time)
    | RateLimiting(provider: Provider, at: Time, resetsAt: Option<Until>)
    | Disabling(provider: Provider)

  function Do(pool: Pool, a: Action): Pool
    requires pool.Valid()
  {
    match a
    case Acquiring(current, now) => pool.Acquire(current, now).1
    case RateLimiting(p, at, resetsAt) => pool.RateLimited(p, at, resetsAt)
    case Disabling(p) => pool.Disabled(p)
  }

  /** The pool after the actions, by any tasks, that come before position n. */
  function PoolAt(pool: Pool, actions: seq<Action>, n: nat): (after: Pool)
    requires pool.Valid() && n <= |actions|
    ensures after.Valid() && after.providers == pool.providers
  {
    if n == 0 then pool
    else
      var before := PoolAt(pool, actions, n - 1);
      DoKeeps(before, actions[n - 1]);
      Do(before, actions[n - 1])
  }

  ghost predicate CoolsOn(before: Pool, after: Pool) {
    && after.providers == before.providers
    && forall p :: p in before.cool ==> p in after.cool && before.cool[p].AtMost(after.cool[p])
  }

  /** Cooldowns never shrink, and a credential just rate-limited is cooling. */
  lemma DoKeeps(pool: Pool, a: Action)
    requires pool.Valid()
    ensures Do(pool, a).Valid() && CoolsOn(pool, Do(pool, a))
    ensures a.RateLimiting? ==> !Do(pool, a).Eligible(a.provider, a.at)
  {
    if a.Acquiring? { AcquireMeaning(pool, a.current, a.now); }
  }

  /** Over every run: cooldowns never shrink, and hence a disabled credential stays disabled. */
  lemma {:induction false} CooldownsNeverShrink(pool: Pool, actions: seq<Action>, m: nat, n: nat)
    requires pool.Valid() && m <= n <= |actions|
    ensures CoolsOn(PoolAt(pool, actions, m), PoolAt(pool, actions, n))
    ensures forall p :: p in PoolAt(pool, actions, m).cool && PoolAt(pool, actions, m).cool[p].Never? ==>
              PoolAt(pool, actions, n).cool[p].Never?
  {
    hide Do, Pool.Valid;
    if m < n {
      CooldownsNeverShrink(pool, actions, m, n - 1);
      DoKeeps(PoolAt(pool, actions, n - 1), actions[n - 1]);
    }
  }

  /** A task told to wait misses nothing: whatever the others do meanwhile, no credential becomes
      eligible before its time is over. */
  lemma WaitingMissesNothing(pool: Pool, actions: seq<Action>, n: nat, current: Option<Provider>, now: Time, t: Time)
    requires pool.Valid() && n <= |actions|
    requires pool.Acquire(current, now).0.Wait? && t < now + pool.Acquire(current, now).0.seconds
    ensures NoneEligible(PoolAt(pool, actions, n), t)
  {
    hide Pool.Acquire;
    AcquireMeaning(pool, current, now);
    assert NoneEligible(pool, t);
    CooldownsNeverShrink(pool, actions, 0, n);
  }

  /** The credential an action hands out, if it does. */
  function HandsOut(pool: Pool, a: Action): Option<Provider>
    requires pool.Valid()
  {
    if a.Acquiring? && pool.Acquire(a.current, a.now).0.Got? then Some(pool.Acquire(a.current, a.now).0.provider)
    else None
  }

  function Rotations(actions: seq<Action>, n: nat): nat
    requires n <= |actions|
  {
    if n == 0 then 0
    else Rotations(actions, n - 1) + (if actions[n - 1].Acquiring? && actions[n - 1].current.None? then 1 else 0)
  }

  /** The turn moves towards an eligible credential with every rotation that hands out another one,
      and stays put otherwise unless a current credential was not eligible. */
  lemma TurnApproaches(pool: Pool, i: nat, a: Action)
    requires pool.Valid() && i < |pool.providers|
    requires a.Acquiring? ==> pool.Eligible(pool.providers[i], a.now)
    requires HandsOut(pool, a) != Some(pool.providers[i])
    ensures var after := Do(pool, a);
      && after.Valid() && after.providers == pool.providers
      && Distance(after, i) <= Distance(pool, i)
      && (a.Acquiring? && a.current.None? ==> Distance(after, i) < Distance(pool, i))
  {
    hide Pool.Acquire, Pool.Eligible, Distinct;
    DoKeeps(pool, a);
    if a.Acquiring? {
      SameRotation(pool, a.current, a.now);
      if a.current.None? || !pool.Eligible(a.current.value, a.now) {
        SomeEligible(pool, i, a.now);
        var j := RotationIsCyclic(pool, a.now);
        CloserAfter(pool, i, j);
      }
    }
  }

  lemma SameRotation(pool: Pool, current: Option<Provider>, now: Time)
    requires pool.Valid()
    ensures pool.Acquire(current, now)
         == if current.Some? && pool.Eligible(current.value, now) then (Got(current.value), pool)
            else pool.Acquire(None, now)
  {
  }

  lemma SomeEligible(pool: Pool, i: nat, now: Time)
    requires i < |pool.providers| && pool.Eligible(pool.providers[i], now)
    ensures !NoneEligible(pool, now)
  {
  }

  lemma CloserAfter(pool: Pool, i: nat, j: nat)
    requires pool.next < |pool.providers| && i < |pool.providers| && j < |pool.providers|
    requires i != j && Distance(pool, j) <= Distance(pool, i)
    ensures var n := |pool.providers|; (j + 1) % n < n && Distance(pool.(next := (j + 1) % n), i) < Distance(pool, i)
  {
    var n := |pool.providers|;
    if j + 1 < n { ModuloUnique(j + 1, n, 0, j + 1); } else { ModuloUnique(n, n, 1, 0); }
  }

  /** No starvation: a credential eligible whenever the pool is asked is handed out before as many
      fresh acquisitions as there are credentials have been served, whatever happens to the others. */
  lemma {:induction false} NoStarvation(pool: Pool, actions: seq<Action>, n: nat, i: nat)
    requires pool.Valid() && n <= |actions| && i < |pool.providers|
    requires forall k :: 0 <= k < n && actions[k].Acquiring? ==>
      PoolAt(pool, actions, k).Eligible(pool.providers[i], actions[k].now)
    requires forall k :: 0 <= k < n ==> HandsOut(PoolAt(pool, actions, k), actions[k]) != Some(pool.providers[i])
    ensures Rotations(actions, n) + Distance(PoolAt(pool, actions, n), i) <= Distance(pool, i)
    ensures Rotations(actions, n) < |pool.providers|
  {
    hide Do, Pool.Valid, HandsOut, Pool.Eligible, Distance;
    if n > 0 {
      NoStarvation(pool, actions, n - 1, i);
      TurnApproaches(PoolAt(pool, actions, n - 1), i, actions[n - 1]);
    }
  }

  /** With all credentials eligible, fresh acquisitions run through them in order from the turn on,
      so that as many of them as there are credentials hand out each exactly once. */
  lemma {:induction false} FreshAcquisitionsPermute(pool: Pool, actions: seq<Action>, n: nat)
    requires pool.Valid() && n <= |actions|
    requires forall k :: 0 <= k < |actions| ==> actions[k].Acquiring? && actions[k].current.None?
    requires forall k, p :: 0 <= k < |actions| && p in pool.providers ==> pool.Eligible(p, actions[k].now)
    ensures PoolAt(pool, actions, n) == pool.(next := pool.Turn(n))
    ensures n < |actions| ==> HandsOut(PoolAt(pool, actions, n), actions[n]) == Some(pool.providers[pool.Turn(n)])
  {
    hide Pool.Turn, Pool.Acquire, Distinct;
    if n > 0 {
      FreshAcquisitionsPermute(pool, actions, n - 1);
      FirstIsTurn(PoolAt(pool, actions, n - 1), actions[n - 1].now);
      TurnNext(pool, n - 1);
    } else {
      TurnNow(pool);
    }
    if n < |actions| { FirstIsTurn(PoolAt(pool, actions, n), actions[n].now); }
  }

  lemma TurnNow(pool: Pool)
    requires pool.next < |pool.providers|
    ensures pool.Turn(0) == pool.next
  {
    ModuloUnique(pool.next, |pool.providers|, 0, pool.next);
  }

  lemma FirstIsTurn(pool: Pool, now: Time)
    requires pool.Valid() && forall p :: p in pool.providers ==> pool.Eligible(p, now)
    ensures pool.Acquire(None, now)
         == (Got(pool.providers[pool.next]), pool.(next := (pool.next + 1) % |pool.providers|))
  {
    ModuloUnique(pool.next, |pool.providers|, 0, pool.next);
    assert pool.Turn(0) == pool.next;
    TurnNext(pool, 0);
  }

  /** n acquisitions in a row hand out every credential, and no two the same one. */
  lemma EveryCredentialOnce(pool: Pool, actions: seq<Action>, i: nat, k: nat)
    requires pool.Valid() && i < |pool.providers| && k < |actions| == |pool.providers|
    requires forall k :: 0 <= k < |actions| ==> actions[k].Acquiring? && actions[k].current.None?
    requires forall k, p :: 0 <= k < |actions| && p in pool.providers ==> pool.Eligible(p, actions[k].now)
    ensures HandsOut(PoolAt(pool, actions, k), actions[k]) == Some(pool.providers[i]) <==> k == Distance(pool, i)
  {
    FreshAcquisitionsPermute(pool, actions, k);
    DistanceIsTurn(pool, i, k);
  }
}
