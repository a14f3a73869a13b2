/** The meteor particle pool: a flat buffer of eight numbers per meteor
    (start x, start y, velocity x, velocity y, lifetime, age, size,
    brightness), filled with random meteors, aged by each frame's time step
    and recycled when a meteor outlives its lifetime. */
module Meteors {
  import opened Optional

  /** Numbers per meteor in the instance buffer. */
  const FloatsPerInstance: nat := 8

  /** Math.random, as the values its successive calls return: call number
      k returns values(k). Math.random promises a value in [0, 1). */
  ghost predicate UnitSource(values: nat -> real) {
    forall k: nat :: 0.0 <= values(k) < 1.0
  }

  /** The random source, counting the calls made to it. */
  class Random {
    const values: nat -> real
    var calls: nat

    constructor (values: nat -> real)
      ensures this.values == values && calls == 0
    {
      this.values := values;
      calls := 0;
    }

    method Next() returns (r: real)
      modifies this
      ensures r == values(old(calls)) && calls == old(calls) + 1
    {
      r := values(calls);
      calls := calls + 1;
    }
  }

  predicate InUnit(d: seq<real>) {
    forall k :: 0 <= k < |d| ==> 0.0 <= d[k] < 1.0
  }

  /** The six values one reset draws from call number at on, in the order
      it draws them: start x, start y, speed, lifetime, size, brightness. */
  function FreshDraws(values: nat -> real, at: nat): seq<real> {
    [values(at), values(at + 1), values(at + 2), values(at + 3), values(at + 4), values(at + 5)]
  }

  /** With a source in [0, 1) the six draws lie in [0, 1). */
  lemma FreshDrawsInUnit(values: nat -> real, at: nat)
    requires UnitSource(values)
    ensures |FreshDraws(values, at)| == 6 && InUnit(FreshDraws(values, at))
  {
    var d := FreshDraws(values, at);
    assert values(at) == d[0] && values(at + 1) == d[1] && values(at + 2) == d[2];
    assert values(at + 3) == d[3] && values(at + 4) == d[4] && values(at + 5) == d[5];
  }

  /** The meteor parameters. */
  datatype MeteorParams = MeteorParams(count: nat, speed: real, size: real, brightness: real, lifetime: real)

  const DefaultParams := MeteorParams(50, 1.0, 0.15, 0.8, 4.0)

  /** A partial parameter object: the fields given to setParams. */
  datatype ParamsUpdate = ParamsUpdate(
    count: Option<nat>, speed: Option<real>, size: Option<real>, brightness: Option<real>, lifetime: Option<real>)

  function Or<T>(given: Option<T>, current: T): T {
    if given.Some? then given.value else current
  }

  /** Object.assign: every given field replaces the current one. */
  function Merge(p: MeteorParams, u: ParamsUpdate): MeteorParams {
    MeteorParams(Or(u.count, p.count), Or(u.speed, p.speed), Or(u.size, p.size),
                 Or(u.brightness, p.brightness), Or(u.lifetime, p.lifetime))
  }

  /** The given fields are taken, the others kept, and merging the same
      update twice is merging it once. */
  lemma MergeFields(p: MeteorParams, u: ParamsUpdate)
    ensures var m := Merge(p, u);
      && (if u.count.Some? then m.count == u.count.value else m.count == p.count)
      && (if u.speed.Some? then m.speed == u.speed.value else m.speed == p.speed)
      && (if u.size.Some? then m.size == u.size.value else m.size == p.size)
      && (if u.brightness.Some? then m.brightness == u.brightness.value else m.brightness == p.brightness)
      && (if u.lifetime.Some? then m.lifetime == u.lifetime.value else m.lifetime == p.lifetime)
    ensures Merge(Merge(p, u), u) == Merge(p, u)
    ensures Merge(p, ParamsUpdate(None, None, None, None, None)) == p
  {
  }

  /** The buffer is reallocated only for a given, non-zero count that
      differs from the current instance count. */
  predicate Reallocates(u: ParamsUpdate, instanceCount: nat) {
    u.count.Some? && u.count.value != 0 && u.count.value != instanceCount
  }

  /** One meteor, as the eight consecutive buffer entries hold it. */
  datatype Meteor = Meteor(
    startX: real, startY: real, velocityX: real, velocityY: real,
    lifetime: real, currentTime: real, size: real, brightness: real)

  /** What a freshly allocated, zero-filled buffer holds for each meteor. */
  const Blank := Meteor(0.0, 0.0, 0.0, 0.0, 0.0, 0.0, 0.0, 0.0)

  /** The eight buffer entries of a meteor, at offsets 0 to 7. */
  function Entries(m: Meteor): (e: seq<real>)
    ensures |e| == FloatsPerInstance
  {
    [m.startX, m.startY, m.velocityX, m.velocityY, m.lifetime, m.currentTime, m.size, m.brightness]
  }

  /** The meteor stored at entries 8j to 8j + 7. */
  function At(data: seq<real>, j: nat): Meteor
    requires FloatsPerInstance * j + FloatsPerInstance <= |data|
  {
    var o := FloatsPerInstance * j;
    Meteor(data[o], data[o + 1], data[o + 2], data[o + 3], data[o + 4], data[o + 5], data[o + 6], data[o + 7])
  }

  /** A buffer of n meteors read as n meteors. */
  function Records(data: seq<real>, n: nat): (ms: seq<Meteor>)
    requires |data| == FloatsPerInstance * n
    ensures |ms| == n
  {
    seq(n, j requires 0 <= j < n => At(data, j))
  }

  /** Two buffers of n meteors holding the same meteors are the same
      buffer: reading a buffer as meteors loses nothing. */
  lemma RecordsInjective(a: seq<real>, b: seq<real>, n: nat)
    requires |a| == FloatsPerInstance * n && |b| == FloatsPerInstance * n
    requires Records(a, n) == Records(b, n)
    ensures a == b
  {
    forall k | 0 <= k < |a|
      ensures a[k] == b[k]
    {
      var j := k / FloatsPerInstance;
      assert FloatsPerInstance * j <= k < FloatsPerInstance * j + FloatsPerInstance;
      assert At(a, j) == Records(a, n)[j] == Records(b, n)[j] == At(b, j);
    }
  }

  /** When buffer b holds the meteors of buffer a with meteor i replaced by
      m, b differs from a only in the eight entries 8i to 8i + 7, which hold
      m; in particular entry 8i + 5 holds m's current time. */
  lemma ReplaceFrame(a: seq<real>, b: seq<real>, n: nat, i: nat, m: Meteor)
    requires |a| == FloatsPerInstance * n && |b| == FloatsPerInstance * n && i < n
    requires Records(b, n) == Records(a, n)[i := m]
    ensures forall k :: 0 <= k < |a| && !(FloatsPerInstance * i <= k < FloatsPerInstance * i + FloatsPerInstance) ==> b[k] == a[k]
    ensures b[FloatsPerInstance * i .. FloatsPerInstance * i + FloatsPerInstance] == Entries(m)
  {
    forall k | 0 <= k < |a| && !(FloatsPerInstance * i <= k < FloatsPerInstance * i + FloatsPerInstance)
      ensures b[k] == a[k]
    {
      var j := k / FloatsPerInstance;
      assert FloatsPerInstance * j <= k < FloatsPerInstance * j + FloatsPerInstance;
      assert j != i;
      assert At(a, j) == Records(a, n)[j] == Records(b, n)[j] == At(b, j);
    }
    assert At(b, i) == Records(b, n)[i] == m;
  }

  /** The meteor resetMeteor writes for draws d. */
  function Fresh(p: MeteorParams, d: seq<real>): Meteor
    requires |d| == 6
  {
    var speed := (0.3 + d[2] * 0.2) * p.speed;
    Meteor(-1.0 + d[0] * 2.0, -1.0 + d[1] * 2.0, speed * 0.707, -speed * 0.707,
           p.lifetime * (0.8 + d[3] * 0.4), 0.0, p.size * (0.7 + d[4] * 0.6), p.brightness * (0.6 + d[5] * 0.4))
  }

  /** m is what a reset with parameters p writes, for some draws in [0, 1). */
  ghost predicate ResetRecordOf(p: MeteorParams, m: Meteor) {
    exists d :: |d| == 6 && InUnit(d) && m == Fresh(p, d)
  }

  /** The bounds of a reset meteor: start position in [-1, 1)², velocity
      along the diagonal with speed in [0.3, 0.5)·speed, lifetime in
      [0.8, 1.2)·lifetime, size in [0.7, 1.3)·size, brightness in
      [0.6, 1.0)·brightness, and current time 0. */
  lemma FreshBounds(p: MeteorParams, d: seq<real>)
    requires |d| == 6 && InUnit(d)
    ensures var m := Fresh(p, d);
      && -1.0 <= m.startX < 1.0 && -1.0 <= m.startY < 1.0
      && m.velocityY == -m.velocityX
      && (p.speed > 0.0 ==> 0.3 * p.speed * 0.707 <= m.velocityX < 0.5 * p.speed * 0.707)
      && (p.lifetime > 0.0 ==> 0.8 * p.lifetime <= m.lifetime < 1.2 * p.lifetime)
      && (p.lifetime >= 0.0 ==> m.lifetime >= 0.0)
      && (p.size > 0.0 ==> 0.7 * p.size <= m.size < 1.3 * p.size)
      && (p.brightness > 0.0 ==> 0.6 * p.brightness <= m.brightness < 1.0 * p.brightness)
      && m.currentTime == 0.0
  {
    var m := Fresh(p, d);
    var speed := (0.3 + d[2] * 0.2) * p.speed;
    assert InUnit(d);
    Scaled(p.speed, 0.3, 0.2, d[2], speed);
    Scaled(p.lifetime, 0.8, 0.4, d[3], m.lifetime);
    Scaled(p.size, 0.7, 0.6, d[4], m.size);
    Scaled(p.brightness, 0.6, 0.4, d[5], m.brightness);
  }

  /** v is m scaled by a factor drawn from [lo, lo + w). */
  lemma Scaled(m: real, lo: real, w: real, r: real, v: real)
    requires 0.0 <= r < 1.0 && lo >= 0.0 && w > 0.0
    requires v == m * (lo + r * w) || v == (lo + r * w) * m
    ensures m >= 0.0 ==> lo * m <= v && v >= 0.0
    ensures m > 0.0 ==> v < (lo + w) * m
  {
    var x := r * w;
    assert 0.0 <= x < w;
    assert v == m * lo + m * x;
    if m > 0.0 {
      assert m * x < m * w;
      assert 0.0 <= m * x;
      calc {
        v;
        m * lo + m * x;
      <
        m * lo + m * w;
        (lo + w) * m;
      }
    } else if m == 0.0 {
      assert v == 0.0;
    }
  }

  /** resetMeteor(i): six draws from call number at on, then a new meteor i;
      the source is then six calls further on. */
  function Reset(ms: seq<Meteor>, p: MeteorParams, values: nat -> real, at: nat, i: nat): (r: (seq<Meteor>, nat))
    requires i < |ms|
    ensures |r.0| == |ms|
  {
    (ms[i := Fresh(p, FreshDraws(values, at))], at + 6)
  }

  /** A reset gives meteor i a reset record starting at time 0, leaves every
      other meteor as it was, and takes six values from the source. */
  lemma ResetEffect(ms: seq<Meteor>, p: MeteorParams, values: nat -> real, at: nat, i: nat)
    requires UnitSource(values) && i < |ms|
    ensures var (r, at') := Reset(ms, p, values, at, i);
      && ResetRecordOf(p, r[i]) && r[i].currentTime == 0.0
      && (forall j :: 0 <= j < |ms| && j != i ==> r[j] == ms[j])
      && at' == at + 6
  {
    FreshDrawsInUnit(values, at);
  }

  /** What one iteration of updateTime does to meteor i: a meteor whose
      current time plus dt passes its lifetime is reset; any other gets the
      advanced time. */
  function Step(ms: seq<Meteor>, p: MeteorParams, values: nat -> real, at: nat, dt: real, i: nat): (r: (seq<Meteor>, nat))
    requires i < |ms|
    ensures |r.0| == |ms|
  {
    var currentTime := ms[i].currentTime + dt;
    if currentTime > ms[i].lifetime then Reset(ms, p, values, at, i)
    else (ms[i := ms[i].(currentTime := currentTime)], at)
  }

  /** The fate of one meteor over an update: reset when its time plus dt
      passes the lifetime, otherwise only its time advanced by dt. */
  ghost predicate Aged(before: Meteor, after: Meteor, p: MeteorParams, dt: real) {
    var currentTime := before.currentTime + dt;
    if currentTime > before.lifetime then ResetRecordOf(p, after)
    else after == before.(currentTime := currentTime)
  }

  /** A step decides meteor i's fate and leaves every other meteor alone. */
  lemma StepEffect(ms: seq<Meteor>, p: MeteorParams, values: nat -> real, at: nat, dt: real, i: nat)
    requires UnitSource(values) && i < |ms|
    ensures var r := Step(ms, p, values, at, dt, i).0;
      && Aged(ms[i], r[i], p, dt)
      && (forall j :: 0 <= j < |ms| && j != i ==> r[j] == ms[j])
  {
    if ms[i].currentTime + dt > ms[i].lifetime {
      ResetEffect(ms, p, values, at, i);
    }
  }

  /** updateTime over the first k meteors, in index order; each reset draws
      from where the previous one left the source. */
  function UpdatePrefix(ms: seq<Meteor>, p: MeteorParams, values: nat -> real, at: nat, dt: real, k: nat): (r: (seq<Meteor>, nat))
    requires k <= |ms|
    ensures |r.0| == |ms|
    decreases k
  {
    if k == 0 then (ms, at)
    else
      var (m, a) := UpdatePrefix(ms, p, values, at, dt, k - 1);
      Step(m, p, values, a, dt, k - 1)
  }

  /** Meteors from k on are untouched by the update over the first k. */
  lemma {:induction false} UpdateUntouched(ms: seq<Meteor>, p: MeteorParams, values: nat -> real, at: nat, dt: real, k: nat, j: nat)
    requires UnitSource(values) && k <= j < |ms|
    ensures UpdatePrefix(ms, p, values, at, dt, k).0[j] == ms[j]
    decreases k
  {
    if k > 0 {
      UpdateUntouched(ms, p, values, at, dt, k - 1, j);
      var (m, a) := UpdatePrefix(ms, p, values, at, dt, k - 1);
      StepEffect(m, p, values, a, dt, k - 1);
    }
  }

  /** Each meteor below k has met its fate after the update over the first
      k: the later steps leave it alone. */
  lemma {:induction false} UpdateAged(ms: seq<Meteor>, p: MeteorParams, values: nat -> real, at: nat, dt: real, k: nat, j: nat)
    requires UnitSource(values) && j < k <= |ms|
    ensures Aged(ms[j], UpdatePrefix(ms, p, values, at, dt, k).0[j], p, dt)
    decreases k
  {
    var (m, a) := UpdatePrefix(ms, p, values, at, dt, k - 1);
    StepEffect(m, p, values, a, dt, k - 1);
    if j == k - 1 {
      UpdateUntouched(ms, p, values, at, dt, k - 1, j);
    } else {
      UpdateAged(ms, p, values, at, dt, k - 1, j);
    }
  }

  /** After the first k steps the meteors below k have met their fate and
      those from k on are untouched: each meteor is handled on its own. */
  lemma UpdatePrefixRecords(ms: seq<Meteor>, p: MeteorParams, values: nat -> real, at: nat, dt: real, k: nat)
    requires UnitSource(values) && k <= |ms|
    ensures var r := UpdatePrefix(ms, p, values, at, dt, k).0;
      && (forall j :: 0 <= j < k ==> Aged(ms[j], r[j], p, dt))
      && (forall j :: k <= j < |ms| ==> r[j] == ms[j])
  {
    forall j | 0 <= j < k {
      UpdateAged(ms, p, values, at, dt, k, j);
    }
    forall j | k <= j < |ms| {
      UpdateUntouched(ms, p, values, at, dt, k, j);
    }
  }

  /** Every meteor's current time lies between 0 and its lifetime. */
  predicate AgesValid(ms: seq<Meteor>) {
    forall j :: 0 <= j < |ms| ==> 0.0 <= ms[j].currentTime <= ms[j].lifetime
  }

  /** With a source in [0, 1), a non-negative time step and a non-negative
      lifetime parameter, updateTime keeps every meteor's time between 0
      and its lifetime. */
  lemma UpdatePreservesAges(ms: seq<Meteor>, p: MeteorParams, values: nat -> real, at: nat, dt: real)
    requires UnitSource(values) && AgesValid(ms) && dt >= 0.0 && p.lifetime >= 0.0
    ensures AgesValid(UpdatePrefix(ms, p, values, at, dt, |ms|).0)
  {
    var r := UpdatePrefix(ms, p, values, at, dt, |ms|).0;
    UpdatePrefixRecords(ms, p, values, at, dt, |ms|);
    forall j | 0 <= j < |ms|
      ensures 0.0 <= r[j].currentTime <= r[j].lifetime
    {
      assert Aged(ms[j], r[j], p, dt);
      if ms[j].currentTime + dt > ms[j].lifetime {
        var d :| |d| == 6 && InUnit(d) && r[j] == Fresh(p, d);
        FreshBounds(p, d);
      }
    }
  }

  /** generateInstanceData for n meteors after the first k resets, starting
      from a zero-filled buffer. */
  function GeneratePrefix(p: MeteorParams, values: nat -> real, at: nat, n: nat, k: nat): (r: (seq<Meteor>, nat))
    requires k <= n
    ensures |r.0| == n
    decreases k
  {
    if k == 0 then (seq(n, _ => Blank), at)
    else
      var (m, a) := GeneratePrefix(p, values, at, n, k - 1);
      Reset(m, p, values, a, k - 1)
  }

  /** The full generation: every one of the n meteors reset. */
  function Generate(p: MeteorParams, values: nat -> real, at: nat, n: nat): (seq<Meteor>, nat) {
    GeneratePrefix(p, values, at, n, n)
  }

  /** Meteors from k on are still blank after the first k resets. */
  lemma {:induction false} GenerateUntouched(p: MeteorParams, values: nat -> real, at: nat, n: nat, k: nat, j: nat)
    requires UnitSource(values) && k <= j < n
    ensures GeneratePrefix(p, values, at, n, k).0[j] == Blank
    decreases k
  {
    if k > 0 {
      GenerateUntouched(p, values, at, n, k - 1, j);
      var (m, a) := GeneratePrefix(p, values, at, n, k - 1);
      ResetEffect(m, p, values, a, k - 1);
    }
  }

  /** Each meteor below k holds a reset record after the first k resets:
      the later resets leave it alone. */
  lemma {:induction false} GenerateReset(p: MeteorParams, values: nat -> real, at: nat, n: nat, k: nat, j: nat)
    requires UnitSource(values) && j < k <= n
    ensures ResetRecordOf(p, GeneratePrefix(p, values, at, n, k).0[j])
    decreases k
  {
    var (m, a) := GeneratePrefix(p, values, at, n, k - 1);
    ResetEffect(m, p, values, a, k - 1);
    if j < k - 1 {
      GenerateReset(p, values, at, n, k - 1, j);
    }
  }

  /** After k resets the first k meteors hold reset records and the rest
      are still blank. */
  lemma GeneratePrefixRecords(p: MeteorParams, values: nat -> real, at: nat, n: nat, k: nat)
    requires UnitSource(values) && k <= n
    ensures var r := GeneratePrefix(p, values, at, n, k).0;
      && (forall j :: 0 <= j < k ==> ResetRecordOf(p, r[j]))
      && (forall j :: k <= j < n ==> r[j] == Blank)
  {
    forall j | 0 <= j < k {
      GenerateReset(p, values, at, n, k, j);
    }
    forall j | k <= j < n {
      GenerateUntouched(p, values, at, n, k, j);
    }
  }

  /** generateInstanceData resets every one of the n meteors and takes six
      values from the source for each. */
  lemma GenerateResetsAll(p: MeteorParams, values: nat -> real, at: nat, n: nat)
    requires UnitSource(values)
    ensures var (r, at') := Generate(p, values, at, n);
      && |r| == n && at' == at + 6 * n
      && forall j :: 0 <= j < n ==> ResetRecordOf(p, r[j])
  {
    GeneratePrefixRecords(p, values, at, n, n);
    GenerateDraws(p, values, at, n, n);
  }

  /** k resets take 6k values from the source. */
  lemma {:induction false} GenerateDraws(p: MeteorParams, values: nat -> real, at: nat, n: nat, k: nat)
    requires k <= n
    ensures GeneratePrefix(p, values, at, n, k).1 == at + 6 * k
    decreases k
  {
    if k > 0 {
      GenerateDraws(p, values, at, n, k - 1);
    }
  }

  /** A freshly generated buffer keeps every time within its lifetime when
      the lifetime parameter is non-negative. */
  lemma GenerateAgesValid(p: MeteorParams, values: nat -> real, at: nat, n: nat)
    requires UnitSource(values) && p.lifetime >= 0.0
    ensures AgesValid(Generate(p, values, at, n).0)
  {
    var r := Generate(p, values, at, n).0;
    GenerateResetsAll(p, values, at, n);
    forall j | 0 <= j < n
      ensures 0.0 <= r[j].currentTime <= r[j].lifetime
    {
      var d :| |d| == 6 && InUnit(d) && r[j] == Fresh(p, d);
      FreshBounds(p, d);
    }
  }

  /** A new Float32Array for n meteors reads as n blank meteors. */
  lemma ZeroRecords(data: seq<real>, n: nat)
    requires |data| == FloatsPerInstance * n && forall k :: 0 <= k < |data| ==> data[k] == 0.0
    ensures Records(data, n) == seq(n, _ => Blank)
  {
    forall j | 0 <= j < n
      ensures At(data, j) == Blank
    {
      var o := FloatsPerInstance * j;
      assert data[o] == 0.0 && data[o + 1] == 0.0 && data[o + 2] == 0.0 && data[o + 3] == 0.0;
      assert data[o + 4] == 0.0 && data[o + 5] == 0.0 && data[o + 6] == 0.0 && data[o + 7] == 0.0;
    }
  }

  /** Writing a meteor's eight entries at offset 8i replaces meteor i and
      no other. */
  lemma WriteMeteor(data: seq<real>, n: nat, i: nat, m: Meteor)
    requires |data| == FloatsPerInstance * n && i < n
    ensures var o := FloatsPerInstance * i;
      Records(data[o := m.startX][o + 1 := m.startY][o + 2 := m.velocityX][o + 3 := m.velocityY]
                  [o + 4 := m.lifetime][o + 5 := m.currentTime][o + 6 := m.size][o + 7 := m.brightness], n)
      == Records(data, n)[i := m]
  {
    var o := FloatsPerInstance * i;
    var w := data[o := m.startX][o + 1 := m.startY][o + 2 := m.velocityX][o + 3 := m.velocityY]
                 [o + 4 := m.lifetime][o + 5 := m.currentTime][o + 6 := m.size][o + 7 := m.brightness];
    forall j | 0 <= j < n
      ensures At(w, j) == Records(data, n)[i := m][j]
    {
      if j != i {
        var q := FloatsPerInstance * j;
        assert q + FloatsPerInstance <= o || o + FloatsPerInstance <= q;
      }
    }
  }

  /** Writing the time entry 8i + 5 changes only meteor i's current time. */
  lemma WriteTime(data: seq<real>, n: nat, i: nat, t: real)
    requires |data| == FloatsPerInstance * n && i < n
    ensures Records(data[FloatsPerInstance * i + 5 := t], n)
      == Records(data, n)[i := Records(data, n)[i].(currentTime := t)]
  {
    var o := FloatsPerInstance * i;
    var w := data[o + 5 := t];
    var ms := Records(data, n)[i := Records(data, n)[i].(currentTime := t)];
    forall j | 0 <= j < n
      ensures At(w, j) == ms[j]
    {
      if j != i {
        var q := FloatsPerInstance * j;
        assert q + FloatsPerInstance <= o || o + FloatsPerInstance <= q;
      }
    }
  }

  /** MeteorBackground: the instance count, the parameters and the instance
      buffer, drawing from a shared random source. */
  class MeteorBackground {
    var instanceCount: nat
    var instanceData: array<real>
    var meteorParams: MeteorParams
    const rng: Random

    /** The buffer holds eight entries per meteor. */
    ghost predicate Valid()
      reads this
    {
      instanceData.Length == FloatsPerInstance * instanceCount
    }

    /** The meteors the buffer holds. */
    ghost function Meteors(): seq<Meteor>
      reads this, instanceData
      requires Valid()
    {
      Records(instanceData[..], instanceCount)
    }

    /** 50 meteors with the default parameters, all generated. */
    constructor (rng: Random)
      modifies rng
      ensures this.rng == rng
      ensures instanceCount == 50 && meteorParams == DefaultParams
      ensures fresh(instanceData) && Valid()
      ensures (Meteors(), rng.calls) == Generate(DefaultParams, rng.values, old(rng.calls), 50)
    {
      this.rng := rng;
      instanceCount := 50;
      meteorParams := DefaultParams;
      instanceData := new real[0];
      new;
      GenerateInstanceData();
    }

    /** Merges the given fields; a new buffer is generated, with the merged
        parameters, only for a given, non-zero count that differs from the
        instance count. Otherwise the buffer and its contents stay as they
        were. */
    method SetParams(u: ParamsUpdate)
      requires Valid()
      modifies this, rng
      ensures meteorParams == Merge(old(meteorParams), u) && Valid()
      ensures Reallocates(u, old(instanceCount)) ==>
        && instanceCount == u.count.value && fresh(instanceData)
        && (Meteors(), rng.calls) == Generate(meteorParams, rng.values, old(rng.calls), instanceCount)
      ensures !Reallocates(u, old(instanceCount)) ==>
        && instanceCount == old(instanceCount) && instanceData == old(instanceData)
        && instanceData[..] == old(instanceData[..]) && rng.calls == old(rng.calls)
    {
      meteorParams := Merge(meteorParams, u);
      if u.count.Some? && u.count.value != 0 && u.count.value != instanceCount {
        instanceCount := u.count.value;
        GenerateInstanceData();
      }
    }

    /** A zero-filled buffer of eight entries per meteor, then every meteor
        reset in index order. */
    method GenerateInstanceData()
      modifies this, rng
      ensures instanceCount == old(instanceCount) && meteorParams == old(meteorParams)
      ensures fresh(instanceData) && Valid()
      ensures (Meteors(), rng.calls) == Generate(meteorParams, rng.values, old(rng.calls), instanceCount)
    {
      instanceData := new real[instanceCount * FloatsPerInstance](_ => 0.0);
      ghost var n := instanceCount;
      ghost var params := meteorParams;
      ghost var at := rng.calls;
      ZeroRecords(instanceData[..], n);
      for i := 0 to instanceCount
        invariant instanceCount == n && meteorParams == params
        invariant fresh(instanceData) && Valid()
        invariant (Meteors(), rng.calls) == GeneratePrefix(params, rng.values, at, n, i)
      {
        ResetMeteor(i);
      }
    }

    /** Overwrites meteor index with a fresh random meteor, drawing six
        values in the order start x, start y, speed, lifetime, size,
        brightness. */
    method ResetMeteor(index: nat)
      requires Valid() && index < instanceCount
      modifies instanceData, rng
      ensures Valid()
      ensures (Meteors(), rng.calls) == Reset(old(Meteors()), meteorParams, rng.values, old(rng.calls), index)
    {
      ghost var at := rng.calls;
      ghost var data := instanceData[..];
      var offset := index * FloatsPerInstance;
      var r0 := rng.Next();
      var startX := -1.0 + r0 * 2.0;
      var r1 := rng.Next();
      var startY := -1.0 + r1 * 2.0;
      var r2 := rng.Next();
      var speed := (0.3 + r2 * 0.2) * meteorParams.speed;
      var velocityX := speed * 0.707;
      var velocityY := -speed * 0.707;
      var r3 := rng.Next();
      var lifetime := meteorParams.lifetime * (0.8 + r3 * 0.4);
      var currentTime := 0.0;
      var r4 := rng.Next();
      var size := meteorParams.size * (0.7 + r4 * 0.6);
      var r5 := rng.Next();
      var brightness := meteorParams.brightness * (0.6 + r5 * 0.4);
      ghost var m := Meteor(startX, startY, velocityX, velocityY, lifetime, currentTime, size, brightness);
      assert m == Fresh(meteorParams, FreshDraws(rng.values, at));
      instanceData[offset + 0] := startX;
      instanceData[offset + 1] := startY;
      instanceData[offset + 2] := velocityX;
      instanceData[offset + 3] := velocityY;
      instanceData[offset + 4] := lifetime;
      instanceData[offset + 5] := currentTime;
      instanceData[offset + 6] := size;
      instanceData[offset + 7] := brightness;
      WriteMeteor(data, instanceCount, index, m);
    }

    /** Advances every meteor's time by dt in index order, resetting those
        that outlive their lifetime; the result says whether the instance
        buffer is to be uploaded, which it is once any meteor was visited. */
    method UpdateTime(dt: real) returns (needsUpdate: bool)
      requires Valid()
      modifies instanceData, rng
      ensures Valid()
      ensures (Meteors(), rng.calls) == UpdatePrefix(old(Meteors()), meteorParams, rng.values, old(rng.calls), dt, instanceCount)
      ensures needsUpdate <==> instanceCount > 0
    {
      needsUpdate := false;
      ghost var ms := Meteors();
      ghost var at := rng.calls;
      for i := 0 to instanceCount
        invariant Valid()
        invariant (Meteors(), rng.calls) == UpdatePrefix(ms, meteorParams, rng.values, at, dt, i)
        invariant needsUpdate <==> i > 0
      {
        var offset := i * FloatsPerInstance;
        var lifetime := instanceData[offset + 4];
        var currentTime := instanceData[offset + 5];
        assert Meteors()[i].lifetime == lifetime && Meteors()[i].currentTime == currentTime;
        currentTime := currentTime + dt;
        if currentTime > lifetime {
          ResetMeteor(i);
          needsUpdate := true;
        } else {
          WriteTime(instanceData[..], instanceCount, i, currentTime);
          instanceData[offset + 5] := currentTime;
          needsUpdate := true;
        }
      }
    }

    method GetInstanceCount() returns (n: nat)
      ensures n == instanceCount
    {
      n := instanceCount;
    }
  }
}
