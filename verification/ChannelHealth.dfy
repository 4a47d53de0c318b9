/** The health of channel configs: the state machine driven by credential checks and by
    failures seen while sending, and the alerts it raises. */
module ChannelHealth {
  import opened Options

  type ConfigId = string
  type Time = nat

  const MINUTE_MS: nat := 60 * 1000
  const BACKOFF_INTERVALS_MS: seq<nat> := [5 * MINUTE_MS, 15 * MINUTE_MS, 60 * MINUTE_MS, 360 * MINUTE_MS]
  const FAILURE_THRESHOLD: nat := 2
  const ALERT_COOLDOWN_MS: nat := 30 * MINUTE_MS
  const COOLDOWNS_KEPT: nat := 100

  datatype Status = Active | Error | Disabled
  datatype HealthState = Healthy | Degraded | Unhealthy

  datatype Health = Health(status: Status, failures: nat, state: HealthState, nextCheck: Option<Time>)

  const FRESH := Health(Active, 0, Healthy, None)

  /** Everything that writes these fields. `Check` is one verification of the stored
      credentials, from either schedule. The last three come from other services:
      a token refresh, a failed reconnect attempt, a status typed in by a user. */
  datatype Op =
    | Check(ok: bool)
    | RuntimeFailure
    | Reverified
    | TokenRefreshed
    | ReconnectFailed
    | StatusSet(status: Status)

  function CalculateNextCheckInterval(consecutiveFailures: int): nat {
    var last := |BACKOFF_INTERVALS_MS| - 1;
    var idx := if consecutiveFailures - 1 < last then consecutiveFailures - 1 else last;
    BACKOFF_INTERVALS_MS[if 0 > idx then 0 else idx]
  }

  function Failed(h: Health, now: Time): Health {
    var n := h.failures + 1;
    Health(if n >= FAILURE_THRESHOLD then Error else h.status, n, if n == 1 then Degraded else Unhealthy,
           Some(now + CalculateNextCheckInterval(n)))
  }

  function Apply(h: Health, op: Op, now: Time): Health {
    match op
    case Check(ok) =>
      if h.status == Disabled then h
      else if ok then Health(if h.status == Error then Active else h.status, 0, Healthy, None)
      else Failed(h, now)
    case RuntimeFailure => h.(state := Degraded, nextCheck := Some(now + BACKOFF_INTERVALS_MS[0]))
    case Reverified => FRESH
    case TokenRefreshed => h.(failures := 0, state := Healthy, nextCheck := None)
    case ReconnectFailed => h.(status := Error, failures := h.failures + 1, state := Unhealthy)
    case StatusSet(s) => h.(status := s)
  }

  /** Whether the step emits a failure event that says the status has just become `error`. */
  predicate Announces(h: Health, op: Op) {
    op == Check(false) && h.status == Active && h.failures + 1 >= FAILURE_THRESHOLD
  }

  // ---------------------------------------------------------------- the health service

  datatype Notice =
    | HealthFailed(id: ConfigId, consecutiveFailures: nat, statusChanged: bool)
    | HealthRecovered(id: ConfigId)

  datatype CheckResult = Passed | CheckFailed | Skipped

  class ChannelHealthCheckService {
    var stored: map<ConfigId, Health>
    var emitted: seq<Notice>

    constructor (stored: map<ConfigId, Health>)
      ensures this.stored == stored && emitted == []
    {
      this.stored, emitted := stored, [];
    }

    method HandleVerifyFailure(id: ConfigId, now: Time) returns (r: CheckResult)
      requires id in stored && stored[id].status != Disabled
      modifies this
      ensures r == CheckFailed
      ensures stored == old(stored)[id := Apply(old(stored)[id], Check(false), now)]
      ensures emitted == old(emitted) + [HealthFailed(id, stored[id].failures,
                                                      Announces(old(stored)[id], Check(false)))]
    {
      var config := stored[id];
      var newFailures := config.failures + 1;
      var shouldMarkError := newFailures >= FAILURE_THRESHOLD;
      var newHealthState := if newFailures == 1 then Degraded else Unhealthy;
      var intervalMs := CalculateNextCheckInterval(newFailures);
      stored := stored[id := Health(if shouldMarkError then Error else config.status, newFailures,
                                    newHealthState, Some(now + intervalMs))];
      emitted := emitted + [HealthFailed(id, newFailures, shouldMarkError && config.status != Error)];
      r := CheckFailed;
    }

    /** `verified` is what decryption and the adapter came to; `None` for a config without
        stored credentials. Neither schedule selects a disabled config. */
    method VerifyAndUpdateConfig(id: ConfigId, verified: Option<bool>, now: Time) returns (r: CheckResult)
      requires id in stored && stored[id].status != Disabled
      modifies this
      ensures verified.None? ==> r == Skipped && stored == old(stored) && emitted == old(emitted)
      ensures verified.Some? ==>
                r == (if verified.value then Passed else CheckFailed) &&
                stored == old(stored)[id := Apply(old(stored)[id], Check(verified.value), now)]
      ensures verified == Some(false) ==>
                emitted == old(emitted) + [HealthFailed(id, stored[id].failures,
                                                        Announces(old(stored)[id], Check(false)))]
      ensures verified == Some(true) ==>
                emitted == old(emitted) +
                           if old(stored)[id].status == Error || old(stored)[id].state != Healthy
                           then [HealthRecovered(id)] else []
    {
      if verified.None? {
        return Skipped;
      }
      if !verified.value {
        r := HandleVerifyFailure(id, now);
        return;
      }
      var config := stored[id];
      stored := stored[id := Health(if config.status == Error then Active else config.status, 0, Healthy, None)];
      if config.status == Error || config.state != Healthy {
        emitted := emitted + [HealthRecovered(id)];
      }
      r := Passed;
    }

    method HandleRuntimeFailure(id: ConfigId, now: Time)
      requires id in stored
      modifies this
      ensures stored == old(stored)[id := Apply(old(stored)[id], RuntimeFailure, now)]
      ensures emitted == old(emitted)
    {
      stored := stored[id := stored[id].(state := Degraded, nextCheck := Some(now + BACKOFF_INTERVALS_MS[0]))];
    }
  }

  // ---------------------------------------------------------------- one config over a run

  datatype Timed = Timed(op: Op, now: Time)

  function After(ops: seq<Timed>): Health {
    if ops == [] then FRESH
    else Apply(After(ops[..|ops| - 1]), ops[|ops| - 1].op, ops[|ops| - 1].now)
  }

  /** The operations of the health service and of a successful re-verification. */
  predicate Own(op: Op) {
    op.Check? || op.RuntimeFailure? || op.Reverified?
  }

  ghost predicate OwnRun(ops: seq<Timed>) {
    forall i :: 0 <= i < |ops| ==> Own(ops[i].op)
  }

  /** Failed checks since the last check that passed, counted on the history alone. */
  ghost function FailedInARow(ops: seq<Timed>): nat {
    if ops == [] then 0
    else
      match ops[|ops| - 1].op
      case Check(false) => FailedInARow(ops[..|ops| - 1]) + 1
      case RuntimeFailure => FailedInARow(ops[..|ops| - 1])
      case _ => 0
  }

  /** When the history alone says the next fast check falls. */
  ghost function ScheduledFor(ops: seq<Timed>): Option<Time> {
    if ops == [] then None
    else
      var now := ops[|ops| - 1].now;
      match ops[|ops| - 1].op
      case Check(false) =>
        var n := FailedInARow(ops);
        Some(now + 60_000 * if n == 1 then 5 else if n == 2 then 15 else if n == 3 then 60 else 360)
      case RuntimeFailure => Some(now + 5 * 60_000)
      case _ => None
  }

  /** The health state as the history alone tells it: the last thing that happened decides. */
  ghost function StateFor(ops: seq<Timed>): HealthState {
    if ops == [] || ops[|ops| - 1].op in {Check(true), Reverified} then Healthy
    else if ops[|ops| - 1].op == Check(false) && FailedInARow(ops) >= FAILURE_THRESHOLD then Unhealthy
    else Degraded
  }

  /** The stored record says what the history says: failures in a row, `error` from the
      second on, the health state, healthy exactly when no fast check is scheduled, and when
      it is. */
  lemma {:induction false} HealthTellsTheHistory(ops: seq<Timed>)
    requires OwnRun(ops)
    ensures var h := After(ops);
            && h.failures == FailedInARow(ops)
            && h.status == (if h.failures >= FAILURE_THRESHOLD then Error else Active)
            && (h.state == Healthy <==> h.nextCheck.None?)
            && (h.failures > 0 ==> h.state != Healthy)
            && h.state == StateFor(ops)
            && h.nextCheck == ScheduledFor(ops)
  {
    if ops != [] {
      HealthTellsTheHistory(ops[..|ops| - 1]);
    }
  }

  /** The health service announces a failure exactly at the second failed check in a row. */
  lemma AnnouncedAtTheSecondFailure(ops: seq<Timed>, i: nat)
    requires OwnRun(ops) && i < |ops|
    ensures Announces(After(ops[..i]), ops[i].op) <==>
              ops[i].op == Check(false) && FailedInARow(ops[..i + 1]) == 2
  {
    HealthTellsTheHistory(ops[..i]);
    assert ops[..i + 1][..i] == ops[..i];
  }

  lemma OneMore(ops: seq<Timed>, t: Timed)
    ensures After(ops + [t]) == Apply(After(ops), t.op, t.now)
  {
    assert (ops + [t])[..|ops|] == ops;
  }

  /** `unhealthy` is left for `healthy` exactly by a check that passes or a re-verification,
      kept exactly by a check that fails, and left for `degraded` exactly by a runtime
      failure: with the status still `error` and two failures or more on record. */
  lemma UnhealthyIsLeftByAPass(ops: seq<Timed>, t: Timed)
    requires OwnRun(ops) && Own(t.op) && After(ops).state == Unhealthy
    ensures var h := After(ops + [t]);
            && (h.state == Healthy <==> t.op in {Check(true), Reverified})
            && (h.state == Unhealthy <==> t.op == Check(false))
            && (h.state == Degraded <==> t.op == RuntimeFailure)
            && (h.state == Degraded ==> h.status == Error && h.failures >= FAILURE_THRESHOLD)
  {
    HealthTellsTheHistory(ops);
    OneMore(ops, t);
  }

  predicate Truthful(h: Health) {
    && (h.status == Error <==> h.failures >= FAILURE_THRESHOLD)
    && (h.state == Healthy <==> h.nextCheck.None?)
  }

  /** When each of the other writers leaves the record truthful, and so when it does not: a
      token refresh forgets the failures of a config in error, a failed reconnect marks error
      on a first failure and schedules nothing, a typed status ignores the count. */
  lemma {:induction false} OthersMayBreakTheRecord(ops: seq<Timed>, now: Time, s: Status)
    requires OwnRun(ops)
    ensures Truthful(After(ops + [Timed(TokenRefreshed, now)])) <==> After(ops).status == Active
    ensures Truthful(After(ops + [Timed(ReconnectFailed, now)])) <==> FailedInARow(ops) >= 1
    ensures Truthful(After(ops + [Timed(StatusSet(s), now)])) <==>
            (s == Error <==> FailedInARow(ops) >= FAILURE_THRESHOLD)
  {
    HealthTellsTheHistory(ops);
    OneMore(ops, Timed(TokenRefreshed, now));
    OneMore(ops, Timed(ReconnectFailed, now));
    OneMore(ops, Timed(StatusSet(s), now));
  }

  // ---------------------------------------------------------------- every writer

  /** The step adds a failure to the record. Checks pass disabled configs by. */
  predicate Fails(h: Health, op: Op) {
    op == ReconnectFailed || (op == Check(false) && h.status != Disabled)
  }

  /** The step says that all is well. */
  predicate Clears(h: Health, op: Op) {
    op in {Reverified, TokenRefreshed} || (op == Check(true) && h.status != Disabled)
  }

  predicate FailsAt(ops: seq<Timed>, k: nat)
    requires k < |ops|
  {
    Fails(After(ops[..k]), ops[k].op)
  }

  predicate ClearsAt(ops: seq<Timed>, k: nat)
    requires k < |ops|
  {
    Clears(After(ops[..k]), ops[k].op)
  }

  ghost function FailuresFrom(ops: seq<Timed>, i: nat, j: nat): nat
    requires i <= j <= |ops|
  {
    if i == j then 0 else FailuresFrom(ops, i, j - 1) + if FailsAt(ops, j - 1) then 1 else 0
  }

  lemma {:induction false} FailuresAddUp(ops: seq<Timed>, i: nat, j: nat)
    requires i <= j <= |ops| && forall k :: i <= k < j ==> !ClearsAt(ops, k)
    ensures After(ops[..j]).failures == After(ops[..i]).failures + FailuresFrom(ops, i, j)
  {
    if i < j {
      FailuresAddUp(ops, i, j - 1);
      assert ops[..j][..j - 1] == ops[..j - 1] && !ClearsAt(ops, j - 1);
    }
  }

  /** Whoever writes what, the failures on record are those since the last time all was well. */
  lemma FailuresSinceCleared(ops: seq<Timed>, i: nat)
    requires i <= |ops| && (i == 0 || ClearsAt(ops, i - 1)) && forall k :: i <= k < |ops| ==> !ClearsAt(ops, k)
    ensures After(ops).failures == FailuresFrom(ops, i, |ops|)
  {
    FailuresAddUp(ops, i, |ops|);
    assert ops[..|ops|] == ops;
    if i > 0 {
      assert ops[..i][..i - 1] == ops[..i - 1];
    }
  }

  /** And of the other fields, who sets them to what. */
  lemma WrittenExactly(h: Health, op: Op, now: Time)
    ensures var g := Apply(h, op, now);
            && (g.state == Healthy <==> Clears(h, op) || (h.state == Healthy && !Fails(h, op) && op != RuntimeFailure))
            && (g.state == Unhealthy <==>
                  || (Fails(h, op) && (op == ReconnectFailed || h.failures > 0))
                  || (h.state == Unhealthy && !Fails(h, op) && !Clears(h, op) && op != RuntimeFailure))
            && (g.nextCheck.None? <==>
                  || Clears(h, op)
                  || (h.nextCheck.None? && op != RuntimeFailure && (op == ReconnectFailed || !Fails(h, op))))
            && (g.status == Disabled <==>
                  || op == StatusSet(Disabled)
                  || (h.status == Disabled && !op.StatusSet? && op !in {Reverified, ReconnectFailed}))
  {
  }

  /** What can take a config out of `error`. */
  predicate Releases(op: Op) {
    op == Check(true) || op == Reverified || (op.StatusSet? && op.status != Error)
  }

  lemma {:induction false} ErrorUntilReleased(ops: seq<Timed>, i: nat, j: nat)
    requires i <= j <= |ops| && After(ops[..i]).status == Error
    requires forall k :: i <= k < j ==> !Releases(ops[k].op)
    ensures After(ops[..j]).status == Error
  {
    if i < j {
      ErrorUntilReleased(ops, i, j - 1);
      assert ops[..j][..j - 1] == ops[..j - 1];
    }
  }

  /** Whoever writes what, between two announced failures the config was released. */
  lemma AnnouncementsAlternate(ops: seq<Timed>, i: nat, j: nat)
    requires i < j < |ops| && Announces(After(ops[..i]), ops[i].op) && Announces(After(ops[..j]), ops[j].op)
    ensures exists k :: i < k < j && Releases(ops[k].op)
  {
    if forall k :: i < k < j ==> !Releases(ops[k].op) {
      assert ops[..i + 1][..i] == ops[..i];
      ErrorUntilReleased(ops, i + 1, j);
      assert false;
    }
  }

  // ---------------------------------------------------------------- checks that overlap

  /** One config while checks of it are under way: its record, and for each check the record
      it was given. The two schedules do not wait for each other. */
  datatype Watch = Watch(h: Health, running: multiset<Health>)

  datatype Turn =
    | Begins
    | Ends(read: Health, ok: bool, now: Time)
    | Other(op: Op, now: Time)

  predicate CanTurn(s: Watch, t: Turn) {
    match t
    case Begins => s.h.status != Disabled
    case Ends(read, _, _) => read in s.running
    case Other(op, _) => !op.Check?
  }

  /** A check that ends writes what follows from the record it was given, whatever the record
      has become since. */
  function Turned(s: Watch, t: Turn): Watch
    requires CanTurn(s, t)
  {
    match t
    case Begins => s.(running := s.running + multiset{s.h})
    case Ends(read, ok, now) => Watch(Apply(read, Check(ok), now), s.running - multiset{read})
    case Other(op, now) => s.(h := Apply(s.h, op, now))
  }

  /** A check with nothing in between, and every other write, is the one step taken above. */
  lemma UnbrokenTurnIsApply(s: Watch, ok: bool, op: Op, now: Time)
    ensures s.h.status != Disabled ==>
              Turned(Turned(s, Begins), Ends(s.h, ok, now)) == Watch(Apply(s.h, Check(ok), now), s.running)
    ensures !op.Check? ==> Turned(s, Other(op, now)) == Watch(Apply(s.h, op, now), s.running)
  {
    assert s.running + multiset{s.h} - multiset{s.h} == s.running;
  }

  predicate Frees(t: Turn) {
    match t
    case Begins => false
    case Ends(_, ok, _) => ok
    case Other(op, _) => Releases(op)
  }

  predicate Tells(t: Turn) {
    t.Ends? && Announces(t.read, Check(t.ok))
  }

  /** A continuation of `s` in which nothing releases the config. */
  ghost predicate Unreleased(s: Watch, tr: seq<Watch>, turns: seq<Turn>) {
    && |tr| == |turns| + 1 && tr[0] == s
    && forall k {:trigger turns[k]} :: 0 <= k < |turns| ==>
         CanTurn(tr[k], turns[k]) && !Frees(turns[k]) && tr[k + 1] == Turned(tr[k], turns[k])
  }

  ghost predicate Quiet(s: Watch) {
    forall tr, turns, k :: Unreleased(s, tr, turns) && 0 <= k < |turns| ==> !Tells(turns[k])
  }

  lemma QuietGoesOn(s: Watch, t: Turn)
    requires Quiet(s) && CanTurn(s, t) && !Frees(t)
    ensures !Tells(t) && Quiet(Turned(s, t))
  {
    var u := Turned(s, t);
    assert Unreleased(s, [s, u], [t]) && [t][0] == t;
    forall tr, turns, k | Unreleased(u, tr, turns) && 0 <= k < |turns| ensures !Tells(turns[k]) {
      var tr2, turns2 := [s] + tr, [t] + turns;
      forall i {:trigger turns2[i]} | 0 <= i < |turns2|
        ensures CanTurn(tr2[i], turns2[i]) && !Frees(turns2[i]) && tr2[i + 1] == Turned(tr2[i], turns2[i])
      {
        if i > 0 {
          assert turns2[i] == turns[i - 1];
        }
      }
      assert Unreleased(s, tr2, turns2) && turns2[k + 1] == turns[k];
    }
  }

  /** Neither the record nor what any running check was given says `active`. */
  predicate NowhereActive(s: Watch) {
    s.h.status != Active && forall c :: c in s.running ==> c.status != Active
  }

  lemma {:induction false} NowhereActiveUntilReleased(s: Watch, tr: seq<Watch>, turns: seq<Turn>, k: nat)
    requires Unreleased(s, tr, turns) && NowhereActive(s) && k < |tr|
    ensures NowhereActive(tr[k])
  {
    if k > 0 {
      NowhereActiveUntilReleased(s, tr, turns, k - 1);
      assert CanTurn(tr[k - 1], turns[k - 1]);
    }
  }

  lemma ActiveCheckTells(s: Watch, c: Health)
    requires c in s.running && c.status == Active
    ensures !Quiet(s)
  {
    if Quiet(s) {
      QuietGoesOn(s, Ends(c, false, 0));
      var t := Turned(s, Ends(c, false, 0));
      QuietGoesOn(t, Begins);
      QuietGoesOn(Turned(t, Begins), Ends(t.h, false, 0));
    }
  }

  /** Without a release no failure will be announced if and only if neither the record nor
      any check under way has the config as active. */
  lemma {:induction false} QuietExactly(s: Watch)
    ensures Quiet(s) <==> NowhereActive(s)
  {
    if NowhereActive(s) {
      forall tr, turns, k | Unreleased(s, tr, turns) && 0 <= k < |turns| ensures !Tells(turns[k]) {
        NowhereActiveUntilReleased(s, tr, turns, k);
        assert CanTurn(tr[k], turns[k]);
      }
    } else if Quiet(s) {
      if s.h.status == Active {
        QuietGoesOn(s, Begins);
        ActiveCheckTells(Turned(s, Begins), s.h);
      } else {
        var c :| c in s.running && c.status == Active;
        ActiveCheckTells(s, c);
      }
    }
  }

  /** After an announced failure a second one can follow with no release between them if and
      only if another check that was given the config as active is still under way. */
  lemma AnnouncedOnceExactly(s: Watch, t: Turn)
    requires CanTurn(s, t) && Tells(t)
    ensures Quiet(Turned(s, t)) <==> forall c :: c in s.running - multiset{t.read} ==> c.status != Active
  {
    QuietExactly(Turned(s, t));
  }

  /** So it happens: both schedules begin after the first failure, and both announce. */
  lemma BothSchedulesAnnounce()
    ensures exists tr, turns :: Unreleased(Watch(Failed(FRESH, 0), multiset{}), tr, turns)
                                && |turns| == 4 && Tells(turns[2]) && Tells(turns[3])
  {
    var once := Failed(FRESH, 0);
    var s0 := Watch(once, multiset{});
    var s1 := Turned(s0, Begins);
    var s2 := Turned(s1, Begins);
    var s3 := Turned(s2, Ends(once, false, 0));
    var turns := [Begins, Begins, Ends(once, false, 0), Ends(once, false, 0)];
    assert Unreleased(s0, [s0, s1, s2, s3, Turned(s3, Ends(once, false, 0))], turns);
  }

  // ---------------------------------------------------------------- the fast schedule

  predicate Due(h: Health, now: Time) {
    h.nextCheck.Some? && h.nextCheck.value <= now
  }

  /** A fast check is due at `m`, a moment between steps `k` and `k + 1`. */
  predicate DueAt(ops: seq<Timed>, k: nat, m: Time)
    requires k + 1 < |ops|
  {
    ops[k].now <= m <= ops[k + 1].now && Due(After(ops[..k + 1]), m)
  }

  ghost predicate DueBetween(ops: seq<Timed>, k: nat)
    requires k + 1 < |ops|
  {
    exists m :: DueAt(ops, k, m)
  }

  lemma DueAfterRuntimeFailure(ops: seq<Timed>, k: nat)
    requires k + 1 < |ops| && ops[k].op == RuntimeFailure
    ensures DueBetween(ops, k) <==> ops[k].now + 5 * 60_000 <= ops[k + 1].now
  {
    assert ops[..k + 1][..k] == ops[..k];
    var due := ops[k].now + 5 * 60_000;
    assert After(ops[..k + 1]).nextCheck == Some(due);
    assert due <= ops[k + 1].now ==> DueAt(ops, k, due);
  }

  /** While sending keeps failing, the fast check each failure asks for comes due at some
      moment if and only if two neighbouring failures are at least five minutes apart: every
      failure moves it on, although it was to be left alone once scheduled. After the last of
      them it is due five minutes later, and not before. */
  lemma RuntimeFailuresPostpone(ops: seq<Timed>, i: nat, j: nat)
    requires i < j <= |ops| && forall k :: i <= k < j ==> ops[k].op == RuntimeFailure
    ensures (exists k :: i <= k < j - 1 && DueBetween(ops, k))
            <==> exists k :: i <= k < j - 1 && ops[k].now + 5 * 60_000 <= ops[k + 1].now
    ensures forall now :: Due(After(ops[..j]), now) <==> ops[j - 1].now + 5 * 60_000 <= now
  {
    assert ops[..j][..j - 1] == ops[..j - 1] && ops[..j][j - 1] == ops[j - 1];
    forall k | i <= k < j - 1
      ensures DueBetween(ops, k) <==> ops[k].now + 5 * 60_000 <= ops[k + 1].now
    {
      DueAfterRuntimeFailure(ops, k);
    }
  }

  // ---------------------------------------------------------------- alert cooldown

  function Prune(m: map<ConfigId, Time>, cutoff: int): map<ConfigId, Time> {
    map k | k in m && m[k] >= cutoff :: m[k]
  }

  function LastAlert(m: map<ConfigId, Time>, id: ConfigId): Time {
    if id in m then m[id] else 0
  }

  predicate Allowed(m: map<ConfigId, Time>, id: ConfigId, now: Time) {
    now - LastAlert(m, id) >= ALERT_COOLDOWN_MS
  }

  function Asked(m: map<ConfigId, Time>, id: ConfigId, now: Time): map<ConfigId, Time> {
    if !Allowed(m, id, now) then m
    else
      var noted := m[id := now];
      if |noted| > COOLDOWNS_KEPT then Prune(noted, now - 2 * ALERT_COOLDOWN_MS) else noted
  }

  class ChannelAlertService {
    var alertCooldowns: map<ConfigId, Time>

    constructor ()
      ensures alertCooldowns == map[]
    {
      alertCooldowns := map[];
    }

    method ShouldAlert(id: ConfigId, now: Time) returns (r: bool)
      modifies this
      ensures r == Allowed(old(alertCooldowns), id, now)
      ensures alertCooldowns == Asked(old(alertCooldowns), id, now)
    {
      var lastAlert := if id in alertCooldowns then alertCooldowns[id] else 0;
      if now - lastAlert < ALERT_COOLDOWN_MS {
        return false;
      }
      alertCooldowns := alertCooldowns[id := now];
      if |alertCooldowns| > COOLDOWNS_KEPT {
        var cutoff := now - 2 * ALERT_COOLDOWN_MS;
        ghost var noted := alertCooldowns;
        var keys := alertCooldowns.Keys;
        while keys != {}
          invariant keys <= alertCooldowns.Keys <= noted.Keys
          invariant forall k :: k in alertCooldowns ==> alertCooldowns[k] == noted[k]
          invariant forall k :: k in noted && k !in alertCooldowns ==> noted[k] < cutoff
          invariant forall k :: k in alertCooldowns && k !in keys ==> noted[k] >= cutoff
          decreases |keys|
        {
          var key :| key in keys;
          keys := keys - {key};
          if alertCooldowns[key] < cutoff {
            alertCooldowns := alertCooldowns - {key};
          }
        }
        assert alertCooldowns == Prune(noted, cutoff);
      }
      r := true;
    }

    /** Returns whether the tenant's room is pushed an alert. */
    method HandleHealthCheckFailed(id: ConfigId, statusChanged: bool, now: Time) returns (pushed: bool)
      modifies this
      ensures pushed == (statusChanged && Allowed(old(alertCooldowns), id, now))
      ensures alertCooldowns == if statusChanged then Asked(old(alertCooldowns), id, now) else old(alertCooldowns)
    {
      pushed := statusChanged;
      if statusChanged {
        pushed := ShouldAlert(id, now);
      }
    }
  }

  /** What an alert leaves remembered: itself, and of more than a hundred only those of the
      last hour. */
  lemma KeptExactly(m: map<ConfigId, Time>, id: ConfigId, now: Time, other: ConfigId)
    requires Allowed(m, id, now)
    ensures var kept := Asked(m, id, now);
            && id in kept && kept[id] == now
            && (other != id ==>
                  && (other in kept <==> other in m && (|m.Keys + {id}| <= 100 || now - m[other] <= 60 * 60_000))
                  && (other in kept ==> kept[other] == m[other]))
  {
    assert m[id := now].Keys == m.Keys + {id};
  }

  datatype Ask = Ask(id: ConfigId, now: Time)

  ghost predicate Clock(asks: seq<Ask>) {
    forall i, j :: 0 <= i < j < |asks| ==> asks[i].now <= asks[j].now
  }

  function Cooldowns(asks: seq<Ask>): map<ConfigId, Time> {
    if asks == [] then map[]
    else Asked(Cooldowns(asks[..|asks| - 1]), asks[|asks| - 1].id, asks[|asks| - 1].now)
  }

  /** The cooldown remembered for ever: when `id` was last alerted, or 0. */
  ghost function Remembered(asks: seq<Ask>, id: ConfigId): Time {
    if asks == [] then 0
    else
      var a := asks[|asks| - 1];
      var before := Remembered(asks[..|asks| - 1], id);
      if a.id == id && a.now - before >= ALERT_COOLDOWN_MS then a.now else before
  }

  /** Forgotten or not, the map says what memory says as far as a cooldown can tell. */
  ghost predicate Recalls(m: map<ConfigId, Time>, id: ConfigId, last: Time, now: Time) {
    LastAlert(m, id) == last || (id !in m && last < now - 2 * ALERT_COOLDOWN_MS)
  }

  lemma {:induction false} PruningForgetsNothingRelevant(asks: seq<Ask>, id: ConfigId, now: Time)
    requires Clock(asks) && (asks != [] ==> asks[|asks| - 1].now <= now)
    ensures Recalls(Cooldowns(asks), id, Remembered(asks, id), now)
  {
    if asks != [] {
      var n := |asks| - 1;
      PruningForgetsNothingRelevant(asks[..n], id, asks[n].now);
    }
  }

  /** The pruned map answers every request as a map that remembers every alert would. */
  lemma PrunedAnswersAsFull(asks: seq<Ask>, id: ConfigId, now: Time)
    requires Clock(asks) && (asks != [] ==> asks[|asks| - 1].now <= now)
    ensures Allowed(Cooldowns(asks), id, now) <==> now - Remembered(asks, id) >= 30 * 60_000
  {
    PruningForgetsNothingRelevant(asks, id, now);
  }

  lemma {:induction false} RememberedSince(asks: seq<Ask>, i: nat, j: nat)
    requires Clock(asks) && i < j <= |asks|
    requires Allowed(Cooldowns(asks[..i]), asks[i].id, asks[i].now)
    ensures Remembered(asks[..j], asks[i].id) >= asks[i].now
  {
    assert asks[..j][..j - 1] == asks[..j - 1];
    if j == i + 1 {
      PrunedAnswersAsFull(asks[..i], asks[i].id, asks[i].now);
    } else {
      RememberedSince(asks, i, j - 1);
    }
  }

  /** Two alerts for one config are at least thirty minutes apart. */
  lemma AlertsAreSpaced(asks: seq<Ask>, i: nat, j: nat)
    requires Clock(asks) && i < j < |asks| && asks[i].id == asks[j].id
    requires Allowed(Cooldowns(asks[..i]), asks[i].id, asks[i].now)
    requires Allowed(Cooldowns(asks[..j]), asks[j].id, asks[j].now)
    ensures asks[j].now - asks[i].now >= 30 * 60_000
  {
    RememberedSince(asks, i, j);
    PrunedAnswersAsFull(asks[..j], asks[j].id, asks[j].now);
  }
}
