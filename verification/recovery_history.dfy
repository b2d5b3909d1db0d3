/** What the recovery has done to its durable record and to the radio, as one
    history across restarts (bluetooth_recovery.py:601-628, 695-719, 817-831),
    and what a lawful history implies. */
module RecoveryHistory {
  import opened Options
  import opened RestoreJournal
  import opened Recovery

  /** One check of the phone: what was seen, whether the record permitted a
      cycle of the free radio, and the oldest proof of health that counted. */
  datatype Check = Check(at: int, state: AdapterState, seen: Observation, permitted: bool, floor: int)
  {
    predicate AgainstRadio() {
      && !seen.healthy && !seen.busy && seen.eligible && permitted
      && state.powered && state.safe && state.leResetSafe
    }

    predicate Excused() { !seen.healthy && seen.busy }

    predicate Proven() {
      seen.healthy && seen.proof.Some? && seen.proof.value >= floor && at - seen.proof.value <= HEALTH_FRESH_SECONDS
    }
  }

  /** From check `i` on, no two checks are further apart than 90 seconds. */
  ghost predicate Steady(log: seq<Check>, i: nat) {
    && i < |log|
    && forall j | i < j < |log| :: log[j].at - log[j - 1].at <= HEALTH_FRESH_SECONDS
  }

  /** Every check from `i` on but the busy ones was a case for a power cycle. */
  ghost predicate Case(log: seq<Check>, i: nat) {
    Steady(log, i) && log[i].AgainstRadio() && forall j | i <= j < |log| :: log[j].AgainstRadio() || log[j].Excused()
  }

  /** Every check from `i` on proved the phone healthy. */
  ghost predicate Healthy(log: seq<Check>, i: nat) {
    Steady(log, i) && forall j | i <= j < |log| :: log[j].Proven()
  }

  ghost predicate CaseSince(log: seq<Check>, t: int) { exists i: nat :: Case(log, i) && log[i].at == t }

  ghost predicate HealthySince(log: seq<Check>, t: int) { exists i: nat :: Healthy(log, i) && log[i].at == t }

  datatype Mark =
    | Attempt(wall: int, address: string, phone: string)
    | PowerOff
    | Claimed(address: string, phone: string)
    | Forgotten
    | Rearmed(checks: seq<Check>)

  function Apply(b: Budget, m: Mark): Budget {
    match m
    case Attempt(wall, _, _) => b.(unspent := false, lastAttempt := Some(wall))
    case PowerOff => b
    case Claimed(address, phone) =>
      b.(adapter := Some(address), phone := Some(phone), verified := true, unspent := true)
    case Forgotten => b.(verified := false, unspent := false)
    case Rearmed(_) => b.(unspent := true)
  }

  /** The durable record after a history. */
  function Replay(b: Budget, h: seq<Mark>): Budget {
    if h == [] then b else Apply(Replay(b, h[..|h| - 1]), h[|h| - 1])
  }

  /** The last of the attempts and power-offs is an attempt. */
  predicate Armed(h: seq<Mark>) {
    h != [] && (match h[|h| - 1]
                case Attempt(_, _, _) => true
                case PowerOff => false
                case Claimed(_, _) => Armed(h[..|h| - 1])
                case Forgotten => Armed(h[..|h| - 1])
                case Rearmed(_) => Armed(h[..|h| - 1]))
  }

  /** At least ten minutes of proven health with no gap. */
  ghost predicate SustainedHealth(checks: seq<Check>) {
    exists i: nat :: Healthy(checks, i) && checks[|checks| - 1].at - checks[i].at >= REARM_SECONDS
  }

  ghost predicate LawfulMark(b: Budget, h: seq<Mark>, m: Mark) {
    match m
    case Attempt(wall, address, phone) => Replay(b, h).Permits(address, phone, wall)
    case PowerOff => Armed(h) && !Replay(b, h).unspent
    case Claimed(address, phone) => !Replay(b, h).Known(address, phone)
    case Forgotten => true
    case Rearmed(checks) => SustainedHealth(checks)
  }

  ghost predicate Lawful(b: Budget, h: seq<Mark>) {
    h == [] || (Lawful(b, h[..|h| - 1]) && LawfulMark(b, h[..|h| - 1], h[|h| - 1]))
  }

  lemma LawfulMore(b: Budget, h: seq<Mark>, m: Mark)
    requires Lawful(b, h) && LawfulMark(b, h, m)
    ensures Lawful(b, h + [m]) && Replay(b, h + [m]) == Apply(Replay(b, h), m)
  {
    assert (h + [m])[..|h|] == h;
  }

  lemma {:induction false} LawfulPrefix(b: Budget, h: seq<Mark>, n: nat)
    requires Lawful(b, h) && n <= |h|
    ensures Lawful(b, h[..n])
    decreases |h|
  {
    if n == |h| {
      assert h[..n] == h;
    } else {
      LawfulPrefix(b, h[..|h| - 1], n);
      assert h[..|h| - 1][..n] == h[..n];
    }
  }

  lemma LawfulAt(b: Budget, h: seq<Mark>, n: nat)
    requires Lawful(b, h) && n < |h|
    ensures Lawful(b, h[..n]) && LawfulMark(b, h[..n], h[n])
    ensures Replay(b, h[..n + 1]) == Apply(Replay(b, h[..n]), h[n])
  {
    LawfulPrefix(b, h, n + 1);
    assert h[..n + 1][..n] == h[..n];
  }

  /** The record remembers the wall time of the last attempt. */
  lemma {:induction false} LastAttemptIsRecorded(b: Budget, h: seq<Mark>, a: nat, n: nat)
    requires Lawful(b, h) && a < n <= |h| && h[a].Attempt?
    ensures Replay(b, h[..n]).lastAttempt.Some? && Replay(b, h[..n]).lastAttempt.value >= h[a].wall
    decreases n
  {
    LawfulAt(b, h, n - 1);
    if n > a + 1 {
      LastAttemptIsRecorded(b, h, a, n - 1);
    }
  }

  /** The hourly limit: any two attempts, in whatever processes and for
      whatever phones, have recorded times at least an hour apart. */
  lemma {:induction false} AttemptsAreAnHourApart(b: Budget, h: seq<Mark>, i: nat, j: nat)
    requires Lawful(b, h) && i < j < |h| && h[i].Attempt? && h[j].Attempt?
    ensures h[j].wall - h[i].wall >= HOURLY_LIMIT_SECONDS
  {
    LawfulAt(b, h, j);
    LastAttemptIsRecorded(b, h, i, j);
  }

  /** Between `i` and `j` the pair is neither forgotten nor another one. */
  ghost predicate SamePair(h: seq<Mark>, i: nat, j: nat, address: string, phone: string) {
    forall k | i < k < j && k < |h| ::
      !h[k].Forgotten? && (h[k].Claimed? ==> h[k].address == address && h[k].phone == phone)
  }

  lemma {:induction false} SpentUntilRearmed(b: Budget, h: seq<Mark>, i: nat, n: nat)
    requires Lawful(b, h) && i < n <= |h| && h[i].Attempt?
    requires SamePair(h, i, n, h[i].address, h[i].phone)
    requires forall k | i < k < n :: !h[k].Rearmed?
    ensures Replay(b, h[..n]).Known(h[i].address, h[i].phone) && !Replay(b, h[..n]).unspent
    decreases n
  {
    LawfulAt(b, h, n - 1);
    if n > i + 1 {
      SpentUntilRearmed(b, h, i, n - 1);
    }
  }

  /** One cycle per outage: between two attempts for a pair that was neither
      changed nor forgotten lie ten minutes of proven health. */
  lemma {:induction false} HealthBetweenAttempts(b: Budget, h: seq<Mark>, i: nat, j: nat)
    requires Lawful(b, h) && i < j < |h| && h[i].Attempt? && h[j].Attempt?
    requires SamePair(h, i, j, h[i].address, h[i].phone)
    ensures exists k | i < k < j :: h[k].Rearmed? && SustainedHealth(h[k].checks)
  {
    if forall k | i < k < j :: !h[k].Rearmed? {
      SpentUntilRearmed(b, h, i, j);
      LawfulAt(b, h, j);
    } else {
      var k :| i < k < j && h[k].Rearmed?;
      LawfulAt(b, h, k);
    }
  }

  /** Each power-off follows an attempt of its own. */
  lemma {:induction false} ArmedByAttempt(h: seq<Mark>) returns (a: nat)
    requires Armed(h)
    ensures a < |h| && h[a].Attempt? && forall k | a < k < |h| :: !h[k].PowerOff? && !h[k].Attempt?
  {
    var last := |h| - 1;
    if h[last].Attempt? {
      a := last;
    } else {
      a := ArmedByAttempt(h[..last]);
      forall k | a < k < |h|
        ensures !h[k].PowerOff? && !h[k].Attempt?
      {
        if k < last {
          assert h[..last][k] == h[k];
        }
      }
    }
  }

  /** The budget: of any two power-offs, the later one has an attempt between
      them that was made an hour or more after the earlier one's, and, unless
      the pair was changed or forgotten, ten minutes of proven health too. */
  lemma {:induction false} PowerOffsAreSpaced(b: Budget, h: seq<Mark>, i: nat, j: nat)
    requires Lawful(b, h) && i < j < |h| && h[i].PowerOff? && h[j].PowerOff?
    ensures exists x, y | 0 <= x < i < y < j ::
      && h[x].Attempt? && h[y].Attempt? && h[y].wall - h[x].wall >= HOURLY_LIMIT_SECONDS
      && (forall k | x < k < i :: !h[k].PowerOff? && !h[k].Attempt?)
      && (SamePair(h, x, y, h[x].address, h[x].phone) ==>
            exists k | x < k < y :: h[k].Rearmed? && SustainedHealth(h[k].checks))
  {
    LawfulAt(b, h, i);
    LawfulAt(b, h, j);
    var x := ArmedByAttempt(h[..i]);
    var y := ArmedByAttempt(h[..j]);
    assert h[..j][i] == h[i];
    AttemptsAreAnHourApart(b, h, x, y);
    if SamePair(h, x, y, h[x].address, h[x].phone) {
      HealthBetweenAttempts(b, h, x, y);
    }
    assert forall k | x < k < i :: h[..i][k] == h[k];
  }
}
