/** The key store and its limit on guessing passwords (backend/internal/keystore/keystore.go). Times are in seconds. */
module Keystore {
  import opened Wrappers

  const MAX_FAILED_ATTEMPTS: nat := 5
  const LOCKOUT: real := 30.0

  /**
   * The calls that touch the counter, with the clock readings each makes. An attempt (VerifyPassword or
   * TryActivate) reads the clock once for the check and, after a failed decryption, perhaps once more.
   */
  datatype Event =
    | Attempt(at: real, decrypts: bool, recorded: real)
    | RecordFailure(at: real)
    | Unlock(at: real, hasKey: bool)
    | Switch(at: real)

  datatype State = State(failed: nat, lockedUntil: real)

  const INITIAL := State(0, 0.0)

  function Start(e: Event): real { e.at }

  function End(e: Event): real { if e.Attempt? then e.recorded else e.at }

  /** Clock readings never go back. */
  ghost predicate Monotone(events: seq<Event>) {
    && (forall i :: 0 <= i < |events| ==> 0.0 <= Start(events[i]) <= End(events[i]))
    && forall i, j :: 0 <= i < j < |events| ==> End(events[i]) <= Start(events[j])
  }

  function Fail(s: State, now: real): State {
    State(s.failed + 1, if s.failed + 1 >= MAX_FAILED_ATTEMPTS then now + LOCKOUT else s.lockedUntil)
  }

  function Step(s: State, e: Event): State {
    match e
    case Attempt(at, decrypts, recorded) =>
      if at < s.lockedUntil then s else if decrypts then s.(failed := 0) else Fail(s, recorded)
    case RecordFailure(at) => Fail(s, at)
    case Unlock(at, hasKey) => if at < s.lockedUntil || !hasKey then s else s.(failed := 0)
    case Switch(_) => s.(failed := 0)
  }

  /** The state after the first n events. */
  function Run(events: seq<Event>, n: nat): State
    requires n <= |events|
  {
    if n == 0 then INITIAL else Step(Run(events, n - 1), events[n - 1])
  }

  /** A password was tried and found wrong. */
  predicate FailedDecryption(s: State, e: Event) {
    e.Attempt? && e.at >= s.lockedUntil && !e.decrypts
  }

  /** The counter goes back to zero. */
  predicate Resets(s: State, e: Event) {
    match e
    case Attempt(at, decrypts, _) => at >= s.lockedUntil && decrypts
    case RecordFailure(_) => false
    case Unlock(at, hasKey) => at >= s.lockedUntil && hasKey
    case Switch(_) => true
  }

  /** The wrong passwords tried by events i up to j. */
  function Failures(events: seq<Event>, i: nat, j: nat): nat
    requires i <= j <= |events|
    decreases j
  {
    if i == j then 0
    else Failures(events, i, j - 1) + if FailedDecryption(Run(events, j - 1), events[j - 1]) then 1 else 0
  }

  ghost predicate NoReset(events: seq<Event>, i: nat, j: nat)
    requires i <= j <= |events|
  {
    forall k :: i <= k < j ==> !Resets(Run(events, k), events[k])
  }

  /** A lock never lasts longer than the lockout from now. */
  lemma {:induction false} LockIsShort(events: seq<Event>, n: nat)
    requires Monotone(events) && n <= |events|
    ensures Run(events, n).lockedUntil <= LOCKOUT + if n == 0 then 0.0 else End(events[n - 1])
  {
    if n == 0 {
    } else {
      LockIsShort(events, n - 1);
    }
  }

  /** The lockouts that n wrong passwords cost, the first four being free. */
  function Price(n: int): real { if n < MAX_FAILED_ATTEMPTS then 0.0 else Price(n - 1) + LOCKOUT }

  /** Every wrong password counts, and from the fifth on each is paid for with a full lockout. */
  predicate Paid(s: State, begun: real, n: nat) {
    s.failed >= n && (n >= MAX_FAILED_ATTEMPTS ==> s.lockedUntil >= begun + Price(n))
  }

  lemma StepPays(s: State, e: Event, begun: real, n: nat)
    requires Paid(s, begun, n) && !Resets(s, e) && begun <= Start(e) <= End(e) && s.lockedUntil <= LOCKOUT + Start(e)
    ensures Paid(Step(s, e), begun, n + if FailedDecryption(s, e) then 1 else 0)
    ensures FailedDecryption(s, e) ==> End(e) >= begun + Price(n)
  {
  }

  lemma {:induction false} FailuresArePaid(events: seq<Event>, i: nat, j: nat)
    requires Monotone(events) && i < j <= |events| && NoReset(events, i, j)
    ensures Paid(Run(events, j), Start(events[i]), Failures(events, i, j))
    ensures End(events[j - 1]) >= Start(events[i]) + Price(Failures(events, i, j) - 1)
    decreases j
  {
    assert Price(-1) == 0.0;
    LastEventFacts(events, i, j);
    hide Step, FailedDecryption, Resets, Price, Monotone, NoReset;
    if i < j - 1 { FailuresArePaid(events, i, j - 1); }
    var n := Failures(events, i, j - 1);
    assert Paid(Run(events, j - 1), Start(events[i]), n);
    hide Paid;
    StepPays(Run(events, j - 1), events[j - 1], Start(events[i]), n);
  }

  lemma LastEventFacts(events: seq<Event>, i: nat, j: nat)
    requires Monotone(events) && i < j <= |events| && NoReset(events, i, j)
    ensures !Resets(Run(events, j - 1), events[j - 1]) && NoReset(events, i, j - 1)
    ensures Start(events[i]) <= Start(events[j - 1]) <= End(events[j - 1])
    ensures i < j - 1 ==> End(events[j - 2]) <= Start(events[j - 1])
    ensures Run(events, j - 1).lockedUntil <= LOCKOUT + Start(events[j - 1])
  {
    hide Resets, Run;
    LockIsShort(events, j - 1);
  }

  lemma {:induction false} PriceIsLinear(n: nat)
    ensures Price(n) == if n < MAX_FAILED_ATTEMPTS then 0.0 else LOCKOUT * (n - 4) as real
  {
    if n == 0 {
    } else {
      PriceIsLinear(n - 1);
    }
  }

  /**
   * Over any run with a clock that does not go back: in W seconds without a success or another reset, at most
   * 5 + W / 30 wrong passwords are tried.
   */
  lemma RateLimit(events: seq<Event>, i: nat, j: nat)
    requires Monotone(events) && i < j <= |events| && NoReset(events, i, j)
    ensures var w := End(events[j - 1]) - Start(events[i]);
            w >= 0.0 && Failures(events, i, j) <= MAX_FAILED_ATTEMPTS + (w / LOCKOUT).Floor
  {
    var n := Failures(events, i, j);
    FailuresArePaid(events, i, j);
    if n > 0 { PriceIsLinear(n - 1); }
  }

  class KeyStore {
    var apiKey: array?<int>
    var unlocked: bool
    var failedAttempts: nat
    var lockedUntil: real
    ghost var history: seq<Event>

    ghost predicate Valid()
      reads this
    {
      && State(failedAttempts, lockedUntil) == Run(history, |history|)
      && (unlocked ==> apiKey != null)
    }

    ghost function Bytes(): set<object>
      reads this
    {
      if apiKey == null then {} else {apiKey}
    }

    constructor ()
      ensures Valid() && history == [] && !unlocked && apiKey == null
    {
      apiKey, unlocked, failedAttempts, lockedUntil, history := null, false, 0, 0.0, [];
    }

    ghost method Note(e: Event)
      modifies this`history
      ensures history == old(history) + [e] && Run(history, |history|) == Step(Run(old(history), |old(history)|), e)
    {
      RunPrefix(history, history + [e], |history|);
      history := history + [e];
    }

    method Count(now: real)
      modifies this`failedAttempts, this`lockedUntil
      ensures State(failedAttempts, lockedUntil) == Fail(State(old(failedAttempts), old(lockedUntil)), now)
    {
      failedAttempts := failedAttempts + 1;
      if failedAttempts >= MAX_FAILED_ATTEMPTS {
        lockedUntil := now + LOCKOUT;
      }
    }

    method VerifyPassword(decrypts: bool, at: real, recorded: real) returns (ok: bool)
      requires Valid()
      modifies this`failedAttempts, this`lockedUntil, this`history
      ensures Valid() && history == old(history) + [Attempt(at, decrypts, recorded)]
      ensures ok <==> decrypts && at >= old(lockedUntil)
    {
      Note(Attempt(at, decrypts, recorded));
      if at < lockedUntil { return false; }
      if !decrypts {
        Count(recorded);
        return false;
      }
      failedAttempts := 0;
      ok := true;
    }

    method RecordFailedAttempt(at: real)
      requires Valid()
      modifies this`failedAttempts, this`lockedUntil, this`history
      ensures Valid() && history == old(history) + [RecordFailure(at)]
    {
      Note(RecordFailure(at));
      Count(at);
    }

    /** The old key's bytes are overwritten before it is forgotten. */
    method Wipe()
      modifies this`apiKey, Bytes()
      ensures apiKey == null
      ensures old(apiKey) != null ==> forall i :: 0 <= i < old(apiKey).Length ==> old(apiKey)[i] == 0
    {
      if apiKey != null {
        for i := 0 to apiKey.Length
          invariant apiKey == old(apiKey) && forall k :: 0 <= k < i ==> apiKey[k] == 0
        {
          apiKey[i] := 0;
        }
        apiKey := null;
      }
    }

    method Store(key: seq<int>)
      modifies this`apiKey
      ensures apiKey != null && fresh(apiKey) && apiKey[..] == key
    {
      apiKey := new int[|key|](i requires 0 <= i < |key| => key[i]);
    }

    method UnlockWith(key: seq<int>, at: real) returns (ok: bool)
      requires Valid()
      modifies this
      ensures Valid() && history == old(history) + [Unlock(at, key != [])]
      ensures ok <==> at >= old(lockedUntil) && key != []
      ensures ok ==> unlocked && apiKey[..] == key
      ensures !ok ==> unlocked == old(unlocked) && apiKey == old(apiKey)
    {
      Note(Unlock(at, key != []));
      if at < lockedUntil { return false; }
      if |key| == 0 { return false; }
      Store(key);
      unlocked := true;
      failedAttempts := 0;
      ok := true;
    }

    method Lock()
      requires Valid()
      modifies this`apiKey, this`unlocked, Bytes()
      ensures Valid() && !unlocked && apiKey == null
      ensures old(apiKey) != null ==> forall i :: 0 <= i < old(apiKey).Length ==> old(apiKey)[i] == 0
    {
      Wipe();
      unlocked := false;
    }

    method SwitchKey(key: seq<int>, at: real)
      requires Valid()
      modifies this, Bytes()
      ensures Valid() && history == old(history) + [Switch(at)]
      ensures unlocked && apiKey != null && apiKey[..] == key
      ensures old(apiKey) != null ==> forall i :: 0 <= i < old(apiKey).Length ==> old(apiKey)[i] == 0
    {
      Note(Switch(at));
      Wipe();
      Store(key);
      unlocked := true;
      failedAttempts := 0;
    }

    /** Checks the lock, decrypts and switches the key in one critical section; None stands for a failed decryption. */
    method TryActivate(decrypted: Option<seq<int>>, at: real, recorded: real) returns (ok: bool)
      requires Valid()
      modifies this, Bytes()
      ensures Valid() && history == old(history) + [Attempt(at, decrypted.Some?, recorded)]
      ensures ok <==> at >= old(lockedUntil) && decrypted.Some?
      ensures ok ==> unlocked && apiKey[..] == decrypted.value
      ensures !ok ==> unlocked == old(unlocked) && apiKey == old(apiKey)
      ensures !ok && apiKey != null ==> apiKey[..] == old(apiKey[..])
    {
      Note(Attempt(at, decrypted.Some?, recorded));
      if at < lockedUntil { return false; }
      if decrypted.None? {
        Count(recorded);
        return false;
      }
      Wipe();
      Store(decrypted.value);
      unlocked := true;
      failedAttempts := 0;
      ok := true;
    }

    /** A copy of the key, if the store is unlocked. */
    method GetKey() returns (key: Option<seq<int>>)
      requires Valid()
      ensures key == if unlocked then Some(apiKey[..]) else None
    {
      if !unlocked || apiKey == null { return None; }
      key := Some(apiKey[..]);
    }
  }

  lemma {:induction false} RunPrefix(a: seq<Event>, b: seq<Event>, n: nat)
    requires n <= |a| && a <= b
    ensures Run(a, n) == Run(b, n)
  {
    if n == 0 {
    } else {
      RunPrefix(a, b, n - 1);
    }
  }
}
