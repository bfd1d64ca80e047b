/**
 The window in which a repeated cart is turned away. A reservation is a key with an expiry;
 releasing deletes the key whoever put it there. Attempts interleave freely over an abstract clock.
 */
module Dedup {
  import opened Orders

  /** Five minutes, in milliseconds. */
  const TTL: nat := 300_000

  predicate HeldAt(expiry: map<string, nat>, key: string, now: nat) {
    key in expiry && now < expiry[key]
  }

  /** The reservation store: claim if absent or expired, and delete. An error changes nothing. */
  class RedisStore {
    var expiry: map<string, nat>

    constructor ()
      ensures expiry == map[]
    {
      expiry := map[];
    }

    method Reserve(key: string, now: nat, ttl: nat, fault: bool) returns (acquired: bool, err: bool)
      modifies this
      ensures err == fault && (err ==> !acquired)
      ensures acquired <==> !fault && !HeldAt(old(expiry), key, now)
      ensures expiry == if acquired then old(expiry)[key := now + ttl] else old(expiry)
    {
      if fault {
        return false, true;
      }
      if key in expiry && now < expiry[key] {
        return false, false;
      }
      expiry := expiry[key := now + ttl];
      return true, false;
    }

    method Release(key: string, fault: bool) returns (err: bool)
      modifies this
      ensures err == fault
      ensures expiry == if fault then old(expiry) else old(expiry) - {key}
    {
      if !fault {
        expiry := expiry - {key};
      }
      return fault;
    }
  }

  // ---------------------------------------------------------------- interleaved attempts

  datatype Phase = Running | Succeeded | GaveUp

  datatype Attempt = Attempt(key: string, at: nat, phase: Phase)

  datatype State = State(now: nat, expiry: map<string, nat>, attempts: map<nat, Attempt>)

  /**
   reserveErrors: Reserve may fail, and intake goes on without it. lateReleases: an attempt may
   fail after its own TTL.
   */
  datatype Env = Env(reserveErrors: bool, lateReleases: bool)

  datatype Action =
    | Tick(span: nat)
    | Reserve(id: nat, key: string)
    | ReserveError(id: nat, key: string)
    | Succeed(id: nat)
    | Fail(id: nat, released: bool)

  predicate Enabled(env: Env, s: State, a: Action) {
    match a
    case Tick(_) => true
    case Reserve(id, _) => id !in s.attempts
    case ReserveError(id, _) => id !in s.attempts && env.reserveErrors
    case Succeed(id) => id in s.attempts && s.attempts[id].phase == Running
    case Fail(id, released) =>
      && id in s.attempts && s.attempts[id].phase == Running
      && (released && !env.lateReleases ==> s.now < s.attempts[id].at + TTL)
  }

  function Apply(env: Env, s: State, a: Action): State
    requires Enabled(env, s, a)
  {
    match a
    case Tick(span) => s.(now := s.now + span)
    case Reserve(id, key) =>
      if HeldAt(s.expiry, key, s.now) then s  // turned away as a duplicate
      else s.(expiry := s.expiry[key := s.now + TTL], attempts := s.attempts[id := Attempt(key, s.now, Running)])
    case ReserveError(id, key) => s.(attempts := s.attempts[id := Attempt(key, s.now, Running)])
    case Succeed(id) => s.(attempts := s.attempts[id := s.attempts[id].(phase := Succeeded)])
    case Fail(id, released) =>
      s.(attempts := s.attempts[id := s.attempts[id].(phase := GaveUp)],
         expiry := if released then s.expiry - {s.attempts[id].key} else s.expiry)
  }

  function Exec(env: Env, s: State, acts: seq<Action>): Option<State>
    decreases |acts|
  {
    if acts == [] then Some(s)
    else if Enabled(env, s, acts[0]) then Exec(env, Apply(env, s, acts[0]), acts[1..])
    else None
  }

  const Empty := State(0, map[], map[])

  predicate FarApart(a: Attempt, b: Attempt) {
    a.at + TTL <= b.at || b.at + TTL <= a.at
  }

  /** Any two creations of the same cart that went through reserved at least one TTL apart. */
  predicate WindowKept(s: State) {
    forall i, j :: i in s.attempts && j in s.attempts && i != j && s.attempts[i].key == s.attempts[j].key &&
                   s.attempts[i].phase == Succeeded && s.attempts[j].phase == Succeeded ==>
      FarApart(s.attempts[i], s.attempts[j])
  }

  ghost predicate AlwaysDeduplicates(env: Env) {
    forall acts :: Exec(env, Empty, acts).Some? ==> WindowKept(Exec(env, Empty, acts).value)
  }

  // ---------------------------------------------------------------- the window holds

  /** An attempt that has not failed owns its key until its TTL runs out, and no two such attempts are close. */
  predicate Owned(s: State) {
    && (forall i :: i in s.attempts ==> s.attempts[i].at <= s.now)
    && (forall i :: i in s.attempts && s.attempts[i].phase != GaveUp && s.now < s.attempts[i].at + TTL ==>
          s.attempts[i].key in s.expiry && s.expiry[s.attempts[i].key] == s.attempts[i].at + TTL)
    && (forall i, j :: i in s.attempts && j in s.attempts && i != j && s.attempts[i].key == s.attempts[j].key &&
                       s.attempts[i].phase != GaveUp && s.attempts[j].phase != GaveUp ==>
          FarApart(s.attempts[i], s.attempts[j]))
  }

  lemma StepOwned(env: Env, s: State, a: Action)
    requires !env.reserveErrors && !env.lateReleases && Owned(s) && Enabled(env, s, a)
    ensures Owned(Apply(env, s, a))
  {
  }

  lemma {:induction false} RunOwned(env: Env, s: State, acts: seq<Action>)
    requires !env.reserveErrors && !env.lateReleases && Owned(s) && Exec(env, s, acts).Some?
    ensures Owned(Exec(env, s, acts).value)
    decreases |acts|
  {
    if acts != [] {
      StepOwned(env, s, acts[0]);
      RunOwned(env, Apply(env, s, acts[0]), acts[1..]);
    }
  }

  // ---------------------------------------------------------------- the premises are needed

  lemma ExecCons(env: Env, s: State, a: Action, rest: seq<Action>)
    requires Enabled(env, s, a)
    ensures Exec(env, s, [a] + rest) == Exec(env, Apply(env, s, a), rest)
  {
    assert ([a] + rest)[1..] == rest;
  }

  lemma BothSucceed(env: Env, s: State, i: nat, j: nat)
    requires i in s.attempts && j in s.attempts && i != j
    requires s.attempts[i].phase == Running && s.attempts[j].phase == Running
    requires s.attempts[i].key == s.attempts[j].key && s.attempts[i].at == s.attempts[j].at
    ensures Exec(env, s, [Succeed(i)] + ([Succeed(j)] + [])).Some?
    ensures !WindowKept(Exec(env, s, [Succeed(i)] + ([Succeed(j)] + [])).value)
  {
    ExecCons(env, s, Succeed(i), [Succeed(j)] + []);
    var s' := Apply(env, s, Succeed(i));
    ExecCons(env, s', Succeed(j), []);
    var s'' := Apply(env, s', Succeed(j));
    assert s''.attempts[i].phase == Succeeded && s''.attempts[j].phase == Succeeded;
    assert !FarApart(s''.attempts[i], s''.attempts[j]);
  }

  /** When the store is down both of two identical submissions go through at once. */
  lemma ErrorsDuplicate(env: Env)
    requires env.reserveErrors
    ensures !AlwaysDeduplicates(env)
  {
    var tail := [Succeed(0)] + ([Succeed(1)] + []);
    ExecCons(env, Empty, ReserveError(0, "k"), [ReserveError(1, "k")] + tail);
    var s1 := Apply(env, Empty, ReserveError(0, "k"));
    ExecCons(env, s1, ReserveError(1, "k"), tail);
    var s2 := Apply(env, s1, ReserveError(1, "k"));
    BothSucceed(env, s2, 0, 1);
    assert !WindowKept(Exec(env, Empty, [ReserveError(0, "k")] + ([ReserveError(1, "k")] + tail)).value);
  }

  /** A slow attempt fails after its TTL and deletes the next attempt's reservation; a third one gets in. */
  lemma LateReleaseDuplicates(env: Env)
    requires env.lateReleases
    ensures !AlwaysDeduplicates(env)
  {
    var a5 := [Succeed(1)] + ([Succeed(2)] + []);
    var a4 := [Reserve(2, "k")] + a5;
    var a3 := [Fail(0, true)] + a4;
    var a2 := [Reserve(1, "k")] + a3;
    var a1 := [Tick(TTL)] + a2;
    ExecCons(env, Empty, Reserve(0, "k"), a1);
    var s1 := Apply(env, Empty, Reserve(0, "k"));
    ExecCons(env, s1, Tick(TTL), a2);
    var s2 := Apply(env, s1, Tick(TTL));
    ExecCons(env, s2, Reserve(1, "k"), a3);
    var s3 := Apply(env, s2, Reserve(1, "k"));
    ExecCons(env, s3, Fail(0, true), a4);
    var s4 := Apply(env, s3, Fail(0, true));
    ExecCons(env, s4, Reserve(2, "k"), a5);
    var s5 := Apply(env, s4, Reserve(2, "k"));
    BothSucceed(env, s5, 1, 2);
    assert !WindowKept(Exec(env, Empty, [Reserve(0, "k")] + a1).value);
  }

  /**
   The window holds in every interleaving exactly when Reserve never errors and no attempt releases
   after its own TTL.
   */
  lemma DeduplicatesIff(env: Env)
    ensures AlwaysDeduplicates(env) <==> !env.reserveErrors && !env.lateReleases
  {
    if env.reserveErrors {
      ErrorsDuplicate(env);
    } else if env.lateReleases {
      LateReleaseDuplicates(env);
    } else {
      forall acts | Exec(env, Empty, acts).Some? ensures WindowKept(Exec(env, Empty, acts).value) {
        RunOwned(env, Empty, acts);
      }
    }
  }

  /** A failed attempt whose release went through leaves the key free: the next identical submission is let in. */
  lemma RetryAfterRelease(env: Env, s: State, id: nat, next: nat)
    requires Enabled(env, s, Fail(id, true)) && next !in s.attempts
    ensures var key := s.attempts[id].key;
            Exec(env, s, [Fail(id, true)] + ([Reserve(next, key)] + [])).Some? &&
            var s' := Exec(env, s, [Fail(id, true)] + ([Reserve(next, key)] + [])).value;
            next in s'.attempts && s'.attempts[next] == Attempt(key, s.now, Running)
  {
    var key := s.attempts[id].key;
    ExecCons(env, s, Fail(id, true), [Reserve(next, key)] + []);
    ExecCons(env, Apply(env, s, Fail(id, true)), Reserve(next, key), []);
  }
}
