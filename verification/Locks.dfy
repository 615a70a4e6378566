/**
 The two lock providers. A Redis lock is a key that expires, holding the token of
 whoever set it; a memory lock is membership of its target in a shared set.
 */
module Locks {
  import opened Tasks

  type Key = string
  type Token = nat
  type Keys = map<Key, Token>

  // ---- the Redis lock ----

  /** SET NX: the key is taken only if nobody has it. */
  function SetIfFree(stored: Keys, key: Key, token: Token): Keys {
    if key in stored then stored else stored[key := token]
  }

  /** The release script: the key goes only if it still holds this token. */
  function DeleteIfOwn(stored: Keys, key: Key, token: Token): Keys {
    if key in stored && stored[key] == token then stored - {key} else stored
  }

  class LockServer {
    var stored: Keys

    constructor ()
      ensures stored == map[]
    {
      stored := map[];
    }
  }

  class RedisLock {
    const server: LockServer
    const key: Key
    var token: Option<Token>

    constructor (server: LockServer, key: Key)
      ensures this.server == server && this.key == key && token == None
    {
      this.server, this.key, token := server, key, None;
    }

    /** `lost` says that the reply never arrived, whatever the server did. */
    method Acquire(newToken: Token, lost: bool) returns (ok: bool)
      modifies this, server
      ensures ok <==> key !in old(server.stored) && !lost
      ensures server.stored == SetIfFree(old(server.stored), key, newToken)
      ensures token == if ok then Some(newToken) else old(token)
    {
      var taken := false;
      if key !in server.stored {
        server.stored := server.stored[key := newToken];
        taken := true;
      }
      if taken && !lost {
        token := Some(newToken);
        return true;
      }
      return false;
    }

    method Release()
      modifies this, server
      ensures token == None
      ensures server.stored == if old(token).Some? then DeleteIfOwn(old(server.stored), key, old(token).value)
                               else old(server.stored)
    {
      if token.None? {
        return;
      }
      var mine := token.value;
      token := None;
      if key in server.stored && server.stored[key] == mine {
        server.stored := server.stored - {key};
      }
    }
  }

  /** A process's handle on a lock. */
  datatype Handle = Handle(key: Key, token: Option<Token>)

  /** A release whose token has left its handle and whose script has yet to run. */
  datatype Releasing = Releasing(key: Key, token: Token)

  datatype State = State(stored: Keys, handles: seq<Handle>, releasing: seq<Releasing>, used: nat)

  datatype Step =
    | Open(key: Key)
    | Acquire(handle: nat, lost: bool)
    | TakeToken(handle: nat)
    | RunScript(index: nat)
    | Expire(expired: Key)

  /** Tokens are never reused: each acquisition draws the next one. */
  ghost predicate Next(s: State, step: Step, s': State) {
    match step
    case Open(key) => s' == s.(handles := s.handles + [Handle(key, None)])
    case Acquire(h, lost) =>
      && h < |s.handles|
      && var key := s.handles[h].key;
         var ok := key !in s.stored && !lost;
         s' == s.(stored := SetIfFree(s.stored, key, s.used), used := s.used + 1,
                  handles := if ok then s.handles[h := Handle(key, Some(s.used))] else s.handles)
    case TakeToken(h) =>
      && h < |s.handles| && s.handles[h].token.Some?
      && s' == s.(handles := s.handles[h := Handle(s.handles[h].key, None)],
                  releasing := s.releasing + [Releasing(s.handles[h].key, s.handles[h].token.value)])
    case RunScript(i) =>
      && i < |s.releasing|
      && s' == s.(stored := DeleteIfOwn(s.stored, s.releasing[i].key, s.releasing[i].token),
                  releasing := s.releasing[..i] + s.releasing[i + 1..])
    case Expire(key) => s' == s.(stored := s.stored - {key})
  }

  predicate Owns(s: State, h: nat) {
    h < |s.handles| && s.handles[h].token.Some?
    && s.handles[h].key in s.stored && s.stored[s.handles[h].key] == s.handles[h].token.value
  }

  /** Every token out there was drawn before, and belongs to one acquisition only. */
  ghost predicate Inv(s: State) {
    && (forall k | k in s.stored :: s.stored[k] < s.used)
    && (forall i | 0 <= i < |s.handles| && s.handles[i].token.Some? :: s.handles[i].token.value < s.used)
    && (forall i | 0 <= i < |s.releasing| :: s.releasing[i].token < s.used)
    && (forall i, j | 0 <= i < j < |s.handles| && s.handles[i].token.Some? :: s.handles[i].token != s.handles[j].token)
    && (forall i, j | 0 <= i < |s.handles| && 0 <= j < |s.releasing| ::
          s.handles[i].token != Some(s.releasing[j].token))
    && (forall i, j | 0 <= i < j < |s.releasing| :: s.releasing[i].token != s.releasing[j].token)
  }

  lemma AcquireKeepsInv(s: State, h: nat, lost: bool, s': State)
    requires Inv(s) && Next(s, Acquire(h, lost), s')
    ensures Inv(s')
  {
    assert forall i | 0 <= i < |s.handles| ::
        s'.handles[i].token == s.handles[i].token || s'.handles[i].token == Some(s.used);
  }

  lemma TakeKeepsInv(s: State, h: nat, s': State)
    requires Inv(s) && Next(s, TakeToken(h), s')
    ensures Inv(s')
  {
    forall i, j | 0 <= i < |s'.handles| && 0 <= j < |s'.releasing|
      ensures s'.handles[i].token != Some(s'.releasing[j].token)
    {
      if j == |s.releasing| && i != h {
        assert s.handles[i].token != s.handles[h].token;
      }
    }
  }

  lemma ScriptKeepsInv(s: State, n: nat, s': State)
    requires Inv(s) && Next(s, RunScript(n), s')
    ensures Inv(s')
  {
    assert forall i | 0 <= i < |s'.releasing| :: s'.releasing[i] == s.releasing[if i < n then i else i + 1];
  }

  lemma StepKeepsInv(s: State, step: Step, s': State)
    requires Inv(s) && Next(s, step, s')
    ensures Inv(s')
  {
    match step
    case Acquire(h, lost) => AcquireKeepsInv(s, h, lost, s');
    case TakeToken(h) => TakeKeepsInv(s, h, s');
    case RunScript(n) => ScriptKeepsInv(s, n, s');
    case _ =>
  }

  ghost predicate IsRun(states: seq<State>, steps: seq<Step>) {
    && |states| == |steps| + 1
    && states[0].stored == map[] && states[0].handles == [] && states[0].releasing == []
    && forall i | 0 <= i < |steps| :: Next(states[i], steps[i], states[i + 1])
  }

  lemma {:induction false} RunKeepsInv(states: seq<State>, steps: seq<Step>, k: nat)
    requires IsRun(states, steps) && k < |states|
    ensures Inv(states[k])
  {
    if k > 0 {
      RunKeepsInv(states, steps, k - 1);
      StepKeepsInv(states[k - 1], steps[k - 1], states[k]);
    }
  }

  /** However often keys expire, at most one handle at a time owns a key. */
  lemma AtMostOneOwner(states: seq<State>, steps: seq<Step>, k: nat, a: nat, b: nat)
    requires IsRun(states, steps) && k < |states|
    requires Owns(states[k], a) && Owns(states[k], b) && states[k].handles[a].key == states[k].handles[b].key
    ensures a == b
  {
    RunKeepsInv(states, steps, k);
  }

  /** An acquisition makes its handle the owner exactly if nobody had the key and the answer arrived. */
  lemma AcquiresWhatIsFree(states: seq<State>, steps: seq<Step>, k: nat, h: nat, lost: bool)
    requires IsRun(states, steps) && k < |steps| && steps[k] == Acquire(h, lost)
    ensures h < |states[k].handles| == |states[k + 1].handles|
    ensures Owns(states[k + 1], h) <==> Owns(states[k], h) || (states[k].handles[h].key !in states[k].stored && !lost)
    ensures forall other | other != h :: Owns(states[k + 1], other) <==> Owns(states[k], other)
  {
    RunKeepsInv(states, steps, k);
    assert Next(states[k], steps[k], states[k + 1]);
  }

  /** An owner loses its key by its expiry or by taking its own token to release it, and by nothing else. */
  lemma OwnershipEndsByExpiryOrRelease(states: seq<State>, steps: seq<Step>, k: nat, h: nat)
    requires IsRun(states, steps) && k < |steps| && Owns(states[k], h)
    ensures !Owns(states[k + 1], h) <==> steps[k] == TakeToken(h) || steps[k] == Expire(states[k].handles[h].key)
  {
    RunKeepsInv(states, steps, k);
    assert Next(states[k], steps[k], states[k + 1]);
  }

  /** A release deletes nothing but the acquisition it was made for. */
  lemma ReleaseDeletesOnlyItsOwn(states: seq<State>, steps: seq<Step>, k: nat, key: Key)
    requires IsRun(states, steps) && k < |steps| && steps[k].RunScript? && key in states[k].stored
    ensures steps[k].index < |states[k].releasing|
    ensures key !in states[k + 1].stored <==>
              states[k].releasing[steps[k].index] == Releasing(key, states[k].stored[key])
    ensures forall h :: Owns(states[k], h) ==> Owns(states[k + 1], h)
  {
    RunKeepsInv(states, steps, k);
    assert Next(states[k], steps[k], states[k + 1]);
  }

  /** An owner can give its key up, and then nobody has it. */
  lemma OwnerCanRelease(states: seq<State>, steps: seq<Step>, k: nat, h: nat) returns (mid: State, after: State)
    requires IsRun(states, steps) && k < |states| && Owns(states[k], h)
    ensures Next(states[k], TakeToken(h), mid) && Next(mid, RunScript(|states[k].releasing|), after)
    ensures after.stored == states[k].stored - {states[k].handles[h].key}
  {
    var s := states[k];
    var released := Releasing(s.handles[h].key, s.handles[h].token.value);
    mid := s.(handles := s.handles[h := Handle(s.handles[h].key, None)], releasing := s.releasing + [released]);
    after := mid.(stored := DeleteIfOwn(s.stored, released.key, released.token),
                  releasing := mid.releasing[..|s.releasing|] + mid.releasing[|s.releasing| + 1..]);
  }

  predicate Takes(s: State, step: Step, key: Key) {
    step.Acquire? && step.handle < |s.handles| && s.handles[step.handle].key == key && key !in s.stored
  }

  predicate Frees(s: State, step: Step, key: Key) {
    || step == Expire(key)
    || (step.RunScript? && step.index < |s.releasing| && key in s.stored
        && s.releasing[step.index] == Releasing(key, s.stored[key]))
  }

  lemma {:induction false} TakenUntilFreed(states: seq<State>, steps: seq<Step>, key: Key, i: nat, j: nat)
    requires IsRun(states, steps) && i <= j <= |steps| && key in states[i].stored
    requires forall k | i <= k < j :: !Frees(states[k], steps[k], key)
    ensures key in states[j].stored && states[j].stored[key] == states[i].stored[key]
    decreases j
  {
    if i < j {
      TakenUntilFreed(states, steps, key, i, j - 1);
      assert Next(states[j - 1], steps[j - 1], states[j]);
    }
  }

  /** Two acquisitions of one key have an expiry or the holder's release between them. */
  lemma AcquisitionsAreApart(states: seq<State>, steps: seq<Step>, key: Key, i: nat, j: nat)
    requires IsRun(states, steps) && i < j < |steps|
    requires Takes(states[i], steps[i], key) && Takes(states[j], steps[j], key)
    ensures exists k :: i < k < j && Frees(states[k], steps[k], key)
  {
    assert Next(states[i], steps[i], states[i + 1]);
    if forall k | i + 1 <= k < j :: !Frees(states[k], steps[k], key) {
      TakenUntilFreed(states, steps, key, i + 1, j);
    }
  }

  // ---- the memory lock ----

  class HeldLocks {
    var targets: set<string>

    constructor ()
      ensures targets == {}
    {
      targets := {};
    }
  }

  class MemoryLock {
    const state: HeldLocks
    const target: string
    var held: bool

    constructor (state: HeldLocks, target: string)
      ensures this.state == state && this.target == target && !held
    {
      this.state, this.target, held := state, target, false;
    }

    method Acquire() returns (ok: bool)
      modifies this, state
      ensures ok == held == (old(held) || target !in old(state.targets))
      ensures state.targets == if old(held) then old(state.targets) else old(state.targets) + {target}
    {
      if held {
        return true;
      }
      held := target !in state.targets;
      state.targets := state.targets + {target};
      return held;
    }

    method Release()
      modifies this, state
      ensures !held && state.targets == if old(held) then old(state.targets) - {target} else old(state.targets)
    {
      if held {
        state.targets := state.targets - {target};
        held := false;
      }
    }

    /** Dropping a handle frees its target if it held it. */
    method Drop()
      modifies state
      ensures state.targets == if held then old(state.targets) - {target} else old(state.targets)
    {
      if held {
        state.targets := state.targets - {target};
      }
    }
  }

  datatype MemoryHandle = MemoryHandle(target: string, held: bool)

  datatype MemoryState = MemoryState(targets: set<string>, handles: seq<MemoryHandle>)

  datatype MemoryStep = OpenLock(target: string) | AcquireLock(handle: nat) | ReleaseLock(handle: nat)
      | DropLock(handle: nat)

  ghost predicate MemoryNext(s: MemoryState, step: MemoryStep, s': MemoryState) {
    match step
    case OpenLock(target) => s' == s.(handles := s.handles + [MemoryHandle(target, false)])
    case AcquireLock(h) =>
      && h < |s.handles|
      && var x := s.handles[h];
         s' == if x.held then s
               else MemoryState(s.targets + {x.target}, s.handles[h := x.(held := x.target !in s.targets)])
    case ReleaseLock(h) =>
      && h < |s.handles|
      && var x := s.handles[h];
         s' == if x.held then MemoryState(s.targets - {x.target}, s.handles[h := x.(held := false)]) else s
    case DropLock(h) =>
      && h < |s.handles|
      && var x := s.handles[h];
         s' == MemoryState(if x.held then s.targets - {x.target} else s.targets, s.handles[..h] + s.handles[h + 1..])
  }

  predicate HolderOf(s: MemoryState, h: nat, target: string) {
    h < |s.handles| && s.handles[h] == MemoryHandle(target, true)
  }

  /** The set is exactly the targets of held handles, one handle each. */
  ghost predicate OneHolderEach(s: MemoryState) {
    && (forall target :: target in s.targets <==> exists h :: HolderOf(s, h, target))
    && (forall target, a, b | HolderOf(s, a, target) && HolderOf(s, b, target) :: a == b)
  }

  ghost predicate IsMemoryRun(states: seq<MemoryState>, steps: seq<MemoryStep>) {
    && |states| == |steps| + 1 && states[0] == MemoryState({}, [])
    && forall i | 0 <= i < |steps| :: MemoryNext(states[i], steps[i], states[i + 1])
  }

  /** What a step makes of a handle's index; dropping one shifts those behind it. */
  function Moved(step: MemoryStep, h: nat): nat {
    if step.DropLock? && step.handle < h then h - 1 else h
  }

  lemma HolderAfter(s: MemoryState, step: MemoryStep, s': MemoryState, h: nat, target: string)
    requires OneHolderEach(s) && MemoryNext(s, step, s') && HolderOf(s, h, target)
    requires !((step.ReleaseLock? || step.DropLock?) && step.handle == h)
    ensures HolderOf(s', Moved(step, h), target)
  {
  }

  lemma HolderBefore(s: MemoryState, step: MemoryStep, s': MemoryState, h': nat, target: string) returns (h: nat)
    requires OneHolderEach(s) && MemoryNext(s, step, s') && HolderOf(s', h', target)
    ensures h' == Moved(step, h) && !((step.ReleaseLock? || step.DropLock?) && step.handle == h)
    ensures HolderOf(s, h, target) || (step == AcquireLock(h) && target !in s.targets)
  {
    h := if step.DropLock? && step.handle <= h' then h' + 1 else h';
  }

  lemma TargetsAreHeld(s: MemoryState, step: MemoryStep, s': MemoryState, target: string)
    requires OneHolderEach(s) && MemoryNext(s, step, s')
    ensures target in s'.targets <==> exists h :: HolderOf(s', h, target)
  {
    if target in s'.targets {
      if target in s.targets {
        var h :| HolderOf(s, h, target);
        HolderAfter(s, step, s', h, target);
      } else {
        assert HolderOf(s', step.handle, target);
      }
    }
    if h' :| HolderOf(s', h', target) {
      var h := HolderBefore(s, step, s', h', target);
      if HolderOf(s, h, target) && target !in s'.targets {
        assert HolderOf(s, step.handle, target);
      }
    }
  }

  lemma StepKeepsOneHolder(s: MemoryState, step: MemoryStep, s': MemoryState)
    requires OneHolderEach(s) && MemoryNext(s, step, s')
    ensures OneHolderEach(s')
  {
    forall target ensures target in s'.targets <==> exists h :: HolderOf(s', h, target) {
      TargetsAreHeld(s, step, s', target);
    }
    forall target, a', b' | HolderOf(s', a', target) && HolderOf(s', b', target) ensures a' == b' {
      var a := HolderBefore(s, step, s', a', target);
      var b := HolderBefore(s, step, s', b', target);
    }
  }

  /** In every run the set of held locks is exactly the targets of held handles, one handle per target. */
  lemma {:induction false} MemoryLocksExclude(states: seq<MemoryState>, steps: seq<MemoryStep>, k: nat)
    requires IsMemoryRun(states, steps) && k < |states|
    ensures OneHolderEach(states[k])
  {
    if k > 0 {
      MemoryLocksExclude(states, steps, k - 1);
      StepKeepsOneHolder(states[k - 1], steps[k - 1], states[k]);
    }
  }

  /** So an acquisition succeeds exactly when no other handle holds the target. */
  lemma AcquireIffNobodyElseHolds(states: seq<MemoryState>, steps: seq<MemoryStep>, k: nat, h: nat)
    requires IsMemoryRun(states, steps) && k < |steps| && steps[k] == AcquireLock(h) && h < |states[k].handles|
    ensures HolderOf(states[k + 1], h, states[k].handles[h].target)
            <==> forall other | other != h :: !HolderOf(states[k], other, states[k].handles[h].target)
  {
    MemoryLocksExclude(states, steps, k);
    assert MemoryNext(states[k], steps[k], states[k + 1]);
    var target := states[k].handles[h].target;
    if target in states[k].targets {
      var other :| HolderOf(states[k], other, target);
    }
  }
}
