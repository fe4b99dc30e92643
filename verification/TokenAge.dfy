/** The lifetime asked for a token, and why age-based rotation keeps tokens from expiring. */
module TokenAge {
  import opened Text
  import opened Records
  import opened History
  import opened Claims
  import opened Cluster
  import opened Operator
  import opened OperatorRuns
  import St = Stores
  import Sv = Service

  const TWO_32: int := 0x1_0000_0000
  const MAX_UINT32: int := 0xFFFF_FFFF
  /** durationPointer compares with ^uint64(0xffffffff), the complement of the largest uint32. */
  const GUARD: int := 0xFFFF_FFFF_0000_0000

  /** durationPointer on a time.Duration, a 64-bit count of nanoseconds. */
  function DurationPointer(value: int): Option<int>
    requires -MAX_INT - 1 <= value <= MAX_INT
  {
    if value <= 0 then None else
    var seconds := value / SECOND;
    if seconds == 0 || seconds > GUARD then None else Some(seconds % TWO_32)
  }

  /** Every expiry the configuration can hold reaches MAS unchanged. */
  lemma ConfiguredExpiryIsKept(expirySeconds: int)
    requires 0 <= expirySeconds <= MAX_UINT32
    ensures expirySeconds * SECOND <= MAX_INT
    ensures DurationPointer(expirySeconds * SECOND) == if expirySeconds == 0 then None else Some(expirySeconds)
  {
    assert expirySeconds * SECOND / SECOND == expirySeconds;
  }

  /** Less than a second asks for nothing. Beyond that the guard never fires: the value is the
      whole seconds exactly when they fit a uint32, and wraps around otherwise. */
  lemma DurationIsExact(value: int)
    requires -MAX_INT - 1 <= value <= MAX_INT
    ensures DurationPointer(value).None? <==> value < SECOND
    ensures value >= SECOND ==> (DurationPointer(value) == Some(value / SECOND) <==> value / SECOND <= MAX_UINT32)
    ensures value >= SECOND ==> (value / SECOND - DurationPointer(value).value) % TWO_32 == 0
    ensures value >= SECOND ==> 0 <= DurationPointer(value).value <= MAX_UINT32
  {
    if value >= SECOND {
      assert 1 <= value / SECOND <= GUARD;
    }
  }

  /** 2^32 seconds ask for a token that lives zero seconds. */
  lemma DurationWrapsAround()
    ensures DurationPointer(TWO_32 * SECOND) == Some(0)
  {
    assert TWO_32 * SECOND / SECOND == TWO_32;
  }

  predicate HasToken(s: State, n: string) {
    n in s.records && s.records[n].token != ""
  }

  /** The token of the agent has not reached its expiry. */
  predicate Alive(s: State, n: string, expiry: int) {
    HasToken(s, n) ==>
      s.records[n].token in s.tokens && s.clock < s.tokens[s.records[n].token] + expiry
  }

  /** What service operations did to the record of `n`, SetAvatar among them or not. */
  predicate Touched(s: State, t: State, n: string, avatars: bool) {
    || Renewal(s, t, n)
    || (avatars && Dated(Find(s.records, n), Find(t.records, n), SetsAvatar, s.tokens, t.tokens, s.clock, t.clock))
  }

  /** Every operation of the service, on whatever agent, is such a touch. */
  lemma OperationTouches(w0: St.World, w1: St.World, e: Event, s: State, t: State, n: string)
    requires Sv.Performed(w0, w1, e)
    requires s.records == w0.records && s.clock == w0.clock && s.tokens == w0.tokens
    requires t.records == w1.records && t.clock == w1.clock && t.tokens == w1.tokens
    ensures Touched(s, t, n, e.kind.SetsAvatar?) && s.clock <= t.clock && TokensKept(s.tokens, t.tokens)
  {
    if n != e.name { OtherRecordsStay(w0.records, w1.records, e, n); }
  }

  /** A run of passes over the resource of agent `n`, with operations on the agent in between. */
  ghost predicate AgeRun(cfg: Config, k: string, n: string, states: seq<State>, turns: seq<Turn>, avatars: bool) {
    && IsRun(cfg, k, states, turns)
    && (forall i | 0 <= i < |states| :: Decode(states[i].resources[k]).value.agentName == n)
    && forall i | 0 <= i < |turns| && turns[i].Elsewhere? :: Touched(states[i], states[i + 1], n, avatars)
  }

  /** What the clock said in the last successful pass. */
  function LastPass(turns: seq<Turn>, start: int): int {
    if turns == [] then start
    else if turns[|turns| - 1].Pass? && turns[|turns| - 1].ok then turns[|turns| - 1].now
    else LastPass(turns[..|turns| - 1], start)
  }

  /** Successful passes are at most `gap` apart. */
  ghost predicate PassesWithin(states: seq<State>, turns: seq<Turn>, start: int, gap: int)
    requires |states| == |turns| + 1
  {
    forall i | 0 <= i < |states| :: states[i].clock - LastPass(turns[..i], start) <= gap
  }

  /** UpdatedAt is never more than `drift` past the issue of the token. */
  predicate Drifted(s: State, n: string, drift: int) {
    HasToken(s, n) && s.records[n].token in s.tokens ==>
      s.records[n].updatedAt - s.tokens[s.records[n].token] <= drift
  }

  ghost predicate DriftWithin(states: seq<State>, n: string, drift: int) {
    forall i | 0 <= i < |states| :: Drifted(states[i], n, drift)
  }

  /** The last pass before the run read the clock at `start` and found the token young. */
  predicate StartsYoung(cfg: Config, s: State, n: string, start: int) {
    && start <= s.clock
    && (HasToken(s, n) ==>
          s.records[n].token in s.tokens && start - s.records[n].updatedAt <= cfg.rotateAfter)
  }

  lemma AgePrefix(cfg: Config, k: string, n: string, states: seq<State>, turns: seq<Turn>, avatars: bool, i: nat)
    requires AgeRun(cfg, k, n, states, turns, avatars) && i <= |turns|
    ensures AgeRun(cfg, k, n, states[..i + 1], turns[..i], avatars)
  {
    hide TurnTaken; hide Touched;
    var before, taken := states[..i + 1], turns[..i];
    forall j | 0 <= j < i ensures TurnTaken(cfg, k, before[j], before[j + 1], taken[j]) {
      assert TurnTaken(cfg, k, states[j], states[j + 1], turns[j]);
    }
    forall j | 0 <= j < i && taken[j].Elsewhere? ensures Touched(before[j], before[j + 1], n, avatars) {
      assert Touched(states[j], states[j + 1], n, avatars);
    }
  }

  lemma YoungTurn(cfg: Config, k: string, n: string, s: State, t: State, turn: Turn, last: int)
    requires k in s.resources && Decode(s.resources[k]).Some? && Decode(s.resources[k]).value.agentName == n
    requires TurnTaken(cfg, k, s, t, turn) && (turn.Elsewhere? ==> Touched(s, t, n, true))
    requires StartsYoung(cfg, s, n, last) && cfg.rotateAfter > 0
    ensures StartsYoung(cfg, t, n, if turn.Pass? && turn.ok then turn.now else last)
  {
    hide RequestTaken; hide RestartsAsNeeded; hide Holds; hide Restarted; hide NotOurs; hide TrimSpace;
  }

  /** When the last successful pass read the clock, the record was younger than the rotation
      age, whatever rotated, failed or changed the avatar in between. */
  lemma {:induction false} RecordStaysYoung(cfg: Config, k: string, n: string, states: seq<State>, turns: seq<Turn>,
        start: int)
    requires AgeRun(cfg, k, n, states, turns, true) && StartsYoung(cfg, states[0], n, start) && cfg.rotateAfter > 0
    ensures StartsYoung(cfg, states[|turns|], n, LastPass(turns, start))
  {
    hide TurnTaken; hide Touched; hide StartsYoung;
    if turns != [] {
      var m := |turns| - 1;
      AgePrefix(cfg, k, n, states, turns, true, m);
      RecordStaysYoung(cfg, k, n, states[..m + 1], turns[..m], start);
      assert TurnTaken(cfg, k, states[m], states[m + 1], turns[m]);
      YoungTurn(cfg, k, n, states[m], states[m + 1], turns[m], LastPass(turns[..m], start));
    }
  }

  ghost predicate InTime(cfg: Config, k: string, n: string, states: seq<State>, turns: seq<Turn>, start: int, gap: int,
      drift: int)
  {
    && AgeRun(cfg, k, n, states, turns, true) && StartsYoung(cfg, states[0], n, start)
    && PassesWithin(states, turns, start, gap) && DriftWithin(states, n, drift)
  }

  /** If successful passes are close enough no token in use ever reaches its expiry. */
  lemma TokensNeverExpire(cfg: Config, k: string, n: string, states: seq<State>, turns: seq<Turn>, start: int, gap: int,
        drift: int, expiry: int, i: nat)
    requires InTime(cfg, k, n, states, turns, start, gap, drift) && i < |states| && cfg.rotateAfter > 0
    requires cfg.rotateAfter + gap + drift < expiry
    ensures Alive(states[i], n, expiry)
  {
    AgePrefix(cfg, k, n, states, turns, true, i);
    RecordStaysYoung(cfg, k, n, states[..i + 1], turns[..i], start);
    assert Drifted(states[i], n, drift);
  }

  /** The record of `n` has a token that it did not have before. */
  predicate NewToken(s: State, t: State, n: string) {
    HasToken(t, n) && !(HasToken(s, n) && s.records[n].token == t.records[n].token)
  }

  /** A token that is issued is recorded within `latency` of its issue. */
  ghost predicate Prompt(states: seq<State>, n: string, latency: int) {
    forall i | 0 < i < |states| && NewToken(states[i - 1], states[i], n) :: Drifted(states[i], n, latency)
  }

  /** Without SetAvatar the drift is the latency. */
  lemma {:induction false} DriftIsLatency(cfg: Config, k: string, n: string, states: seq<State>, turns: seq<Turn>,
        start: int, latency: int, i: nat)
    requires AgeRun(cfg, k, n, states, turns, false) && StartsYoung(cfg, states[0], n, start)
    requires Prompt(states, n, latency) && Drifted(states[0], n, latency) && i < |states|
    ensures Drifted(states[i], n, latency)
    ensures HasToken(states[i], n) ==> states[i].records[n].token in states[i].tokens
  {
    if i > 0 {
      DriftIsLatency(cfg, k, n, states, turns, start, latency, i - 1);
      assert TurnTaken(cfg, k, states[i - 1], states[i], turns[i - 1]);
    }
  }

  /** The bound for runs without SetAvatar: rotation age, gap between successful passes and
      latency of recording a token together below the expiry keep every token alive. */
  lemma TokensOutlivePasses(cfg: Config, k: string, n: string, states: seq<State>, turns: seq<Turn>, start: int,
        gap: int, latency: int, expiry: int, i: nat)
    requires AgeRun(cfg, k, n, states, turns, false) && StartsYoung(cfg, states[0], n, start)
    requires Prompt(states, n, latency) && Drifted(states[0], n, latency)
    requires PassesWithin(states, turns, start, gap) && i < |states|
    requires 0 < cfg.rotateAfter && cfg.rotateAfter + gap + latency < expiry
    ensures Alive(states[i], n, expiry)
  {
    forall j | 0 <= j < |states| ensures Drifted(states[j], n, latency) {
      DriftIsLatency(cfg, k, n, states, turns, start, latency, j);
    }
    assert AgeRun(cfg, k, n, states, turns, true);
    TokensNeverExpire(cfg, k, n, states, turns, start, gap, latency, expiry, i);
  }

  /** A resource with its active agent, as the operator left it after a successful pass: the
      token was issued at `issuedAt`, and UpdatedAt was moved to `updatedAt` since. */
  function Steadied(cfg: Config, o: Resource, spec: Spec, r: Record, updatedAt: int, clock: int, issuedAt: int): State
    requires r.generation >= 1
  {
    var secret := TokenSecret({o.uid}, Itoa(r.generation), spec.agentName, Desired(cfg, spec.agentName, r));
    State(
      map[Key(o) := o.(status := Some(ReadyStatus(cfg, o, spec, r)))],
      map[Place(o, spec) := secret], map[], map[spec.agentName := r.(updatedAt := updatedAt)],
      Work(0, 0, 0, 0, 0, 0, 0, 0), 0, 1, map[(o.namespace, spec.secretName, r.generation) := 0], map[],
      clock, map[r.token := issuedAt], {})
  }

  predicate Owns(o: Resource, spec: Spec, r: Record) {
    && Decode(o) == Some(spec) && ValidSpec(spec) && !o.deleting && FINALIZER in o.finalizers
    && r.status.Active? && r.generation >= 1 && r.userId != "" && r.token != ""
  }

  lemma OwnsActive(o: Resource, spec: Spec, r: Record)
    requires Owns(o, spec, r)
    ensures r.status.Active? && r.generation >= 1 && r.token != ""
  {
  }

  /** The cluster is as passes leave it, and the record is `r` but for its UpdatedAt. */
  predicate Tended(cfg: Config, s: State, o: Resource, spec: Spec, r: Record, updatedAt: int, issuedAt: int)
    requires r.generation >= 1
  {
    && Sound(s) && Key(o) in s.resources
    && var o1 := s.resources[Key(o)];
    && o1 == o.(finalizers := o1.finalizers, status := o1.status)
    && StatusOf(o1).masUserId == r.userId && StatusOf(o1).rotationToken == spec.rotationToken
    && StatusOf(o1).restartedGeneration == r.generation
    && s.records == map[spec.agentName := r.(updatedAt := updatedAt)] && s.tokens == map[r.token := issuedAt]
    && SecretAgrees(cfg, s, o, spec, r)
  }

  lemma SteadiedIsTended(cfg: Config, o: Resource, spec: Spec, r: Record, updatedAt: int, clock: int, issuedAt: int)
    requires Owns(o, spec, r)
    ensures Tended(cfg, Steadied(cfg, o, spec, r, updatedAt, clock, issuedAt), o, spec, r, updatedAt, issuedAt)
  {
    hide Desired; hide Itoa; hide TrimSpace;
  }

  /** What a pass has before it, when the token is young. */
  lemma TendedNeedsNothing(cfg: Config, s: State, o: Resource, spec: Spec, r: Record, updatedAt: int, issuedAt: int)
    requires Owns(o, spec, r) && Tended(cfg, s, o, spec, r, updatedAt, issuedAt)
    requires cfg.rotateAfter > 0 ==> s.clock - updatedAt <= cfg.rotateAfter
    ensures var o1 := s.resources[Key(o)];
      && Key(o1) == Key(o) && Decode(o1) == Some(spec) && ValidSpec(spec) && !o1.deleting
      && Claimed(map[spec.agentName := Key(o)], o1) && Needs(cfg, s, spec, StatusOf(o1), s.clock).None?
      && !NotOurs(s, spec, StatusOf(o1)) && !Foreign(s, o1, spec)
      && !MustRestart(s, o1, spec, StatusOf(o1).restartedGeneration, r)
  {
    hide TrimSpace; hide ValidSpec; hide Desired; hide Itoa;
    SecretAgreesOnToken(cfg, s, o, spec, r);
  }

  lemma TendedAfter(cfg: Config, s: State, t: State, o: Resource, spec: Spec, r: Record, updatedAt: int, issuedAt: int,
        ok: bool)
    requires Owns(o, spec, r) && Tended(cfg, s, o, spec, r, updatedAt, issuedAt) && Sound(t)
    requires cfg.rotateAfter > 0 ==> s.clock - updatedAt <= cfg.rotateAfter
    requires var o1 := s.resources[Key(o)];
      && Within(s, t, Key(o1), NameOf(o1), PlaceOf(o1)) && Passed(cfg, s, t, o1, spec, s.clock, ok)
      && Outcome(cfg, s, t, o1, spec, StatusOf(o1), s.clock, ok) && t.faults == s.faults
    ensures ok && Tended(cfg, t, o, spec, r, updatedAt, issuedAt) && t.clock == s.clock
  {
    hide TrimSpace; hide ValidSpec; hide SecretAgrees; hide RequestTaken; hide Dated; hide Restarted; hide OnlyTargets;
    TendedNeedsNothing(cfg, s, o, spec, r, updatedAt, issuedAt);
    var o1 := s.resources[Key(o)];
    SameSecret(cfg, t, o, o1, spec, r, r.(updatedAt := updatedAt));
  }

  lemma SameSecret(cfg: Config, s: State, o: Resource, o1: Resource, spec: Spec, r: Record, r1: Record)
    requires o1 == o.(finalizers := o1.finalizers, status := o1.status) && r.generation >= 0
    requires r1 == r.(updatedAt := r1.updatedAt)
    ensures SecretAgrees(cfg, s, o1, spec, r1) == SecretAgrees(cfg, s, o, spec, r)
  {
    hide Itoa; hide Shows;
  }

  /** A pass of the operator over an agent with a young token, without faults, is Ready and
      leaves record and token as they are. */
  method PassOverYoung(op: Operator, o: Resource, spec: Spec, r: Record, ghost updatedAt: int, ghost issuedAt: int)
    returns (turn: Turn)
    requires Owns(o, spec, r) && op.c.reliable && Tended(op.cfg, op.c.s, o, spec, r, updatedAt, issuedAt)
    requires op.cfg.rotateAfter > 0 ==> op.c.s.clock - updatedAt <= op.cfg.rotateAfter
    modifies op.c
    ensures Tended(op.cfg, op.c.s, o, spec, r, updatedAt, issuedAt) && turn == Pass(op.c.s.clock, true)
    ensures op.c.s.clock == old(op.c.s).clock && op.c.s.faults == old(op.c.s).faults
    ensures Settled(op.cfg, op.c.s, Key(o))
    ensures var s := old(op.c.s);
      && Key(o) in s.resources && Key(s.resources[Key(o)]) == Key(o) && Decode(s.resources[Key(o)]) == Some(spec)
      && TurnTaken(op.cfg, Key(o), s, op.c.s, turn)
  {
    hide SecretAgrees; hide TrimSpace; hide Key; hide ValidSpec; hide Passed; hide Outcome; hide Grows;
    hide Within; hide ReadyStatus; hide Settled; hide Owns; hide MustRestart; hide Needs;
    ghost var s := op.c.s;
    TendedNeedsNothing(op.cfg, s, o, spec, r, updatedAt, issuedAt);
    var now := op.c.s.clock;
    var ok := op.Reconcile(op.c.s.resources[Key(o)], map[spec.agentName := Key(o)], now);
    TendedAfter(op.cfg, s, op.c.s, o, spec, r, updatedAt, issuedAt, ok);
    turn := Pass(now, ok);
  }

  /** Time goes by, and SetAvatar may move UpdatedAt to any moment since. */
  lemma AvatarTurn(cfg: Config, s: State, t: State, o: Resource, spec: Spec, r: Record, updatedAt: int, issuedAt: int,
        updatedAt1: int)
    requires Owns(o, spec, r) && Tended(cfg, s, o, spec, r, updatedAt, issuedAt) && s.clock <= t.clock
    requires updatedAt1 == updatedAt || s.clock <= updatedAt1 <= t.clock
    requires t == s.(clock := t.clock, records := map[spec.agentName := r.(updatedAt := updatedAt1)])
    ensures Tended(cfg, t, o, spec, r, updatedAt1, issuedAt)
    ensures Key(s.resources[Key(o)]) == Key(o) && Decode(s.resources[Key(o)]) == Some(spec)
    ensures TurnTaken(cfg, Key(o), s, t, Elsewhere) && Touched(s, t, spec.agentName, true)
  {
    hide TrimSpace; hide Itoa; hide Desired; hide ValidSpec;
  }

  lemma TendedKnown(cfg: Config, s: State, o: Resource, spec: Spec, r: Record, updatedAt: int, issuedAt: int)
    requires Owns(o, spec, r) && Tended(cfg, s, o, spec, r, updatedAt, issuedAt)
    ensures Key(o) in s.resources && Key(s.resources[Key(o)]) == Key(o) && Decode(s.resources[Key(o)]) == Some(spec)
    ensures HasToken(s, spec.agentName) && s.records[spec.agentName].token == r.token
    ensures s.records[spec.agentName].updatedAt == updatedAt && r.token in s.tokens && s.tokens[r.token] == issuedAt
  {
    hide TrimSpace; hide Itoa; hide Desired; hide ValidSpec;
  }

  lemma OneTurnMore(cfg: Config, k: string, n: string, states: seq<State>, turns: seq<Turn>, t: State, turn: Turn,
        start: int, gap: int)
    requires AgeRun(cfg, k, n, states, turns, true) && PassesWithin(states, turns, start, gap)
    requires TurnTaken(cfg, k, states[|turns|], t, turn)
    requires turn.Elsewhere? ==> Touched(states[|turns|], t, n, true)
    requires k in t.resources && Key(t.resources[k]) == k && Decode(t.resources[k]).Some?
    requires Decode(t.resources[k]).value.agentName == n && t.clock - LastPass(turns + [turn], start) <= gap
    ensures AgeRun(cfg, k, n, states + [t], turns + [turn], true)
    ensures PassesWithin(states + [t], turns + [turn], start, gap)
  {
    hide TurnTaken; hide Touched; hide LastPass; hide Key; hide Decode;
    var more, taken := states + [t], turns + [turn];
    forall i | 0 <= i < |taken|
      ensures TurnTaken(cfg, k, more[i], more[i + 1], taken[i])
      ensures taken[i].Elsewhere? ==> Touched(more[i], more[i + 1], n, true)
    {
      if i < |turns| { assert TurnTaken(cfg, k, states[i], states[i + 1], turns[i]); }
    }
    forall i | 0 <= i < |more| ensures more[i].clock - LastPass(taken[..i], start) <= gap {
      if i <= |turns| { assert taken[..i] == turns[..i]; } else { assert taken[..i] == taken; }
    }
  }

  ghost predicate NeverExpires(cfg: Config, gap: int, drift: int, expiry: int) {
    forall k, n, states, turns, start, i |
      InTime(cfg, k, n, states, turns, start, gap, drift) && 0 <= i < |states| :: Alive(states[i], n, expiry)
  }

  /** Tokens outlive the passes if and only if rotation age, gap and drift together stay below
      the expiry. Otherwise there is a run in which the operator itself passes without a fault
      over a token that is as old as it may be, the next pass is as late as it may be, and the
      token expires. */
  method DriftDecides(cfg: Config, o: Resource, spec: Spec, r: Record, gap: int, drift: int, expiry: int)
    returns (states: seq<State>, turns: seq<Turn>)
    requires Owns(o, spec, r) && cfg.rotateAfter > 0 && gap >= 0 && drift >= 0
    ensures cfg.rotateAfter + gap + drift < expiry ==> NeverExpires(cfg, gap, drift, expiry)
    ensures cfg.rotateAfter + gap + drift >= expiry ==>
      && turns == [Pass(drift + cfg.rotateAfter, true), Elsewhere]
      && InTime(cfg, Key(o), spec.agentName, states, turns, drift + cfg.rotateAfter, gap, drift)
      && states[0] == Steadied(cfg, o, spec, r, drift, drift + cfg.rotateAfter, 0)
      && Settled(cfg, states[1], Key(o)) && states[1].faults == 0
      && !Alive(states[2], spec.agentName, expiry)
  {
    hide TurnTaken; hide Touched; hide Owns; hide Decode; hide Key; hide Tended; hide Steadied; hide Settled;
    hide AgeRun; hide PassesWithin; hide LastPass;
    states, turns := [], [];
    if cfg.rotateAfter + gap + drift < expiry {
      forall k, n, states, turns, start, i |
        InTime(cfg, k, n, states, turns, start, gap, drift) && 0 <= i < |states|
        ensures Alive(states[i], n, expiry)
      {
        TokensNeverExpire(cfg, k, n, states, turns, start, gap, drift, expiry, i);
      }
      return;
    }
    var n, at := spec.agentName, drift + cfg.rotateAfter;
    var op := Start(cfg, o, spec, r, drift, at, 0);
    RunStarts(cfg, op.c.s, o, spec, r, drift, 0, at, gap);
    states, turns := [op.c.s], [];
    var turn := PassOverYoung(op, o, spec, r, drift, 0);
    TendedKnown(cfg, op.c.s, o, spec, r, drift, 0);
    LastOf(turns, turn, at);
    OneTurnMore(cfg, Key(o), n, states, turns, op.c.s, turn, at, gap);
    states, turns := states + [op.c.s], turns + [turn];
    var late := op.c.s.(clock := at + gap);
    SameRecord(cfg, op.c.s, o, spec, r, drift, 0, at + gap);
    AvatarTurn(cfg, op.c.s, late, o, spec, r, drift, 0, drift);
    TendedKnown(cfg, late, o, spec, r, drift, 0);
    LastOf(turns, Elsewhere, at);
    OneTurnMore(cfg, Key(o), n, states, turns, late, Elsewhere, at, gap);
    states, turns := states + [late], turns + [Elsewhere];
  }

  /** An operator over a reliable cluster in such a state. */
  method Start(cfg: Config, o: Resource, spec: Spec, r: Record, updatedAt: int, clock: int, issuedAt: int)
    returns (op: Operator)
    requires Owns(o, spec, r)
    ensures fresh(op) && fresh(op.c) && op.cfg == cfg && op.c.reliable
    ensures op.c.s == Steadied(cfg, o, spec, r, updatedAt, clock, issuedAt)
    ensures Tended(cfg, op.c.s, o, spec, r, updatedAt, issuedAt)
    ensures op.c.s.clock == clock && op.c.s.faults == 0
  {
    SteadiedIsTended(cfg, o, spec, r, updatedAt, clock, issuedAt);
    var c := new Cluster(Steadied(cfg, o, spec, r, updatedAt, clock, issuedAt), true);
    op := new Operator(c, cfg);
  }

  lemma RunStarts(cfg: Config, s: State, o: Resource, spec: Spec, r: Record, updatedAt: int, issuedAt: int, start: int,
        gap: int)
    requires Owns(o, spec, r) && Tended(cfg, s, o, spec, r, updatedAt, issuedAt)
    requires start <= s.clock <= start + gap && start - updatedAt <= cfg.rotateAfter
    ensures AgeRun(cfg, Key(o), spec.agentName, [s], [], true) && PassesWithin([s], [], start, gap)
    ensures StartsYoung(cfg, s, spec.agentName, start) && LastPass([], start) == start
    ensures Drifted(s, spec.agentName, updatedAt - issuedAt)
  {
    hide Tended; hide Key; hide Decode;
    TendedKnown(cfg, s, o, spec, r, updatedAt, issuedAt);
  }

  lemma LastOf(turns: seq<Turn>, turn: Turn, start: int)
    ensures LastPass(turns + [turn], start) == if turn.Pass? && turn.ok then turn.now else LastPass(turns, start)
  {
    assert (turns + [turn])[..|turns|] == turns;
  }

  lemma SameRecord(cfg: Config, s: State, o: Resource, spec: Spec, r: Record, updatedAt: int, issuedAt: int, clock: int)
    requires Owns(o, spec, r) && Tended(cfg, s, o, spec, r, updatedAt, issuedAt)
    ensures s.(clock := clock) == s.(clock := clock, records := map[spec.agentName := r.(updatedAt := updatedAt)])
  {
  }

  /** All passes succeed, at most `gap` apart, yet the token expires. */
  ghost predicate ExpiresDespitePasses(cfg: Config, k: string, n: string, states: seq<State>, turns: seq<Turn>,
      start: int, gap: int, expiry: int)
    requires |states| == |turns| + 1
  {
    && AgeRun(cfg, k, n, states, turns, true) && StartsYoung(cfg, states[0], n, start) && Drifted(states[0], n, 0)
    && PassesWithin(states, turns, start, gap) && (forall i | 0 <= i < |turns| && turns[i].Pass? :: turns[i].ok)
    && !Alive(states[|turns|], n, expiry)
  }

  /** With SetAvatar no expiry is long enough: however short the gap between passes of the
      operator, all of which are Ready and meet no fault, and however new the token at the
      start, it reaches its expiry. */
  method AvatarsBreakTheBound(cfg: Config, o: Resource, spec: Spec, r: Record, gap: int, expiry: nat)
    returns (states: seq<State>, turns: seq<Turn>)
    requires Owns(o, spec, r) && cfg.rotateAfter > 0 && gap > 0
    ensures |turns| == 2 * expiry && |states| == |turns| + 1
    ensures states[0] == Steadied(cfg, o, spec, r, r.updatedAt, r.updatedAt, r.updatedAt)
    ensures forall i | 0 <= i < |turns| :: turns[i].Pass? <==> i % 2 == 1
    ensures ExpiresDespitePasses(cfg, Key(o), spec.agentName, states, turns, r.updatedAt, gap, expiry)
    ensures states[|turns|].faults == 0
  {
    hide TurnTaken; hide Touched; hide Owns; hide Decode; hide Key; hide Tended; hide Steadied; hide Settled;
    hide AgeRun; hide PassesWithin; hide LastPass;
    assert r.generation >= 1 by { OwnsActive(o, spec, r); }
    var n, start := spec.agentName, r.updatedAt;
    var op := Start(cfg, o, spec, r, start, start, start);
    RunStarts(cfg, op.c.s, o, spec, r, start, start, start, gap);
    states, turns := [op.c.s], [];
    for i := 0 to expiry
      invariant |turns| == 2 * i && |states| == |turns| + 1 && states[|turns|] == op.c.s
      invariant states[0] == Steadied(cfg, o, spec, r, start, start, start)
      invariant forall j | 0 <= j < |turns| :: (turns[j].Pass? <==> j % 2 == 1) && (turns[j].Pass? ==> turns[j].ok)
      invariant AgeRun(cfg, Key(o), n, states, turns, true) && PassesWithin(states, turns, start, gap)
      invariant Tended(cfg, op.c.s, o, spec, r, op.c.s.clock, start) && op.c.s.faults == 0
      invariant LastPass(turns, start) == op.c.s.clock >= start + i
    {
      var now := op.c.s.clock + gap;
      var shown := op.c.s.(clock := now, records := map[n := r.(updatedAt := now)]);
      AvatarTurn(cfg, op.c.s, shown, o, spec, r, op.c.s.clock, start, now);
      TendedKnown(cfg, shown, o, spec, r, now, start);
      LastOf(turns, Elsewhere, start);
      OneTurnMore(cfg, Key(o), n, states, turns, shown, Elsewhere, start, gap);
      states, turns := states + [shown], turns + [Elsewhere];
      op.c.s := shown;
      var turn := PassOverYoung(op, o, spec, r, now, start);
      TendedKnown(cfg, op.c.s, o, spec, r, now, start);
      LastOf(turns, turn, start);
      OneTurnMore(cfg, Key(o), n, states, turns, op.c.s, turn, start, gap);
      states, turns := states + [op.c.s], turns + [turn];
    }
    TendedKnown(cfg, op.c.s, o, spec, r, op.c.s.clock, start);
  }
}
