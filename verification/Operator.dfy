/** The reconciler: one pass brings every MatrixAgent resource, its agent record and its
    token Secret into agreement. */
module Operator {
  import opened Text
  import opened Records
  import opened History
  import opened Claims
  import opened Cluster

  const FINALIZER := "matrix-agent-manager.io/finalizer"

  /** The other finalizers, in their order. */
  function Without(finalizers: seq<string>): (kept: seq<string>)
    ensures FINALIZER !in kept
    ensures forall f | f != FINALIZER :: multiset(kept)[f] == multiset(finalizers)[f]
  {
    if finalizers == [] then [] else
    var last := |finalizers| - 1;
    assert finalizers == finalizers[..last] + [finalizers[last]];
    Without(finalizers[..last]) + if finalizers[last] == FINALIZER then [] else [finalizers[last]]
  }

  lemma WithoutNext(finalizers: seq<string>, i: nat)
    requires i < |finalizers|
    ensures Without(finalizers[..i + 1]) ==
      Without(finalizers[..i]) + if finalizers[i] == FINALIZER then [] else [finalizers[i]]
  {
    assert finalizers[..i + 1][..i] == finalizers[..i];
  }

  lemma WithoutAll(finalizers: seq<string>)
    ensures Without(finalizers[..|finalizers|]) == Without(finalizers) && Without(finalizers[..0]) == []
  {
    assert finalizers[..|finalizers|] == finalizers;
  }

  /** The templates of the user and device ID are applied by functions. */
  datatype Config = Config(rotateAfter: int, homeserver: string, userId: string -> string, deviceId: string -> string)

  function Desired(cfg: Config, n: string, r: Record): (desired: map<string, string>)
    ensures desired.Keys <= {"access-token", "user-id", "device-id", "homeserver"}
  {
    var data := map["access-token" := r.token, "user-id" := cfg.userId(n), "device-id" := cfg.deviceId(n)];
    if cfg.homeserver != "" then data["homeserver" := cfg.homeserver] else data
  }

  predicate Shows(data: map<string, string>, desired: map<string, string>) {
    forall k | k in desired :: At(data, k) == desired[k]
  }

  function OwnersAt(s: State, at: (string, string)): set<string> {
    if at in s.secrets then s.secrets[at].owners else {}
  }

  function Place(o: Resource, spec: Spec): (string, string) {
    (o.namespace, spec.secretName)
  }

  /** The Secret is owned by the resource and holds the credential of the record. */
  predicate SecretAgrees(cfg: Config, s: State, o: Resource, spec: Spec, r: Record)
    requires r.generation >= 0
  {
    && Place(o, spec) in s.secrets
    && var secret := s.secrets[Place(o, spec)];
    && o.uid in secret.owners && secret.generation == Itoa(r.generation) && secret.agentLabel == spec.agentName
    && Shows(secret.data, Desired(cfg, spec.agentName, r))
  }

  function ReadyStatus(cfg: Config, o: Resource, spec: Spec, r: Record): AgentStatus {
    AgentStatus(Ready, "token is current", o.generation, cfg.userId(spec.agentName), cfg.deviceId(spec.agentName),
      r.userId, r.generation, spec.rotationToken, r.updatedAt / SECOND, spec.secretName, r.generation)
  }

  /** What setStatus makes of a status. */
  function Reported(o: Resource, st: AgentStatus, phase: Phase, message: string): AgentStatus {
    st.(phase := phase, message := message, observedGeneration := o.generation)
  }

  /** The status after a successful delivery, before it is reported. */
  function Delivered(cfg: Config, spec: Spec, st: AgentStatus, r: Record): AgentStatus {
    st.(restartedGeneration := r.generation, matrixUserId := cfg.userId(spec.agentName),
        deviceId := cfg.deviceId(spec.agentName), masUserId := r.userId, tokenGeneration := r.generation,
        lastRotation := r.updatedAt / SECOND, secretName := spec.secretName)
  }

  lemma ReportedSays(o: Resource, st: AgentStatus, phase: Phase, message: string)
    ensures Reported(o, st, phase, message).phase == phase && Reported(o, st, phase, message).message == message
  {
  }

  lemma DeliveredIsReady(cfg: Config, o: Resource, spec: Spec, st: AgentStatus, r: Record)
    requires st.rotationToken == spec.rotationToken
    ensures Reported(o, Delivered(cfg, spec, st, r), Ready, "token is current") == ReadyStatus(cfg, o, spec, r)
    ensures ReadyStatus(cfg, o, spec, r).restartedGeneration == r.generation
  {
  }

  function Blank(): AgentStatus {
    AgentStatus(Unset, "", 0, "", "", "", 0, "", 0, "", 0)
  }

  function StatusOf(o: Resource): AgentStatus {
    if o.status.Some? then o.status.value else Blank()
  }

  /** No request that writes anything was made between the two states. */
  predicate Quiet(s: State, t: State) {
    && t.resources == s.resources && t.secrets == s.secrets && t.deployments == s.deployments
    && t.records == s.records && t.work == s.work
  }

  /** A pass over one resource touches only that resource, its Secret and its agent. */
  predicate Within(s: State, t: State, k: string, n: string, at: (string, string)) {
    && t.resources - {k} == s.resources - {k} && k in s.resources && k in t.resources
    && t.resources[k] == s.resources[k].(finalizers := t.resources[k].finalizers, status := t.resources[k].status)
    && t.secrets - {at} == s.secrets - {at}
    && t.records - {n} == s.records - {n} && t.deployments == s.deployments
  }

  /** Every existing restart target lost its pods after the Secret held the generation. */
  predicate Restarted(s: State, o: Resource, spec: Spec, generation: int) {
    && (o.namespace, spec.secretName, generation) in s.held
    && forall d | d in spec.restartTargets && (o.namespace, d) in s.deployments ::
         (o.namespace, d) in s.restarted
           && s.restarted[(o.namespace, d)] > s.held[(o.namespace, spec.secretName, generation)]
  }

  /** The Deployment does not exist or has a usable selector. */
  predicate Restartable(s: State, o: Resource, d: string) {
    (o.namespace, d) in s.deployments ==> s.deployments[(o.namespace, d)]
  }

  /** The restart target is listed with nothing before it, and not itself, that stops the
      restarts for want of a usable selector. */
  predicate Reached(s: State, o: Resource, spec: Spec, d: string) {
    exists i | 0 <= i < |spec.restartTargets| && spec.restartTargets[i] == d ::
      forall j | 0 <= j <= i :: Restartable(s, o, spec.restartTargets[j])
  }

  /** No pods were deleted but those of existing restart targets that are reached. */
  predicate OnlyTargets(s: State, t: State, o: Resource, spec: Spec) {
    forall d | d in t.restarted && !(d in s.restarted && s.restarted[d] == t.restarted[d]) ::
      d in s.deployments && d.0 == o.namespace && Reached(s, o, spec, d.1)
  }

  /** The consumers may have an older token: another generation was recorded as restarted, or
      the Secret does not hold this token yet. */
  predicate MustRestart(s: State, o: Resource, spec: Spec, last: int, r: Record) {
    || (last != 0 && last != r.generation)
    || Place(o, spec) !in s.secrets || At(s.secrets[Place(o, spec)].data, "access-token") != r.token
  }

  /** A token issued after the clock was read is young at that reading. */
  lemma IssueIsYoung(cfg: Config, s: State, t: State, spec: Spec, kind: Kind, now: int)
    requires Sound(t) && EventStep(s.records, t.records, Event(kind, spec.agentName, true)) && Issues(kind)
    requires Dated(Find(s.records, spec.agentName), Find(t.records, spec.agentName), kind, s.tokens, t.tokens, s.clock,
      t.clock)
    requires s.clock == now && s.clock <= t.clock
    ensures spec.agentName in t.records && Young(cfg, t, spec, now)
  {
  }

  lemma SameNeeds(cfg: Config, s: State, t: State, spec: Spec, st: AgentStatus, now: int)
    requires t.records == s.records && t.refuses == s.refuses
    ensures Needs(cfg, s, spec, st, now) == Needs(cfg, t, spec, st, now) && Asked(s, spec, st) == Asked(t, spec, st)
    ensures Refused(cfg, s, spec, st, now) == Refused(cfg, t, spec, st, now)
    ensures Steady(cfg, s, spec, st, now) == Steady(cfg, t, spec, st, now)
  {
  }

  lemma SteadyIsOurs(cfg: Config, s: State, spec: Spec, st: AgentStatus, now: int)
    requires Sound(s) && Steady(cfg, s, spec, st, now)
    ensures spec.agentName in s.records && !NotForThis(s.records[spec.agentName], spec, st)
    ensures Needs(cfg, s, spec, st, now).None?
  {
    SoundRecord(s, spec.agentName);
  }

  lemma IssuedSince(cfg: Config, s: State, s1: State, t: State, spec: Spec, st: AgentStatus, now: int)
    requires s1.records == s.records && s1.work == s.work && IssuedAsNeeded(cfg, s1, t, spec, st, now)
    ensures IssuedAsNeeded(cfg, s, t, spec, st, now)
  {
  }

  /** Nothing but the agent service was called, and only for agent `n`. */
  ghost predicate ServiceOnly(s: State, t: State, n: string) {
    && Grows(s, t) && Renewal(s, t, n) && t.records - {n} == s.records - {n}
    && t == s.(records := t.records, faults := t.faults, clock := t.clock, tokens := t.tokens, refuses := t.refuses,
      work := s.work.(creates := t.work.creates, rotates := t.work.rotates, requested := t.work.requested))
  }

  lemma ServiceFrame(s: State, t: State, n: string)
    requires ServiceOnly(s, t, n)
    ensures Grows(s, t) && Renewal(s, t, n) && t.records - {n} == s.records - {n} && t.resources == s.resources
    ensures t.secrets == s.secrets && t.deployments == s.deployments && t.restarted == s.restarted
    ensures t.faults >= s.faults && t.clock >= s.clock && t.work.failedStatusWrites == s.work.failedStatusWrites
    ensures t.work.secretWrites == s.work.secretWrites
  {
  }

  lemma ServedNothing(s: State, n: string)
    ensures ServiceOnly(s, s, n)
  {
  }

  lemma ReadOnly(s: State, t: State, n: string)
    requires t == s.(faults := t.faults, clock := t.clock) && s.faults <= t.faults && s.clock <= t.clock
    ensures ServiceOnly(s, t, n) && t.records == s.records && t.work == s.work && t.refuses == s.refuses
    ensures t.tokens == s.tokens
    ensures t.faults >= s.faults
  {
  }

  lemma ServiceOn(s: State, s1: State, t: State, n: string)
    requires ServiceOnly(s, s1, n) && s1.records == s.records && ServiceOnly(s1, t, n)
    ensures ServiceOnly(s, t, n) && t.faults >= s1.faults >= s.faults
  {
    GrowsOn(s, s1, t);
    RenewalSince(s, s1, t, n);
  }

  lemma RenewalSince(s: State, s1: State, t: State, n: string)
    requires s1.records == s.records && s.clock <= s1.clock && TokensKept(s.tokens, s1.tokens) && Renewal(s1, t, n)
    ensures Renewal(s, t, n)
  {
  }

  /** Nothing but pods was touched. */
  predicate RestartsOnly(s: State, t: State) {
    && Grows(s, t)
    && t == s.(tick := t.tick, restarted := t.restarted, faults := t.faults,
               work := s.work.(restarts := t.work.restarts))
  }

  /** The first `i` restart targets are done, and no others. */
  predicate RestartedUpTo(s: State, t: State, o: Resource, spec: Spec, i: nat, generation: int)
    requires i <= |spec.restartTargets|
  {
    && OnlyTargets(s, t, o, spec) && (o.namespace, spec.secretName, generation) in t.held
    && forall j | 0 <= j < i ::
         Restartable(s, o, spec.restartTargets[j])
         && RestartedSince(t, o, spec, generation, spec.restartTargets[j])
  }

  predicate RestartedSince(s: State, o: Resource, spec: Spec, generation: int, d: string)
    requires (o.namespace, spec.secretName, generation) in s.held
  {
    (o.namespace, d) in s.deployments ==>
      && (o.namespace, d) in s.restarted
      && s.restarted[(o.namespace, d)] > s.held[(o.namespace, spec.secretName, generation)]
  }

  lemma NothingRestarted(s: State, o: Resource, spec: Spec, generation: int)
    requires (o.namespace, spec.secretName, generation) in s.held
    ensures RestartsOnly(s, s) && RestartedUpTo(s, s, o, spec, 0, generation)
  {
  }

  lemma StopsHere(s: State, t: State, t1: State, o: Resource, spec: Spec, i: nat, generation: int)
    requires i < |spec.restartTargets| && RestartsOnly(s, t) && RestartedUpTo(s, t, o, spec, i, generation)
    requires Grows(t, t1) && t1 == t.(faults := t1.faults)
    requires t1.faults > t.faults || !Restartable(t, o, spec.restartTargets[i])
    ensures RestartsOnly(s, t1) && OnlyTargets(s, t1, o, spec)
    ensures t1.faults == s.faults ==> !TargetsUsable(t1, o, spec)
  {
    GrowsOn(s, t, t1);
    hide Reached;
    assert spec.restartTargets[i] in spec.restartTargets;
  }

  lemma NothingToRestart(s: State, t: State, o: Resource, spec: Spec, i: nat, generation: int)
    requires i < |spec.restartTargets| && RestartsOnly(s, t) && RestartedUpTo(s, t, o, spec, i, generation)
    requires (o.namespace, spec.restartTargets[i]) !in t.deployments
    ensures OnlyTargets(s, t, o, spec) && RestartedUpTo(s, t, o, spec, i + 1, generation)
  {
    hide Reached; hide Grows;
  }

  lemma RestartsOne(s: State, t: State, t1: State, o: Resource, spec: Spec, i: nat, generation: int)
    requires Sound(t) && i < |spec.restartTargets| && RestartsOnly(s, t) && RestartedUpTo(s, t, o, spec, i, generation)
    requires var d := (o.namespace, spec.restartTargets[i]);
      && d in t.deployments && t.deployments[d] && Grows(t, t1)
      && t1 == t.(tick := t.tick + 1, restarted := t.restarted[d := t.tick + 1],
                  work := t.work.(restarts := t.work.restarts + 1))
    ensures RestartsOnly(s, t1) && RestartedUpTo(s, t1, o, spec, i + 1, generation) && OnlyTargets(s, t1, o, spec)
  {
    GrowsOn(s, t, t1);
    assert forall j | 0 <= j <= i :: Restartable(s, o, spec.restartTargets[j]);
    assert Reached(s, o, spec, spec.restartTargets[i]);
    hide Reached;
  }

  lemma RestartStep(s: State, t: State, t1: State, o: Resource, spec: Spec, i: nat, generation: int, ok: bool)
    requires Sound(t) && i < |spec.restartTargets| && RestartsOnly(s, t) && RestartedUpTo(s, t, o, spec, i, generation)
    requires Grows(t, t1)
    requires var d := (o.namespace, spec.restartTargets[i]);
      if !ok then t1 == t.(faults := t1.faults)
      else if d !in t.deployments then t1 == t
      else
        && t.deployments[d]
        && t1 == t.(tick := t.tick + 1, restarted := t.restarted[d := t.tick + 1],
                    work := t.work.(restarts := t.work.restarts + 1))
    requires !ok ==> t1.faults > t.faults || !Restartable(t, o, spec.restartTargets[i])
    ensures RestartsOnly(s, t1) && OnlyTargets(s, t1, o, spec)
    ensures ok ==> RestartedUpTo(s, t1, o, spec, i + 1, generation)
    ensures !ok && t1.faults == s.faults ==> !TargetsUsable(t1, o, spec)
  {
    hide OnlyTargets; hide Grows; hide RestartedUpTo; hide RestartsOnly; hide Restartable; hide TargetsUsable;
    hide Sound;
    if !ok {
      StopsHere(s, t, t1, o, spec, i, generation);
    } else if (o.namespace, spec.restartTargets[i]) !in t.deployments {
      NothingToRestart(s, t, o, spec, i, generation);
    } else {
      RestartsOne(s, t, t1, o, spec, i, generation);
    }
  }

  lemma AllRestarted(s: State, t: State, o: Resource, spec: Spec, generation: int)
    requires RestartsOnly(s, t) && RestartedUpTo(s, t, o, spec, |spec.restartTargets|, generation)
    ensures Restarted(t, o, spec, generation) && OnlyTargets(s, t, o, spec) && TargetsUsable(t, o, spec)
  {
    forall d | d in spec.restartTargets
      ensures Restartable(s, o, d) && RestartedSince(t, o, spec, generation, d)
    {
      var j :| 0 <= j < |spec.restartTargets| && spec.restartTargets[j] == d;
    }
  }

  lemma NoPodsDeleted(s: State, t: State, o: Resource, spec: Spec)
    requires t.restarted == s.restarted && t.deployments == s.deployments
    ensures OnlyTargets(s, t, o, spec)
    ensures forall u :: OnlyTargets(t, u, o, spec) ==> OnlyTargets(s, u, o, spec)
  {
  }

  /** The resource `o1` says of `o` that it is not Ready, and nothing else but what is in `st`. */
  predicate Complains(o1: Resource, o: Resource, st: AgentStatus) {
    && o1.status.Some? && o1.status.value.phase != Ready
    && o1.status.value == Reported(o, st, o1.status.value.phase, o1.status.value.message)
  }

  /** The agent needs no attention: active, adopted, no rotation asked for, token young. */
  predicate Steady(cfg: Config, s: State, spec: Spec, st: AgentStatus, now: int) {
    && spec.agentName in s.records
    && var r := s.records[spec.agentName];
    && r.status.Active? && st.masUserId == r.userId && st.rotationToken == spec.rotationToken
    && (cfg.rotateAfter > 0 ==> now - r.updatedAt <= cfg.rotateAfter)
  }

  /** The spec asks a known, active agent for a rotation. */
  predicate Asked(s: State, spec: Spec, st: AgentStatus) {
    && spec.agentName in s.records && s.records[spec.agentName].status.Active?
    && st.masUserId != "" && st.rotationToken != spec.rotationToken
  }

  /** What a pass has to ask of the agent service, unless the agent is not its own. */
  function Needs(cfg: Config, s: State, spec: Spec, st: AgentStatus, now: int): Option<Kind> {
    if spec.agentName !in s.records then Some(Creates) else
    var r := s.records[spec.agentName];
    if !r.status.Active? || Asked(s, spec, st) || (cfg.rotateAfter > 0 && now - r.updatedAt > cfg.rotateAfter)
    then Some(Rotates) else None
  }

  predicate Refused(cfg: Config, s: State, spec: Spec, st: AgentStatus, now: int) {
    Needs(cfg, s, spec, st, now).Some? && (Needs(cfg, s, spec, st, now).value, spec.agentName) in s.refuses
  }

  /** A pass did of the service what it needed, nothing else, and the token is young now. */
  predicate IssuedAsNeeded(cfg: Config, s: State, t: State, spec: Spec, st: AgentStatus, now: int) {
    && t.work.creates == s.work.creates + (if Needs(cfg, s, spec, st, now) == Some(Creates) then 1 else 0)
    && t.work.rotates == s.work.rotates + (if Needs(cfg, s, spec, st, now) == Some(Rotates) then 1 else 0)
    && t.work.requested == s.work.requested + (if Asked(s, spec, st) then 1 else 0)
    && (Needs(cfg, s, spec, st, now).None? ==> t.records == s.records)
    && spec.agentName in t.records && Young(cfg, t, spec, now)
    && t.clock >= now
  }

  /** The agent's record was left alone or dated since. */
  predicate Renewal(s: State, t: State, n: string) {
    Dated(Find(s.records, n), Find(t.records, n), Rotates, s.tokens, t.tokens, s.clock, t.clock)
  }

  /** The record is another's, was recreated by another, or is retired. */
  predicate NotForThis(r: Record, spec: Spec, st: AgentStatus) {
    || (st.masUserId == "" && !spec.adoptExisting)
    || (st.masUserId != "" && st.masUserId != r.userId)
    || r.status.Deactivated?
  }

  /** The record is there, and is another's or was recreated by another. */
  predicate Contested(s: State, spec: Spec, st: AgentStatus) {
    && spec.agentName in s.records
    && if st.masUserId == "" then !spec.adoptExisting else st.masUserId != s.records[spec.agentName].userId
  }

  /** A failed pass over a claimed and valid resource says so in the status, if that can be
      written: a conflict about the agent if there is one that could be read, and a failure
      otherwise, with the recorded past, but for the rotation token if the token was seen to. */
  predicate Explains(s: State, t: State, o: Resource, spec: Spec, ok: bool)
    requires Key(o) in t.resources
  {
    !ok && t.work.failedStatusWrites == s.work.failedStatusWrites ==>
      var st, st1 := StatusOf(o), StatusOf(t.resources[Key(o)]);
      && t.resources[Key(o)].status == Some(Reported(o, st.(rotationToken := st1.rotationToken), st1.phase,
           st1.message))
      && (st1.phase == Failed || (st1.phase == Conflict && Contested(s, spec, st)))
      && (Contested(s, spec, st) && t.faults == s.faults ==> st1.phase == Conflict)
  }

  /** The finalizer comes before anything else: without it the agent is not touched. */
  predicate Guarded(s: State, t: State, o: Resource, spec: Spec, ok: bool)
    requires Key(o) in t.resources
  {
    var o1 := t.resources[Key(o)];
    if FINALIZER in o.finalizers then o1.finalizers == o.finalizers && Explains(s, t, o, spec, ok)
    else if FINALIZER in o1.finalizers then
      o1.finalizers == o.finalizers + [FINALIZER] && Explains(s, t, o, spec, ok)
    else !ok && o1 == o && t.faults > s.faults && t.records == s.records && t.secrets == s.secrets
  }

  /** The pass wrote nothing but its verdict into the status, unless that failed. */
  predicate Rejected(s: State, t: State, o: Resource, st: AgentStatus, phase: Phase, message: string, ok: bool)
    requires Key(o) in t.resources
  {
    && !ok && t.records == s.records && t.secrets == s.secrets && t.restarted == s.restarted && !Issued(s, t)
    && t.resources[Key(o)] ==
         if t.work.failedStatusWrites == s.work.failedStatusWrites
         then o.(status := Some(Reported(o, st, phase, message))) else o
  }

  predicate NotOurs(s: State, spec: Spec, st: AgentStatus) {
    spec.agentName in s.records && NotForThis(s.records[spec.agentName], spec, st)
  }

  /** The Secret is there, is not owned by the resource and may not be adopted. */
  predicate Foreign(s: State, o: Resource, spec: Spec) {
    Place(o, spec) in s.secrets && o.uid !in s.secrets[Place(o, spec)].owners && !spec.adoptExisting
  }

  /** What no later pass can mend by itself. */
  predicate Blocked(s: State, o: Resource, spec: Spec) {
    NotOurs(s, spec, StatusOf(o)) || Foreign(s, o, spec)
  }

  /** Each restart target that exists has a usable selector. */
  predicate TargetsUsable(s: State, o: Resource, spec: Spec) {
    forall d | d in spec.restartTargets :: Restartable(s, o, d)
  }

  lemma SameTargets(s: State, t: State, o: Resource, spec: Spec)
    requires t.deployments == s.deployments
    ensures TargetsUsable(t, o, spec) == TargetsUsable(s, o, spec)
  {
  }

  lemma ObstaclesStay(s: State, t: State, o: Resource, spec: Spec)
    requires t.secrets == s.secrets && t.deployments == s.deployments
    ensures Foreign(t, o, spec) == Foreign(s, o, spec) && TargetsUsable(t, o, spec) == TargetsUsable(s, o, spec)
  {
  }

  predicate Issued(s: State, t: State) {
    t.work.creates + t.work.rotates > s.work.creates + s.work.rotates
  }

  /** The resource, its agent record and its Secret say the same. */
  predicate Agreed(cfg: Config, s: State, k: string, spec: Spec) {
    && k in s.resources && spec.agentName in s.records
    && var o, r := s.resources[k], s.records[spec.agentName];
    && r.status.Active? && r.token != "" && r.generation >= 1
    && o.status == Some(ReadyStatus(cfg, o, spec, r)) && SecretAgrees(cfg, s, o, spec, r)
  }

  predicate Young(cfg: Config, s: State, spec: Spec, now: int) {
    cfg.rotateAfter > 0 && spec.agentName in s.records ==> now - s.records[spec.agentName].updatedAt <= cfg.rotateAfter
  }

  /** What one pass over `o` means for rotation requests, restarts and token age. */
  predicate Passed(cfg: Config, s: State, t: State, o: Resource, spec: Spec, now: int, ok: bool) {
    && Key(o) in t.resources
    && var before, after := StatusOf(o), StatusOf(t.resources[Key(o)]);
    && RequestTaken(s, t, spec, before, after)
    && Renewal(s, t, spec.agentName)
    && RestartsAsNeeded(cfg, s, t, o, spec, before.restartedGeneration)
    && (before.masUserId != "" ==> after.masUserId != "")
    && (ok && before.masUserId != "" && before.rotationToken != spec.rotationToken ==> Issued(s, t))
    && (ok ==> now <= t.clock && Young(cfg, t, spec, now) && (Issued(s, t) || t.records == s.records))
    && (ok ==>
          && Holds(cfg, t, o, spec) && after.rotationToken == spec.rotationToken
          && t.resources[Key(o)].status == Some(ReadyStatus(cfg, o, spec, t.records[spec.agentName]))
          && var g := t.records[spec.agentName].generation;
          && g >= 1 && after.restartedGeneration == g && (o.namespace, spec.secretName, g) in t.held
          && (MustRestart(s, o, spec, before.restartedGeneration, t.records[spec.agentName]) ==>
            Restarted(t, o, spec, g)))
    && (!ok ==> after.restartedGeneration == before.restartedGeneration && after.masUserId == before.masUserId)
    && (NotOurs(s, spec, before) ==> !ok)
  }

  /** Rotation requests: a pass makes a requested Rotate only if asked to, and the one that
      records the request has made it if and only if the agent was active. */
  predicate RequestTaken(s: State, t: State, spec: Spec, before: AgentStatus, after: AgentStatus) {
    && t.work.creates + t.work.rotates <= s.work.creates + s.work.rotates + 1
    && s.work.requested <= t.work.requested <= s.work.requested + 1
    && (t.work.requested > s.work.requested ==>
          && Issued(s, t) && Asked(s, spec, before)
          && (t.work.failedStatusWrites == s.work.failedStatusWrites ==> after.rotationToken == spec.rotationToken))
    && (after.rotationToken == before.rotationToken || after.rotationToken == spec.rotationToken)
    && (before.masUserId != "" && after.rotationToken != before.rotationToken ==>
          Issued(s, t) && (t.work.requested > s.work.requested <==> Asked(s, spec, before)))
  }

  /** Restarts: none without need, and the Secret is never changed to anything but the
      credential of the record. */
  predicate RestartsAsNeeded(cfg: Config, s: State, t: State, o: Resource, spec: Spec, last: int) {
    && (t.restarted == s.restarted
        || (spec.agentName in t.records
            && MustRestart(s, o, spec, last, t.records[spec.agentName])))
    && OnlyTargets(s, t, o, spec)
    && (t.secrets == s.secrets || (Holds(cfg, t, o, spec) && t.work.secretWrites > s.work.secretWrites))
  }

  /** Without faults the credential of the record is delivered, unless there is none or the
      Secret is foreign, and nothing but an unusable restart target can fail the rest. */
  predicate Delivers(cfg: Config, s: State, t: State, o: Resource, spec: Spec, last: int, ok: bool) {
    t.faults == s.faults ==>
      if spec.agentName !in t.records || Foreign(s, o, spec) then !ok
      else
        && Holds(cfg, t, o, spec)
        && (ok <==> (MustRestart(s, o, spec, last, t.records[spec.agentName]) ==> TargetsUsable(s, o, spec)))
  }

  /** What a pass over a claimed and valid resource comes to. */
  predicate Outcome(cfg: Config, s: State, t: State, o: Resource, spec: Spec, st: AgentStatus, now: int, ok: bool) {
    && (NotOurs(s, spec, st) || Refused(cfg, s, spec, st, now) || Foreign(s, o, spec) ==> !ok)
    && (t.faults == s.faults && !NotOurs(s, spec, st) && !Refused(cfg, s, spec, st, now) ==>
          spec.agentName in t.records && Delivers(cfg, s, t, o, spec, st.restartedGeneration, ok))
    && (t.faults == s.faults && Needs(cfg, s, spec, st, now).None? ==>
          t.records == s.records && t.tokens == s.tokens && t.clock == now && t.refuses == s.refuses)
  }

  lemma OutcomeCombines(cfg: Config, s: State, s1: State, t: State, o: Resource, spec: Spec, st: AgentStatus, now: int,
        ready: bool, ok: bool)
    requires s1.secrets == s.secrets && s1.deployments == s.deployments && s.faults <= s1.faults <= t.faults
    requires ok ==> ready
    requires NotOurs(s, spec, st) || Refused(cfg, s, spec, st, now) ==> !ready
    requires !ready && s1.faults == s.faults ==> NotOurs(s, spec, st) || Refused(cfg, s, spec, st, now)
    requires ready ==> spec.agentName in t.records && Delivers(cfg, s1, t, o, spec, st.restartedGeneration, ok)
    requires Foreign(s1, o, spec) ==> !ok
    requires s1.faults == s.faults && Needs(cfg, s, spec, st, now).None? ==>
      s1.records == s.records && s1.tokens == s.tokens && s1.clock == now && s1.refuses == s.refuses
    requires t.records == s1.records && t.tokens == s1.tokens && t.clock == s1.clock && t.refuses == s1.refuses
    ensures Outcome(cfg, s, t, o, spec, st, now, ok)
  {
    hide SecretAgrees; hide Needs; hide Refused; hide NotOurs;
  }

  /** The Secret of the resource holds the credential of the record. */
  predicate Holds(cfg: Config, s: State, o: Resource, spec: Spec) {
    && spec.agentName in s.records && s.records[spec.agentName].generation >= 1
    && SecretAgrees(cfg, s, o, spec, s.records[spec.agentName])
  }

  /** What the report at the end of a pass leaves behind, when `st` was to be reported. */
  predicate Reports(cfg: Config, s: State, t: State, o: Resource, spec: Spec, st: AgentStatus, ok: bool) {
    && Key(o) in t.resources && t.records == s.records && t.clock == s.clock && t.tokens == s.tokens
    && t.work.creates == s.work.creates && t.work.rotates == s.work.rotates && t.work.requested == s.work.requested
    && t.work.failedStatusWrites >= s.work.failedStatusWrites
    && RestartsAsNeeded(cfg, s, t, o, spec, st.restartedGeneration)
    && (t.work.failedStatusWrites > s.work.failedStatusWrites ==> t.resources[Key(o)] == o && !ok)
    && (t.work.failedStatusWrites == s.work.failedStatusWrites && !ok ==>
          Complains(t.resources[Key(o)], o, st))
    && (ok ==>
          && spec.agentName in t.records
          && var r := t.records[spec.agentName];
          && r.generation >= 1 && r.userId != "" && t.resources[Key(o)].status == Some(ReadyStatus(cfg, o, spec, r))
          && SecretAgrees(cfg, t, o, spec, r)
          && (o.namespace, spec.secretName, r.generation) in t.held
          && (MustRestart(s, o, spec, st.restartedGeneration, r) ==> Restarted(t, o, spec, r.generation)))
  }

  lemma RestartsSince(cfg: Config, s: State, s1: State, t: State, o: Resource, spec: Spec, last: int)
    requires s1.secrets == s.secrets && s1.restarted == s.restarted && s1.deployments == s.deployments
    requires s1.work.secretWrites == s.work.secretWrites && RestartsAsNeeded(cfg, s1, t, o, spec, last)
    ensures RestartsAsNeeded(cfg, s, t, o, spec, last)
  {
    hide SecretAgrees;
  }

  lemma RestartsUntil(cfg: Config, s: State, t: State, t1: State, o: Resource, spec: Spec, last: int)
    requires t1.secrets == t.secrets && t1.restarted == t.restarted && t1.records == t.records
    requires t1.work.secretWrites == t.work.secretWrites && RestartsAsNeeded(cfg, s, t, o, spec, last)
    ensures RestartsAsNeeded(cfg, s, t1, o, spec, last)
  {
    if Holds(cfg, t, o, spec) { AgreementStays(cfg, t, t1, o, spec, t.records[spec.agentName]); }
    hide SecretAgrees;
  }

  lemma DeliversUntil(cfg: Config, s: State, t: State, t1: State, o: Resource, spec: Spec, last: int, delivered: bool,
        ok: bool)
    requires t1.secrets == t.secrets && t1.records == t.records && s.faults <= t.faults <= t1.faults
    requires Delivers(cfg, s, t, o, spec, last, delivered)
    requires (ok ==> delivered) && (t1.faults == t.faults && delivered ==> ok)
    ensures Delivers(cfg, s, t1, o, spec, last, ok)
  {
    if spec.agentName in t.records && t.records[spec.agentName].generation >= 1 {
      AgreementStays(cfg, t, t1, o, spec, t.records[spec.agentName]);
    }
    hide SecretAgrees; hide MustRestart; hide TargetsUsable; hide Foreign;
  }

  lemma PassCombines(cfg: Config, s: State, s1: State, t: State, o: Resource, spec: Spec, next: AgentStatus, now: int,
        ready: bool, ok: bool)
    requires Reports(cfg, s1, t, o, spec, next, ok) && (ok ==> ready)
    requires s1.work.failedStatusWrites == s.work.failedStatusWrites
    requires s1.secrets == s.secrets && s1.restarted == s.restarted && Renewal(s, s1, spec.agentName)
    requires s1.deployments == s.deployments && s1.work.secretWrites == s.work.secretWrites
    requires !ready ==> next == StatusOf(o) && s1.work == s.work
    requires ready ==> !NotOurs(s, spec, StatusOf(o))
    requires ready ==>
      && next == StatusOf(o).(rotationToken := spec.rotationToken)
      && IssuedAsNeeded(cfg, s, s1, spec, StatusOf(o), now)
    ensures Passed(cfg, s, t, o, spec, now, ok)
  {
    hide Restarted; hide Key; hide RestartsAsNeeded;
    RestartsSince(cfg, s, s1, t, o, spec, next.restartedGeneration);
  }

  lemma SecretAgreesOnToken(cfg: Config, s: State, o: Resource, spec: Spec, r: Record)
    requires r.generation >= 0
    ensures SecretAgrees(cfg, s, o, spec, r) ==>
      Place(o, spec) in s.secrets && At(s.secrets[Place(o, spec)].data, "access-token") == r.token
  {
    assert Desired(cfg, spec.agentName, r)["access-token"] == r.token;
  }

  lemma AgreementStays(cfg: Config, s: State, t: State, o: Resource, spec: Spec, r: Record)
    requires r.generation >= 0 && (Place(o, spec) in s.secrets <==> Place(o, spec) in t.secrets)
    requires Place(o, spec) in s.secrets ==> t.secrets[Place(o, spec)] == s.secrets[Place(o, spec)]
    ensures SecretAgrees(cfg, s, o, spec, r) <==> SecretAgrees(cfg, t, o, spec, r)
  {
  }

  lemma RestartedStays(s: State, t: State, o: Resource, spec: Spec, generation: int)
    requires t.held == s.held && t.restarted == s.restarted && t.deployments == s.deployments
    ensures Restarted(s, o, spec, generation) ==> Restarted(t, o, spec, generation)
  {
  }

  /** Publishing again what is published already writes nothing. */
  predicate LeavesAgreement(cfg: Config, s: State, t: State, o: Resource, spec: Spec, st: AgentStatus, ok: bool) {
    && spec.agentName in s.records && s.records[spec.agentName].generation >= 0
    && SecretAgrees(cfg, s, o, spec, s.records[spec.agentName])
    && o.status == Some(st) && st == ReadyStatus(cfg, o, spec, s.records[spec.agentName])
    && t.faults == s.faults
    ==> ok && Quiet(s, t)
  }

  lemma PassIsQuiet(cfg: Config, s: State, s1: State, t: State, o: Resource, spec: Spec, next: AgentStatus, now: int,
        ready: bool, ok: bool)
    requires Key(o) in s.resources && s.resources[Key(o)] == o && s.faults <= s1.faults <= t.faults
    requires s1.resources == s.resources && s1.secrets == s.secrets && s1.deployments == s.deployments
    requires Steady(cfg, s, spec, StatusOf(o), now) && s1.faults == s.faults ==>
      ready && s1.records == s.records && s1.work == s.work
    requires ready ==>
      && next == StatusOf(o).(rotationToken := spec.rotationToken)
      && LeavesAgreement(cfg, s1, t, o, spec, next, ok)
    ensures Agreed(cfg, s, Key(o), spec) && Young(cfg, s, spec, now) && t.faults == s.faults ==> ok && Quiet(s, t)
  {
    if Agreed(cfg, s, Key(o), spec) && Young(cfg, s, spec, now) && t.faults == s.faults {
      AgreedIsSteady(cfg, s, o, spec, now);
      AgreementStays(cfg, s, s1, o, spec, s.records[spec.agentName]);
    }
  }

  lemma PassExplains(s: State, s1: State, t: State, o: Resource, spec: Spec, next: AgentStatus, phase: Phase, ok: bool)
    requires Key(o) in t.resources && s.faults <= s1.faults <= t.faults && phase != Unset
    requires s1.work.failedStatusWrites == s.work.failedStatusWrites
    requires phase == Conflict <==> Contested(s, spec, StatusOf(o)) && s1.faults == s.faults
    requires phase == Ready ==> !NotOurs(s, spec, StatusOf(o))
    requires next == StatusOf(o).(rotationToken := next.rotationToken)
    requires !ok && t.work.failedStatusWrites == s1.work.failedStatusWrites ==>
      t.resources[Key(o)].status == Some(Reported(o, next, if phase == Ready then Failed else phase,
        StatusOf(t.resources[Key(o)]).message))
    ensures Explains(s, t, o, spec, ok)
  {
  }

  predicate ValidSpec(spec: Spec) {
    && TrimSpace(spec.displayName) != "" && TrimSpace(spec.secretName) != ""
    && (spec.deletionPolicy == "Retain" || spec.deletionPolicy == "Deactivate")
  }

  function NameOf(o: Resource): string {
    if Decode(o).Some? then Decode(o).value.agentName else ""
  }

  function PlaceOf(o: Resource): (string, string) {
    if Decode(o).Some? then Place(o, Decode(o).value) else (o.namespace, "")
  }

  predicate Claimed(owners: map<string, string>, o: Resource) {
    Decode(o).Some? && NameOf(o) in owners && owners[NameOf(o)] == Key(o)
  }

  /** A pass over the resource has nothing left to do. */
  predicate Settled(cfg: Config, s: State, k: string) {
    && k in s.resources && !s.resources[k].deleting && FINALIZER in s.resources[k].finalizers
    && Decode(s.resources[k]).Some? && ValidSpec(Decode(s.resources[k]).value)
    && Agreed(cfg, s, k, Decode(s.resources[k]).value)
  }

  /** Spelled out: what the Secret of a settled resource holds, and what its status says. */
  lemma SettledMeans(cfg: Config, s: State, o: Resource, spec: Spec)
    requires Settled(cfg, s, Key(o)) && s.resources[Key(o)] == o && Decode(o) == Some(spec)
    ensures spec.agentName in s.records && (o.namespace, spec.secretName) in s.secrets && o.status.Some?
    ensures var n, r, secret := spec.agentName, s.records[spec.agentName], s.secrets[(o.namespace, spec.secretName)];
      && r.status.Active? && r.token != "" && o.uid in secret.owners
      && secret.agentLabel == n && secret.generation == Itoa(r.generation)
      && At(secret.data, "access-token") == r.token && At(secret.data, "user-id") == cfg.userId(n)
      && At(secret.data, "device-id") == cfg.deviceId(n)
      && (cfg.homeserver != "" ==> At(secret.data, "homeserver") == cfg.homeserver)
    ensures var n, r, st := spec.agentName, s.records[spec.agentName], o.status.value;
      && st.phase == Ready && st.observedGeneration == o.generation && st.rotationToken == spec.rotationToken
      && st.matrixUserId == cfg.userId(n) && st.deviceId == cfg.deviceId(n) && st.masUserId == r.userId
      && st.tokenGeneration == r.generation && st.restartedGeneration == r.generation
      && st.lastRotation == r.updatedAt / SECOND && st.secretName == spec.secretName
  {
    hide TrimSpace; hide Itoa; hide Key;
    var desired := Desired(cfg, spec.agentName, s.records[spec.agentName]);
    assert desired["access-token"] == s.records[spec.agentName].token;
    assert desired["user-id"] == cfg.userId(spec.agentName);
    assert desired["device-id"] == cfg.deviceId(spec.agentName);
    if cfg.homeserver != "" { assert desired["homeserver"] == cfg.homeserver; }
  }

  lemma PassIsWithin(s: State, s1: State, t: State, o: Resource, spec: Spec)
    requires s1.resources == s.resources && s1.secrets == s.secrets && s1.deployments == s.deployments == t.deployments
    requires s1.records - {spec.agentName} == s.records - {spec.agentName} && t.records == s1.records
    requires t.resources - {Key(o)} == s1.resources - {Key(o)}
      && t.secrets - {Place(o, spec)} == s1.secrets - {Place(o, spec)}
    requires Key(o) in s.resources && s.resources[Key(o)] == o
    requires Key(o) in t.resources
    requires t.resources[Key(o)] == o.(finalizers := t.resources[Key(o)].finalizers,
      status := t.resources[Key(o)].status)
    ensures Within(s, t, Key(o), spec.agentName, Place(o, spec))
  {
  }

  lemma PublishedAgrees(cfg: Config, s: State, o: Resource, spec: Spec)
    requires Key(o) in s.resources && s.resources[Key(o)] == o.(status := s.resources[Key(o)].status)
    requires spec.agentName in s.records && s.records[spec.agentName].generation >= 1
    requires s.records[spec.agentName].status.Active? && s.records[spec.agentName].token != ""
    requires s.resources[Key(o)].status == Some(ReadyStatus(cfg, o, spec, s.records[spec.agentName]))
    requires SecretAgrees(cfg, s, o, spec, s.records[spec.agentName])
    ensures Agreed(cfg, s, Key(o), spec)
  {
  }

  lemma AgreedIsSteady(cfg: Config, s: State, o: Resource, spec: Spec, now: int)
    requires Key(o) in s.resources && s.resources[Key(o)] == o && Agreed(cfg, s, Key(o), spec)
      && Young(cfg, s, spec, now)
    ensures Steady(cfg, s, spec, StatusOf(o), now)
    ensures var r := s.records[spec.agentName];
      && o.status == Some(StatusOf(o)) && StatusOf(o) == ReadyStatus(cfg, o, spec, r)
      && SecretAgrees(cfg, s, o, spec, r)
      && StatusOf(o).(rotationToken := spec.rotationToken) == StatusOf(o)
  {
  }

  lemma SoundRecord(s: State, n: string)
    requires Sound(s) && n in s.records
    ensures s.records[n].generation >= 1 && s.records[n].userId != ""
    ensures s.records[n].status.Active? ==> s.records[n].token != ""
  {
  }

  lemma WrittenAsItWas(resources: map<string, Resource>, k: string)
    requires k in resources
    ensures resources[k := resources[k]] == resources
  {
  }

  lemma GrowsSame(s: State)
    ensures Grows(s, s)
  {
  }

  lemma NowSettled(cfg: Config, s: State, before: State, o: Resource, spec: Spec, current: Resource)
    requires Key(o) in s.resources && Key(current) == Key(o) && Decode(o) == Some(spec) && !o.deleting
      && ValidSpec(spec)
    requires Key(o) in before.resources && before.resources[Key(o)] == o
    requires current == o.(finalizers := current.finalizers) && FINALIZER in current.finalizers
    requires s.resources[Key(o)] == current.(status := s.resources[Key(o)].status)
    ensures Agreed(cfg, s, Key(o), spec) ==> Settled(cfg, s, Key(o))
    ensures Settled(cfg, before, Key(o)) ==> Agreed(cfg, before, Key(o), spec) && FINALIZER in o.finalizers
  {
  }

  lemma FinalizerIsWithin(s: State, t: State, o: Resource, spec: Spec)
    requires Key(o) in s.resources && s.resources[Key(o)] == o
    requires t == s.(faults := t.faults) || (exists f ::
      t == s.(resources := s.resources[Key(o) := o.(finalizers := f)], work := t.work))
    ensures Within(s, t, Key(o), spec.agentName, Place(o, spec))
  {
  }

  lemma WithinOn(s: State, t: State, u: State, k: string, n: string, at: (string, string))
    requires Within(s, t, k, n, at) && Within(t, u, k, n, at)
    ensures Within(s, u, k, n, at)
  {
  }

  lemma SameButFinalizers(o: Resource, current: Resource, spec: Spec)
    requires current == o.(finalizers := current.finalizers)
    ensures Key(current) == Key(o) && Place(current, spec) == Place(o, spec) && StatusOf(current) == StatusOf(o)
  {
  }

  lemma NoOutcome(cfg: Config, s: State, t: State, o: Resource, spec: Spec, now: int)
    requires t.faults > s.faults
    ensures Outcome(cfg, s, t, o, spec, StatusOf(o), now, false)
  {
  }

  lemma OutcomeSince(cfg: Config, s: State, s1: State, t: State, o: Resource, current: Resource, spec: Spec, now: int,
        ok: bool)
    requires Outcome(cfg, s1, t, current, spec, StatusOf(current), now, ok)
    requires s1 == s.(resources := s1.resources, work := s1.work) && current == o.(finalizers := current.finalizers)
    ensures Outcome(cfg, s, t, o, spec, StatusOf(o), now, ok)
  {
    hide SecretAgrees;
    SameObstacles(cfg, s, s1, o, current, spec, now);
    if spec.agentName in t.records && t.records[spec.agentName].generation >= 1 {
      SameAgreement(cfg, t, o, current, spec, t.records[spec.agentName]);
    }
  }

  lemma SameAgreement(cfg: Config, s: State, o: Resource, current: Resource, spec: Spec, r: Record)
    requires r.generation >= 0 && current == o.(finalizers := current.finalizers)
    ensures SecretAgrees(cfg, s, current, spec, r) == SecretAgrees(cfg, s, o, spec, r)
  {
  }

  lemma SameObstacles(cfg: Config, s: State, s1: State, o: Resource, current: Resource, spec: Spec, now: int)
    requires s1 == s.(resources := s1.resources, work := s1.work) && current == o.(finalizers := current.finalizers)
    ensures NotOurs(s1, spec, StatusOf(current)) == NotOurs(s, spec, StatusOf(o))
    ensures Foreign(s1, current, spec) == Foreign(s, o, spec)
    ensures TargetsUsable(s1, current, spec) == TargetsUsable(s, o, spec)
    ensures Refused(cfg, s1, spec, StatusOf(current), now) == Refused(cfg, s, spec, StatusOf(o), now)
    ensures Needs(cfg, s1, spec, StatusOf(current), now) == Needs(cfg, s, spec, StatusOf(o), now)
  {
  }

  lemma NothingPassed(cfg: Config, s: State, t: State, o: Resource, spec: Spec, now: int)
    requires Key(o) in s.resources && s.resources[Key(o)] == o && t == s.(faults := t.faults)
    ensures Passed(cfg, s, t, o, spec, now, false)
  {
  }

  lemma SameConsumers(cfg: Config, s: State, s1: State, t: State, o: Resource, current: Resource, spec: Spec)
    requires s1.restarted == s.restarted && s1.deployments == s.deployments
    requires current == o.(finalizers := current.finalizers)
    ensures OnlyTargets(s1, t, current, spec) == OnlyTargets(s, t, o, spec)
    ensures forall g :: Restarted(t, current, spec, g) == Restarted(t, o, spec, g)
    ensures forall r: Record :: ReadyStatus(cfg, current, spec, r) == ReadyStatus(cfg, o, spec, r)
  {
    assert forall d :: Restartable(s1, current, d) == Restartable(s, o, d);
    assert forall d :: Reached(s1, current, spec, d) == Reached(s, o, spec, d);
  }

  lemma PassedSince(cfg: Config, s: State, s1: State, t: State, o: Resource, current: Resource, spec: Spec, now: int,
        ok: bool)
    requires Passed(cfg, s1, t, current, spec, now, ok)
    requires current == o.(finalizers := current.finalizers)
    requires s1 == s.(resources := s1.resources, work := s.work.(finalizers := s1.work.finalizers))
    ensures Passed(cfg, s, t, o, spec, now, ok)
  {
    hide SecretAgrees; hide OnlyTargets; hide Restarted; hide ReadyStatus; hide Dated;
    SameConsumers(cfg, s, s1, t, o, current, spec);
    if Holds(cfg, t, current, spec) { SameAgreement(cfg, t, o, current, spec, t.records[spec.agentName]); }
  }

  lemma ExplainsSince(s: State, s1: State, t: State, o: Resource, current: Resource, spec: Spec, ok: bool)
    requires current == o.(finalizers := current.finalizers) && Key(current) == Key(o)
    requires Key(o) in t.resources && Explains(s1, t, current, spec, ok)
    requires s1 == s.(resources := s1.resources, work := s.work.(finalizers := s1.work.finalizers))
    ensures Explains(s, t, o, spec, ok)
  {
  }

  lemma GuardedNow(s: State, t: State, o: Resource, spec: Spec, current: Resource, ok: bool)
    requires current == o.(finalizers := if FINALIZER in o.finalizers then o.finalizers else o.finalizers + [FINALIZER])
    requires Key(o) in t.resources && t.resources[Key(o)].finalizers == current.finalizers
    requires Explains(s, t, o, spec, ok)
    ensures Guarded(s, t, o, spec, ok)
  {
    hide Explains; hide Key;
  }

  lemma GuardedFails(s: State, t: State, o: Resource, spec: Spec)
    requires t == s.(faults := t.faults) && t.faults > s.faults && FINALIZER !in o.finalizers
    requires Key(o) in s.resources && s.resources[Key(o)] == o
    ensures Guarded(s, t, o, spec, false)
  {
    hide Explains; hide Key;
  }

  /** The pass over the resource with its finalizer is the pass over the resource. */
  lemma SinceFinalizer(cfg: Config, s: State, s1: State, t: State, o: Resource, current: Resource, spec: Spec, now: int,
        ok: bool)
    requires Passed(cfg, s1, t, current, spec, now, ok)
      && Outcome(cfg, s1, t, current, spec, StatusOf(current), now, ok)
    requires current == o.(finalizers := current.finalizers) && Grows(s, s1) && Grows(s1, t)
    requires s1 == s.(resources := s1.resources, work := s.work.(finalizers := s1.work.finalizers))
    requires Within(s, s1, Key(o), spec.agentName, Place(o, spec))
    requires Within(s1, t, Key(o), spec.agentName, Place(o, spec))
    ensures Passed(cfg, s, t, o, spec, now, ok) && Outcome(cfg, s, t, o, spec, StatusOf(o), now, ok)
    ensures Within(s, t, Key(o), spec.agentName, Place(o, spec)) && Grows(s, t)
  {
    hide Passed; hide Outcome; hide Within; hide Grows; hide Key; hide Place; hide StatusOf;
    PassedSince(cfg, s, s1, t, o, current, spec, now, ok);
    OutcomeSince(cfg, s, s1, t, o, current, spec, now, ok);
    WithinOn(s, s1, t, Key(o), spec.agentName, Place(o, spec));
    GrowsOn(s, s1, t);
  }

  /** There is no agent of that name, or it is deactivated. */
  predicate Gone(s: State, n: string) {
    n !in s.records || s.records[n].status.Deactivated?
  }

  /** What a pass comes to over a resource that is being deleted. The agent is touched only
      if the policy says so and the resource has had one, and then it is gone before the
      resource is let go. Without the finalizer there is nothing to do. */
  predicate Finalized(s: State, t: State, o: Resource, spec: Spec, ok: bool) {
    && Key(o) in t.resources
    && t.secrets == s.secrets && t.restarted == s.restarted && t.work.creates == s.work.creates
    && t.work.rotates == s.work.rotates && t.work.requested == s.work.requested
    && (t.faults == s.faults ==> ok)
    && if FINALIZER !in o.finalizers then ok && t == s
       else if spec.deletionPolicy == "Deactivate" && StatusOf(o).masUserId != "" then
         && (ok ==> t.resources[Key(o)] == o.(finalizers := Without(o.finalizers)) && Gone(t, spec.agentName))
         && (!ok && !Gone(t, spec.agentName) && t.work.failedStatusWrites == s.work.failedStatusWrites ==>
             t.resources[Key(o)] == o.(status := Some(Reported(o, StatusOf(o), Failed, "deactivate agent"))))
         && (!ok ==> t.resources[Key(o)] == o.(status := t.resources[Key(o)].status))
       else
         && t.records == s.records
         && t.resources[Key(o)] == if ok then o.(finalizers := Without(o.finalizers)) else o
  }

  /** Spelled out: a spec without display name or Secret name, or with an unknown policy, has
      nothing done for it. */
  lemma InvalidIsRejected(cfg: Config, owners: map<string, string>, s: State, t: State, o: Resource, now: int,
        ok: bool)
    requires Reconciled(cfg, owners, s, t, o, now, ok) && !o.deleting && o.spec.Some?
    requires var raw := o.spec.value;
      || TrimSpace(raw.displayName) == "" || TrimSpace(raw.secretName) == ""
      || raw.deletionPolicy !in {"", "Retain", "Deactivate"}
    ensures !ok && t.records == s.records && t.secrets == s.secrets && t.restarted == s.restarted
  {
    hide TrimSpace; hide Passed; hide Outcome; hide Guarded; hide Settled; hide Grows; hide Within; hide Claimed;
  }

  /** Spelled out: the agent of a deleted resource is left alone unless the spec itself says
      Deactivate. */
  lemma RetainedIsLeftAlone(cfg: Config, owners: map<string, string>, s: State, t: State, o: Resource, now: int,
        ok: bool)
    requires Reconciled(cfg, owners, s, t, o, now, ok) && o.deleting && o.spec.Some?
    requires o.spec.value.deletionPolicy != "Deactivate" && Key(o) in s.resources && s.resources[Key(o)] == o
    ensures t.records == s.records && t.secrets == s.secrets && t.restarted == s.restarted
    ensures ok ==> FINALIZER !in t.resources[Key(o)].finalizers
  {
    hide TrimSpace; hide Grows; hide Within;
  }

  /** Spelled out: a pass touches no agent but the one the spec names, or the one named like the
      resource if the spec names none. */
  lemma OnlyTheNamedAgent(cfg: Config, owners: map<string, string>, s: State, t: State, o: Resource, now: int,
        ok: bool, n: string)
    requires Reconciled(cfg, owners, s, t, o, now, ok) && o.spec.Some?
    requires n != if TrimSpace(o.spec.value.agentName) == "" then o.name else o.spec.value.agentName
    ensures Find(t.records, n) == Find(s.records, n)
  {
    hide TrimSpace; hide Grows; hide Brought; hide Finalized;
    assert n in t.records <==> n in t.records - {NameOf(o)};
    assert n in s.records <==> n in s.records - {NameOf(o)};
    if n in s.records { assert (s.records - {NameOf(o)})[n] == (t.records - {NameOf(o)})[n]; }
  }

  /** Spelled out: a spec that does not decode costs the resource everything its status knew. */
  lemma UndecodableLosesStatus(cfg: Config, owners: map<string, string>, s: State, t: State, o: Resource, now: int,
        ok: bool)
    requires Reconciled(cfg, owners, s, t, o, now, ok) && o.spec.None?
    requires t.work.failedStatusWrites == s.work.failedStatusWrites
    ensures !ok && t.records == s.records && t.secrets == s.secrets && t.resources[Key(o)].status.Some?
    ensures var st := t.resources[Key(o)].status.value;
      && st.phase == Failed && st.observedGeneration == o.generation && st.masUserId == "" && st.rotationToken == ""
      && st.restartedGeneration == 0 && st.tokenGeneration == 0 && st.secretName == ""
  {
    hide Grows; hide Brought; hide Finalized;
  }

  /** What a pass comes to over a resource with the spec `spec` that is not being deleted. */
  predicate Brought(cfg: Config, owners: map<string, string>, s: State, t: State, o: Resource, spec: Spec, now: int,
      ok: bool)
    requires Decode(o) == Some(spec) && Key(o) in t.resources
  {
    var claimed, valid := Claimed(owners, o), ValidSpec(spec);
    && Passed(cfg, s, t, o, spec, now, ok)
    && (ok ==> claimed && Settled(cfg, t, Key(o)))
    && (!claimed ==> Rejected(s, t, o, StatusOf(o), Conflict, "agent is already claimed", ok))
    && (claimed && !valid ==> Rejected(s, t, o, StatusOf(o), Failed, "spec is invalid", ok))
    && (claimed && valid ==>
          Outcome(cfg, s, t, o, spec, StatusOf(o), now, ok) && Guarded(s, t, o, spec, ok))
    && (Foreign(s, o, spec) ==> t.secrets == s.secrets)
    && (NotOurs(s, spec, StatusOf(o)) ==> !ok && t.records == s.records && t.secrets == s.secrets)
    && (t.faults == s.faults && TargetsUsable(s, o, spec) ==>
          (ok <==> claimed && valid && !Blocked(s, o, spec) && !Refused(cfg, s, spec, StatusOf(o), now)))
    && (Settled(cfg, s, Key(o)) && claimed && Young(cfg, s, spec, now) && t.faults == s.faults ==> ok && Quiet(s, t))
  }

  /** What one pass over one resource comes to, whichever resource it is. A spec that does not
      decode loses the status. */
  ghost predicate Reconciled(cfg: Config, owners: map<string, string>, s: State, t: State, o: Resource, now: int,
      ok: bool)
  {
    && Grows(s, t) && Within(s, t, Key(o), NameOf(o), PlaceOf(o))
    && match Decode(o)
       case None => Rejected(s, t, o, Blank(), Failed, "invalid spec", ok)
       case Some(spec) =>
         if o.deleting then Finalized(s, t, o, spec, ok) else Brought(cfg, owners, s, t, o, spec, now, ok)
  }

  /** The agent was left alone. */
  lemma FinalizedAsIs(s: State, t: State, o: Resource, spec: Spec, ok: bool)
    requires Key(o) in t.resources
    requires t == s.(resources := t.resources, faults := t.faults,
      work := s.work.(finalizers := t.work.finalizers))
    requires if FINALIZER !in o.finalizers then ok && t == s
      else && !(spec.deletionPolicy == "Deactivate" && StatusOf(o).masUserId != "")
           && (t.faults == s.faults ==> ok)
           && t.resources[Key(o)] == if ok then o.(finalizers := Without(o.finalizers)) else o
    ensures Finalized(s, t, o, spec, ok)
  {
    hide Reported; hide Without; hide StatusOf; hide Key;
  }

  /** The agent was seen to, then either the finalizer or the status was written. */
  lemma FinalizedAfter(s: State, s1: State, t: State, o: Resource, spec: Spec, gone: bool, ok: bool)
    requires FINALIZER in o.finalizers && spec.deletionPolicy == "Deactivate" && StatusOf(o).masUserId != ""
    requires ServiceOnly(s, s1, spec.agentName) && s1.work == s.work && Key(o) in t.resources
    requires t == s1.(resources := t.resources, faults := t.faults, work := t.work) && t.faults >= s1.faults >= s.faults
    requires t.work == s.work.(finalizers := t.work.finalizers, statusWrites := t.work.statusWrites,
      failedStatusWrites := t.work.failedStatusWrites)
    requires t.resources[Key(o)] == o.(finalizers := t.resources[Key(o)].finalizers,
      status := t.resources[Key(o)].status)
    requires if gone then Gone(s1, spec.agentName) else !ok && s1.faults > s.faults
    requires gone && t.faults == s1.faults ==> ok
    requires gone ==>
      t.resources[Key(o)] == if ok then o.(finalizers := Without(o.finalizers)) else o
    requires !gone ==> t.resources[Key(o)] == o.(status := t.resources[Key(o)].status)
    requires !gone && t.work.failedStatusWrites == s1.work.failedStatusWrites ==>
      t.resources[Key(o)].status == Some(Reported(o, StatusOf(o), Failed, "deactivate agent"))
    ensures Finalized(s, t, o, spec, ok)
  {
    hide Reported; hide Without; hide StatusOf; hide Grows; hide Renewal; hide Key;
  }

  lemma RejectsOnly(s: State, t: State, o: Resource, st: AgentStatus, phase: Phase, message: string)
    requires Key(o) in s.resources && s.resources[Key(o)] == o && Key(o) in t.resources
    requires t == s.(resources := t.resources, faults := t.faults, work := s.work.(statusWrites := t.work.statusWrites,
      failedStatusWrites := t.work.failedStatusWrites))
    requires t.resources - {Key(o)} == s.resources - {Key(o)}
      && t.resources[Key(o)] == o.(status := t.resources[Key(o)].status)
    requires if t.work.failedStatusWrites == s.work.failedStatusWrites
      then t.resources[Key(o)].status == Some(Reported(o, st, phase, message)) else t.resources[Key(o)] == o
    ensures Rejected(s, t, o, st, phase, message, false) && Within(s, t, Key(o), NameOf(o), PlaceOf(o))
  {
    hide Decode; hide Reported; hide Key;
    assert Rejected(s, t, o, st, phase, message, false);
    assert t.resources[Key(o)] == o.(finalizers := t.resources[Key(o)].finalizers,
      status := t.resources[Key(o)].status);
  }

  lemma RejectionBrings(cfg: Config, owners: map<string, string>, s: State, t: State, o: Resource, spec: Spec, now: int)
    requires Decode(o) == Some(spec) && Key(o) in t.resources && Reports(cfg, s, t, o, spec, StatusOf(o), false)
    requires Key(o) in s.resources && s.resources[Key(o)] == o && (!Claimed(owners, o) || !ValidSpec(spec))
    requires if !Claimed(owners, o) then Rejected(s, t, o, StatusOf(o), Conflict, "agent is already claimed", false)
      else Rejected(s, t, o, StatusOf(o), Failed, "spec is invalid", false)
    ensures Brought(cfg, owners, s, t, o, spec, now, false)
  {
    hide Passed; hide Agreed; hide Reported; hide Decode; hide Claimed; hide TrimSpace; hide Reports;
    PassCombines(cfg, s, s, t, o, spec, StatusOf(o), now, false, false);
  }

  lemma ClaimedBrings(cfg: Config, owners: map<string, string>, s: State, t: State, o: Resource, spec: Spec, now: int,
        ok: bool)
    requires Decode(o) == Some(spec) && Key(o) in t.resources && Claimed(owners, o) && ValidSpec(spec)
    requires Passed(cfg, s, t, o, spec, now, ok) && Outcome(cfg, s, t, o, spec, StatusOf(o), now, ok)
    requires Guarded(s, t, o, spec, ok) && (ok ==> Settled(cfg, t, Key(o)))
    requires Foreign(s, o, spec) ==> !ok && t.secrets == s.secrets
    requires NotOurs(s, spec, StatusOf(o)) ==> !ok && t.records == s.records && t.secrets == s.secrets
    requires Settled(cfg, s, Key(o)) && Young(cfg, s, spec, now) && t.faults == s.faults ==> ok && Quiet(s, t)
    ensures Brought(cfg, owners, s, t, o, spec, now, ok)
  {
    hide Passed; hide Guarded; hide Settled; hide Quiet; hide Claimed; hide ValidSpec; hide Young; hide SecretAgrees;
    hide Decode; hide Key; hide Refused; hide MustRestart; hide NotOurs; hide Foreign; hide StatusOf;
  }

  /** The resources of a listing, each once. */
  predicate Listed(s: State, keys: seq<string>) {
    (forall k | k in keys :: k in s.resources) && forall i, j | 0 <= i < j < |keys| :: keys[i] != keys[j]
  }

  function SpecAt(s: State, k: string): Spec {
    if k in s.resources && Decode(s.resources[k]).Some? then Decode(s.resources[k]).value
    else Spec("", "", "", false, "", "", [])
  }

  /** None is being deleted and no two write to the same Secret. */
  predicate Separate(s: State, keys: seq<string>)
    requires Listed(s, keys)
  {
    && (forall k | k in keys :: !s.resources[k].deleting)
    && forall j, k | j in keys && k in keys && j != k :: PlaceOf(s.resources[j]) != PlaceOf(s.resources[k])
  }

  /** Every resource has nothing left to do, and no two of them claim the same agent. */
  predicate AllSettled(cfg: Config, s: State, keys: seq<string>) {
    && (forall k | k in keys :: Settled(cfg, s, k))
    && forall j, k | j in keys && k in keys && j != k :: SpecAt(s, j).agentName != SpecAt(s, k).agentName
  }

  predicate SettledUpTo(cfg: Config, s: State, owners: map<string, string>, all: seq<Resource>, i: nat)
    requires i <= |all|
  {
    forall j | 0 <= j < i :: Claimed(owners, all[j]) && Settled(cfg, s, Key(all[j])) && SameSpec(s, all[j])
  }

  /** The stored resource still has the identity and spec it was listed with. */
  predicate SameSpec(s: State, o: Resource) {
    && Key(o) in s.resources
    && s.resources[Key(o)] == o.(finalizers := s.resources[Key(o)].finalizers, status := s.resources[Key(o)].status)
  }

  lemma SoundKeys(s: State)
    requires Sound(s)
    ensures forall k | k in s.resources :: Key(s.resources[k]) == k
  {
  }

  lemma FaultsGrow(s: State, t: State)
    requires Grows(s, t)
    ensures t.faults >= s.faults
  {
  }

  lemma QuietOn(s: State, t: State, u: State)
    requires Quiet(s, t)
    ensures Quiet(t, u) ==> Quiet(s, u)
  {
  }

  lemma OthersUntouched(s: State, t: State, keys: seq<string>, i: nat, o: Resource)
    requires i < |keys| && Listed(s, keys) && Key(o) == keys[i] && Within(s, t, keys[i], NameOf(o), PlaceOf(o))
    ensures Listed(t, keys) && forall j | 0 <= j < |keys| && j != i :: t.resources[keys[j]] == s.resources[keys[j]]
  {
    forall k | k in keys && k != keys[i] ensures k in t.resources && t.resources[k] == s.resources[k] {
      assert k in s.resources - {keys[i]};
      assert (t.resources - {keys[i]})[k] == (s.resources - {keys[i]})[k];
    }
  }

  /** A pass over one resource does not unsettle another with its own agent and Secret. */
  lemma SettledStays(cfg: Config, s: State, t: State, o: Resource, p: Resource)
    requires Within(s, t, Key(p), NameOf(p), PlaceOf(p)) && Settled(cfg, s, Key(o)) && SameSpec(s, o)
    requires Key(o) != Key(p) && NameOf(o) != NameOf(p) && PlaceOf(o) != PlaceOf(p)
    ensures Settled(cfg, t, Key(o)) && SameSpec(t, o)
  {
    var k, spec := Key(o), Decode(o).value;
    assert k in s.resources - {Key(p)} && (t.resources - {Key(p)})[k] == s.resources[k];
    assert spec.agentName in s.records - {NameOf(p)}
      && (t.records - {NameOf(p)})[spec.agentName] == s.records[spec.agentName];
    assert Place(o, spec) in s.secrets - {PlaceOf(p)}
      && (t.secrets - {PlaceOf(p)})[Place(o, spec)] == s.secrets[Place(o, spec)];
  }

  lemma SettledOneMore(cfg: Config, s0: State, s: State, t: State, owners: map<string, string>, keys: seq<string>,
        all: seq<Resource>, i: nat)
    requires Listed(s0, keys) && Separate(s0, keys) && i < |keys| == |all|
    requires forall j | 0 <= j < |keys| :: Key(all[j]) == keys[j] && all[j] == s0.resources[keys[j]]
    requires SettledUpTo(cfg, s, owners, all, i) && Within(s, t, keys[i], NameOf(all[i]), PlaceOf(all[i]))
    requires s.resources[keys[i]] == all[i] && Claimed(owners, all[i]) && Settled(cfg, t, keys[i])
    ensures SettledUpTo(cfg, t, owners, all, i + 1)
  {
    hide Settled; hide PlaceOf; hide Decode; hide Key;
    forall j | 0 <= j < i + 1 ensures Claimed(owners, all[j]) && Settled(cfg, t, Key(all[j])) && SameSpec(t, all[j]) {
      if j < i {
        assert keys[j] in keys && keys[i] in keys && keys[j] != keys[i];
        SettledStays(cfg, s, t, all[j], all[i]);
      }
    }
  }

  lemma ClaimsDiffer(s: State, owners: map<string, string>, o: Resource, p: Resource)
    requires SameSpec(s, o) && SameSpec(s, p) && Claimed(owners, o) && Claimed(owners, p) && Key(o) != Key(p)
    ensures SpecAt(s, Key(o)).agentName != SpecAt(s, Key(p)).agentName
  {
    hide Key; hide TrimSpace;
  }

  lemma UpToAll(cfg: Config, s: State, owners: map<string, string>, keys: seq<string>, all: seq<Resource>)
    requires |keys| == |all| && SettledUpTo(cfg, s, owners, all, |all|)
    requires forall j | 0 <= j < |keys| :: Key(all[j]) == keys[j]
    ensures AllSettled(cfg, s, keys)
  {
    hide Settled; hide Key; hide Claimed; hide SameSpec; hide SpecAt;
    forall j, k | j in keys && k in keys && j != k ensures SpecAt(s, j).agentName != SpecAt(s, k).agentName {
      var a :| 0 <= a < |keys| && keys[a] == j;
      var b :| 0 <= b < |keys| && keys[b] == k;
      ClaimsDiffer(s, owners, all[a], all[b]);
    }
  }

  /** A resource that is settled owns its name: nobody else listed claims it. */
  lemma SettledIsClaimed(cfg: Config, s: State, keys: seq<string>, all: seq<Resource>, owners: map<string, string>,
        i: nat)
    requires Listed(s, keys) && AllSettled(cfg, s, keys) && i < |keys| == |all| && OwnersOf(all, owners)
    requires forall j | 0 <= j < |keys| :: Key(all[j]) == keys[j] && all[j] == s.resources[keys[j]]
    ensures Claimed(owners, all[i])
  {
    assert keys[i] in keys && Settled(cfg, s, keys[i]);
    var n := NameOf(all[i]);
    assert all[i] in all && Claimant(all[i], n);
    var p :| Owner(all, n, p) && owners[n] == Key(p);
    var j :| 0 <= j < |all| && all[j] == p;
    assert keys[j] in keys && Settled(cfg, s, keys[j]);
    assert SpecAt(s, keys[j]).agentName == n == SpecAt(s, keys[i]).agentName;
  }

  lemma StillSettled(cfg: Config, s: State, t: State, k: string)
    requires Quiet(s, t) && Settled(cfg, s, k)
    ensures Settled(cfg, t, k)
  {
  }

  predicate AllYoung(cfg: Config, s: State, keys: seq<string>, now: int) {
    forall k | k in keys :: Young(cfg, s, SpecAt(s, k), now)
  }

  lemma YoungEarlier(cfg: Config, s: State, keys: seq<string>, earlier: int, now: int)
    requires AllYoung(cfg, s, keys, now) && earlier <= now
    ensures AllYoung(cfg, s, keys, earlier)
  {
    forall k | k in keys ensures Young(cfg, s, SpecAt(s, k), earlier) {
      assert Young(cfg, s, SpecAt(s, k), now);
    }
  }

  lemma ClockGrows(s: State, t: State)
    requires Grows(s, t)
    ensures s.clock <= t.clock
  {
  }

  lemma QuietTick(s: State, t: State)
    requires t == s.(clock := t.clock)
    ensures Quiet(s, t)
  {
  }

  lemma StillYoung(cfg: Config, s: State, t: State, k: string, o: Resource, now: int)
    requires Quiet(s, t) && Settled(cfg, s, k) && s.resources[k] == o && Young(cfg, s, SpecAt(s, k), now)
    ensures Young(cfg, t, Decode(o).value, now)
  {
  }

  lemma TickKeepsSettled(cfg: Config, s: State, t: State, owners: map<string, string>, all: seq<Resource>, i: nat)
    requires t == s.(clock := t.clock) && i <= |all| && SettledUpTo(cfg, s, owners, all, i)
    ensures SettledUpTo(cfg, t, owners, all, i)
  {
    hide Settled; hide Claimed; hide Key;
    QuietTick(s, t);
    forall j | 0 <= j < i ensures Claimed(owners, all[j]) && Settled(cfg, t, Key(all[j])) && SameSpec(t, all[j]) {
      StillSettled(cfg, s, t, Key(all[j]));
    }
  }

  lemma SteadyAt(cfg: Config, s0: State, s: State, keys: seq<string>, all: seq<Resource>, owners: map<string, string>,
        i: nat, now: int)
    requires Listed(s0, keys) && AllSettled(cfg, s0, keys) && AllYoung(cfg, s0, keys, now) && Quiet(s0, s)
    requires i < |keys| == |all| && OwnersOf(all, owners)
    requires forall j | 0 <= j < |keys| :: Key(all[j]) == keys[j] && all[j] == s0.resources[keys[j]]
    ensures Claimed(owners, all[i]) && Settled(cfg, s, keys[i]) && Young(cfg, s, Decode(all[i]).value, now)
  {
    hide Settled; hide Key; hide Claimed; hide Quiet; hide Young; hide OwnersOf;
    SettledIsClaimed(cfg, s0, keys, all, owners, i);
    assert keys[i] in keys;
    StillSettled(cfg, s0, s, keys[i]);
    StillYoung(cfg, s0, s, keys[i], all[i], now);
  }

  /** The listing that a pass over all resources works through. */
  ghost predicate Works(s0: State, owners: map<string, string>, keys: seq<string>, all: seq<Resource>) {
    && Listed(s0, keys) && |all| == |keys| && OwnersOf(all, owners)
    && forall j | 0 <= j < |keys| :: Key(all[j]) == keys[j] && all[j] == s0.resources[keys[j]]
  }

  /** What holds after the passes over the first `i` resources. */
  ghost predicate PassedUpTo(cfg: Config, s0: State, s: State, owners: map<string, string>, keys: seq<string>,
      all: seq<Resource>, i: nat, complete: bool, ok: bool)
  {
    && Works(s0, owners, keys, all) && i <= |keys|
    && Grows(s0, s) && Listed(s, keys) && (forall j | i <= j < |keys| :: s.resources[keys[j]] == all[j])
    && (ok && Separate(s0, keys) ==> SettledUpTo(cfg, s, owners, all, i))
    && (complete && AllSettled(cfg, s0, keys) && AllYoung(cfg, s0, keys, s.clock) && s.faults == s0.faults ==>
          ok && Quiet(s0, s))
  }

  lemma PassesBegin(cfg: Config, s0: State, owners: map<string, string>, keys: seq<string>, all: seq<Resource>,
        complete: bool)
    requires Works(s0, owners, keys, all)
    ensures PassedUpTo(cfg, s0, s0, owners, keys, all, 0, complete, complete)
  {
    GrowsSame(s0);
  }

  lemma NextIsListed(cfg: Config, s0: State, earlier: State, before: State, owners: map<string, string>,
        keys: seq<string>, all: seq<Resource>, i: nat, complete: bool, ok: bool)
    requires PassedUpTo(cfg, s0, earlier, owners, keys, all, i, complete, ok) && i < |keys|
    requires before == earlier.(clock := before.clock)
    ensures i < |all| && Key(all[i]) == keys[i] && keys[i] in before.resources && before.resources[keys[i]] == all[i]
  {
    hide Key; hide SettledUpTo; hide AllSettled; hide AllYoung;
  }

  lemma RoundGoesOn(cfg: Config, owners: map<string, string>, s: State, t: State, o: Resource, now: int, ok: bool)
    requires Reconciled(cfg, owners, s, t, o, now, ok)
    ensures Grows(s, t) && Within(s, t, Key(o), NameOf(o), PlaceOf(o))
    ensures ok && !o.deleting ==> Claimed(owners, o) && Settled(cfg, t, Key(o))
    ensures Key(o) in s.resources && s.resources[Key(o)] == o && Settled(cfg, s, Key(o)) && Claimed(owners, o)
            && Young(cfg, s, Decode(o).value, now) && t.faults == s.faults ==>
      ok && Quiet(s, t)
  {
    hide Grows; hide Within; hide Agreed; hide Key; hide Passed; hide Outcome; hide Guarded; hide Young; hide Quiet;
    hide Claimed; hide TrimSpace;
    if Key(o) in s.resources && s.resources[Key(o)] == o && Settled(cfg, s, Key(o)) {
      assert Decode(o).Some? && !o.deleting;
    }
  }

  /** One pass over all resources, as it went: who owns which name, the resources as listed,
      the states between the passes, what the clock said, and what each pass came to. */
  datatype Round = Round(
    owners: map<string, string>, all: seq<Resource>, states: seq<State>, nows: seq<int>, results: seq<bool>)

  /** Each resource listed had its pass so far, whatever became of the passes before it. */
  ghost predicate IsRound(cfg: Config, round: Round) {
    && |round.states| == |round.results| + 1 && |round.nows| == |round.results| <= |round.all|
    && forall i | 0 <= i < |round.results| ::
         && round.states[i].clock <= round.nows[i]
         && Reconciled(cfg, round.owners, round.states[i].(clock := round.nows[i]), round.states[i + 1], round.all[i],
              round.nows[i], round.results[i])
  }

  lemma RoundBegins(cfg: Config, owners: map<string, string>, all: seq<Resource>, s: State)
    ensures IsRound(cfg, Round(owners, all, [s], [], []))
  {
  }

  function OneMore(round: Round, t: State, now: int, ok: bool): Round {
    round.(states := round.states + [t], nows := round.nows + [now], results := round.results + [ok])
  }

  lemma RoundOneMore(cfg: Config, round: Round, t: State, now: int, ok: bool)
    requires IsRound(cfg, round) && |round.results| < |round.all|
    requires round.states[|round.results|].clock <= now
    requires Reconciled(cfg, round.owners, round.states[|round.results|].(clock := now), t, round.all[|round.results|],
      now, ok)
    ensures IsRound(cfg, OneMore(round, t, now, ok))
  {
    hide Reconciled;
    var more := OneMore(round, t, now, ok);
    forall i | 0 <= i < |more.results|
      ensures more.states[i].clock <= more.nows[i]
      ensures Reconciled(cfg, more.owners, more.states[i].(clock := more.nows[i]), more.states[i + 1], more.all[i],
                more.nows[i], more.results[i])
    {
      if i < |round.results| {
        assert more.states[i] == round.states[i] && more.states[i + 1] == round.states[i + 1];
      }
    }
  }

  lemma PassOnward(cfg: Config, s0: State, earlier: State, before: State, t: State, owners: map<string, string>,
        keys: seq<string>, all: seq<Resource>, i: nat, complete: bool, ok: bool, one: bool)
    requires PassedUpTo(cfg, s0, earlier, owners, keys, all, i, complete, ok) && i < |keys| == |all|
    requires before == earlier.(clock := before.clock) && Grows(earlier, before) && Grows(before, t)
    requires Within(before, t, Key(all[i]), NameOf(all[i]), PlaceOf(all[i])) && Key(all[i]) == keys[i]
    requires one && !all[i].deleting ==> Claimed(owners, all[i]) && Settled(cfg, t, Key(all[i]))
    requires Settled(cfg, before, Key(all[i])) && Claimed(owners, all[i])
             && Young(cfg, before, Decode(all[i]).value, before.clock) && t.faults == before.faults ==>
      one && Quiet(before, t)
    ensures PassedUpTo(cfg, s0, t, owners, keys, all, i + 1, complete, ok && one)
  {
    hide Settled; hide Within; hide Quiet; hide Key; hide Decode; hide Young; hide OwnersOf; hide AllYoung;
    hide AllSettled; hide Claimed; hide SettledUpTo; hide NameOf; hide PlaceOf; hide Grows;
    GrowsOn(s0, earlier, before);
    GrowsOn(s0, before, t);
    FaultsGrow(s0, earlier);
    FaultsGrow(before, t);
    ClockGrows(before, t);
    ClockGrows(earlier, before);
    OthersUntouched(before, t, keys, i, all[i]);
    if ok && one && Separate(s0, keys) {
      TickKeepsSettled(cfg, earlier, before, owners, all, i);
      assert keys[i] in keys;
      SettledOneMore(cfg, s0, before, t, owners, keys, all, i);
    }
    if complete && AllSettled(cfg, s0, keys) && AllYoung(cfg, s0, keys, t.clock) && t.faults == s0.faults {
      YoungEarlier(cfg, s0, keys, earlier.clock, t.clock);
      YoungEarlier(cfg, s0, keys, before.clock, t.clock);
      QuietTick(earlier, before);
      QuietOn(s0, earlier, before);
      SteadyAt(cfg, s0, before, keys, all, owners, i, before.clock);
      QuietOn(s0, before, t);
    }
  }

  lemma PassesEnd(cfg: Config, s0: State, s: State, owners: map<string, string>, keys: seq<string>, all: seq<Resource>,
        complete: bool, ok: bool)
    requires PassedUpTo(cfg, s0, s, owners, keys, all, |keys|, complete, ok)
    ensures Grows(s0, s) && Listed(s, keys)
    ensures Listed(s0, keys) && (ok && Separate(s0, keys) ==> AllSettled(cfg, s, keys))
    ensures complete && AllSettled(cfg, s0, keys) && s.faults == s0.faults && AllYoung(cfg, s0, keys, s.clock) ==>
      ok && Quiet(s0, s)
  {
    hide Key; hide SettledUpTo; hide AllSettled; hide AllYoung; hide Quiet; hide OwnersOf;
    if ok && Separate(s0, keys) { UpToAll(cfg, s, owners, keys, all); }
  }

  class Operator {
    const c: Cluster
    const cfg: Config

    constructor (c: Cluster, cfg: Config)
      ensures this.c == c && this.cfg == cfg
    {
      this.c, this.cfg := c, cfg;
    }

    /** Store the status unless it is what the resource has already. Only Ready is success. */
    method SetStatus(o: Resource, st: AgentStatus, phase: Phase, message: string) returns (ok: bool)
      requires Sound(c.s) && Key(o) in c.s.resources && c.s.resources[Key(o)] == o
      modifies c
      ensures Sound(c.s) && Grows(old(c.s), c.s) && Key(o) in c.s.resources
      ensures var next := Reported(o, st, phase, message);
        && (c.s.work.failedStatusWrites == old(c.s).work.failedStatusWrites ==>
          c.s.resources[Key(o)] == o.(status := Some(next)))
        && (o.status == Some(next) ==> c.s == old(c.s))
        && (ok <==> phase == Ready && c.s.work.failedStatusWrites == old(c.s).work.failedStatusWrites)
      ensures c.s.work.failedStatusWrites != old(c.s).work.failedStatusWrites ==>
        c.s.resources == old(c.s).resources && c.s.faults > old(c.s).faults
      ensures c.s.faults >= old(c.s).faults && c.s.work.failedStatusWrites >= old(c.s).work.failedStatusWrites
      ensures c.s == old(c.s).(resources := old(c.s).resources[Key(o) := c.s.resources[Key(o)]], faults := c.s.faults,
        work := old(c.s).work.(statusWrites := c.s.work.statusWrites,
          failedStatusWrites := c.s.work.failedStatusWrites))
      ensures c.reliable ==> c.s.faults == old(c.s).faults
    {
      hide Sound; hide Grows; hide Key; hide Reported;
      GrowsSame(c.s);
      WrittenAsItWas(c.s.resources, Key(o));
      var next := Reported(o, st, phase, message);
      if o.status == Some(next) {
        return phase == Ready;
      }
      var written := c.UpdateStatus(Key(o), next);
      if !written {
        return false;
      }
      ok := phase == Ready;
    }

    /** What every report leaves alone, and what it says when the write succeeds. */
    method Report(o: Resource, st: AgentStatus, phase: Phase, message: string) returns (ok: bool)
      requires Sound(c.s) && Key(o) in c.s.resources && c.s.resources[Key(o)] == o
      modifies c
      ensures Sound(c.s) && Grows(old(c.s), c.s) && Key(o) in c.s.resources
      ensures c.s == old(c.s).(resources := c.s.resources, faults := c.s.faults,
        work := old(c.s).work.(statusWrites := c.s.work.statusWrites,
          failedStatusWrites := c.s.work.failedStatusWrites))
      ensures c.s.resources - {Key(o)} == old(c.s).resources - {Key(o)} && c.s.faults >= old(c.s).faults
      ensures c.s.resources[Key(o)] == o.(status := c.s.resources[Key(o)].status)
      ensures ok <==> phase == Ready && c.s.work.failedStatusWrites == old(c.s).work.failedStatusWrites
      ensures c.s.work.failedStatusWrites == old(c.s).work.failedStatusWrites ==>
        c.s.resources[Key(o)].status == Some(Reported(o, st, phase, message))
      ensures c.s.work.failedStatusWrites != old(c.s).work.failedStatusWrites ==> c.s.resources[Key(o)] == o
      ensures c.s.work.failedStatusWrites != old(c.s).work.failedStatusWrites ==> c.s.faults > old(c.s).faults
      ensures o.status == Some(Reported(o, st, phase, message)) ==> c.s == old(c.s)
      ensures phase != Ready ==> forall cfg, spec :: Reports(cfg, old(c.s), c.s, o, spec, st, ok)
      ensures c.reliable ==> c.s.faults == old(c.s).faults
    {
      hide Sound; hide Grows;
      ok := SetStatus(o, st, phase, message);
    }

    /** Create or update the token Secret; an unowned one only if the spec adopts it. */
    method WriteSecret(o: Resource, spec: Spec, r: Record) returns (ok: bool, changed: bool)
      requires Sound(c.s) && r.generation >= 1
      modifies c
      ensures Sound(c.s) && Grows(old(c.s), c.s)
      ensures c.s == old(c.s).(secrets := c.s.secrets, work := old(c.s).work.(secretWrites := c.s.work.secretWrites),
                               faults := c.s.faults)
      ensures c.s.secrets - {Place(o, spec)} == old(c.s).secrets - {Place(o, spec)}
      ensures ok ==> SecretAgrees(cfg, c.s, o, spec, r)
      ensures ok ==> (changed <==> Place(o, spec) !in old(c.s).secrets
                                   || At(old(c.s).secrets[Place(o, spec)].data, "access-token") != r.token)
      ensures c.s.secrets == old(c.s).secrets || (ok && c.s.secrets == old(c.s).secrets[Place(o, spec) :=
        TokenSecret(OwnersAt(old(c.s), Place(o, spec)) + {o.uid}, Itoa(r.generation), spec.agentName,
          Desired(cfg, spec.agentName, r))])
      ensures Foreign(old(c.s), o, spec) ==>
        !ok && c.s.secrets == old(c.s).secrets
      ensures SecretAgrees(cfg, old(c.s), o, spec, r) ==>
        Quiet(old(c.s), c.s) && (c.s.faults == old(c.s).faults ==> ok)
      ensures !ok && c.s.faults == old(c.s).faults ==> Foreign(old(c.s), o, spec)
      ensures c.s.secrets == old(c.s).secrets || c.s.work.secretWrites > old(c.s).work.secretWrites
      ensures c.reliable ==> c.s.faults == old(c.s).faults
    {
      var desired := Desired(cfg, spec.agentName, r);
      var generation := Itoa(r.generation);
      var at := Place(o, spec);
      var read, current := c.ReadSecret(at);
      if !read {
        return false, false;
      }
      if current.None? {
        assert {o.uid} == OwnersAt(c.s, at) + {o.uid};
        ok := c.PutSecret(at, TokenSecret({o.uid}, generation, spec.agentName, desired));
        return ok, ok;
      }
      var secret := current.value;
      var owned := o.uid in secret.owners;
      if !owned && !spec.adoptExisting {
        return false, false;
      }
      changed := !owned || secret.generation != generation || secret.agentLabel != spec.agentName;
      if !Shows(secret.data, desired) {
        changed := true;
      }
      if !changed {
        assert At(secret.data, "access-token") == desired["access-token"];
        return true, false;
      }
      var tokenChanged := At(secret.data, "access-token") != r.token;
      ok := c.PutSecret(at, TokenSecret(secret.owners + {o.uid}, generation, spec.agentName, desired));
      changed := tokenChanged;
    }

    method RestartAll(o: Resource, spec: Spec, ghost generation: int) returns (ok: bool)
      requires Sound(c.s) && (o.namespace, spec.secretName, generation) in c.s.held
      modifies c
      ensures Sound(c.s) && RestartsOnly(old(c.s), c.s)
      ensures ok ==> Restarted(c.s, o, spec, generation)
      ensures OnlyTargets(old(c.s), c.s, o, spec)
      ensures c.s.faults == old(c.s).faults ==> (ok <==> TargetsUsable(c.s, o, spec))
      ensures ok ==> TargetsUsable(c.s, o, spec)
      ensures c.reliable ==> c.s.faults == old(c.s).faults
    {
      hide Sound; hide Grows; hide Restarted; hide OnlyTargets; hide RestartsOnly; hide RestartedUpTo;
      hide TargetsUsable;
      ghost var s0 := c.s;
      NothingRestarted(s0, o, spec, generation);
      for i := 0 to |spec.restartTargets|
        invariant Sound(c.s) && RestartsOnly(s0, c.s) && RestartedUpTo(s0, c.s, o, spec, i, generation)
        invariant c.reliable ==> c.s.faults == s0.faults
      {
        ghost var before := c.s;
        var restarted := c.RestartDeployment((o.namespace, spec.restartTargets[i]));
        RestartStep(s0, before, c.s, o, spec, i, generation, restarted);
        if !restarted {
          return false;
        }
      }
      AllRestarted(s0, c.s, o, spec, generation);
      ok := true;
    }

    /** Write the Secret and restart its consumers if they may have the old token. */
    method Deliver(o: Resource, spec: Spec, last: int, r: Record) returns (ok: bool)
      requires Sound(c.s) && r.generation >= 1
      modifies c
      ensures Sound(c.s) && Grows(old(c.s), c.s)
      ensures c.s == old(c.s).(secrets := c.s.secrets, held := c.s.held, tick := c.s.tick, restarted := c.s.restarted,
        faults := c.s.faults,
        work := old(c.s).work.(secretWrites := c.s.work.secretWrites, restarts := c.s.work.restarts))
      ensures c.s.secrets - {Place(o, spec)} == old(c.s).secrets - {Place(o, spec)}
      ensures ok ==> SecretAgrees(cfg, c.s, o, spec, r) && (o.namespace, spec.secretName, r.generation) in c.s.held
      ensures ok && MustRestart(old(c.s), o, spec, last, r) ==> Restarted(c.s, o, spec, r.generation)
      ensures !MustRestart(old(c.s), o, spec, last, r) ==> c.s.restarted == old(c.s).restarted
      ensures OnlyTargets(old(c.s), c.s, o, spec)
      ensures Foreign(old(c.s), o, spec) ==>
        !ok && c.s.secrets == old(c.s).secrets
      ensures SecretAgrees(cfg, old(c.s), o, spec, r) && (last == 0 || last == r.generation)
              && c.s.faults == old(c.s).faults ==>
        ok && Quiet(old(c.s), c.s)
      ensures c.s.faults >= old(c.s).faults
      ensures c.s.faults == old(c.s).faults && !Foreign(old(c.s), o, spec) ==>
        && SecretAgrees(cfg, c.s, o, spec, r)
        && (ok <==> (MustRestart(old(c.s), o, spec, last, r) ==> TargetsUsable(old(c.s), o, spec)))
      ensures c.s.secrets == old(c.s).secrets
              || (SecretAgrees(cfg, c.s, o, spec, r) && c.s.work.secretWrites > old(c.s).work.secretWrites)
      ensures c.reliable ==> c.s.faults == old(c.s).faults
    {
      hide SecretAgrees; hide Restarted; hide OnlyTargets; hide Sound; hide Grows; hide Desired;
      hide TargetsUsable;
      SecretAgreesOnToken(cfg, c.s, o, spec, r);
      NoPodsDeleted(c.s, c.s, o, spec);
      ghost var s0 := c.s;
      var written, changed := WriteSecret(o, spec, r);
      ghost var s1 := c.s;
      NoPodsDeleted(s0, s1, o, spec);
      if !written {
        return false;
      }
      c.Note(Place(o, spec), r.generation);
      NoPodsDeleted(s0, c.s, o, spec);
      AgreementStays(cfg, s1, c.s, o, spec, r);
      GrowsOn(s0, s1, c.s);
      if changed || (last != 0 && last != r.generation) {
        ghost var s2 := c.s;
        var restarted := RestartAll(o, spec, r.generation);
        AgreementStays(cfg, s2, c.s, o, spec, r);
        SameTargets(s0, c.s, o, spec);
        FaultsGrow(s0, s2);
        FaultsGrow(s2, c.s);
        GrowsOn(s0, s2, c.s);
        return restarted;
      }
      ok := true;
    }

    /** Deliver the credential of the record as it is now. */
    method DeliverCurrent(o: Resource, spec: Spec, last: int) returns (record: Option<Record>, problem: string)
      requires Sound(c.s)
      modifies c
      ensures Sound(c.s) && Grows(old(c.s), c.s)
      ensures c.s == old(c.s).(secrets := c.s.secrets, held := c.s.held, tick := c.s.tick, restarted := c.s.restarted,
        faults := c.s.faults,
        work := old(c.s).work.(secretWrites := c.s.work.secretWrites, restarts := c.s.work.restarts))
      ensures c.s.secrets - {Place(o, spec)} == old(c.s).secrets - {Place(o, spec)} && c.s.faults >= old(c.s).faults
      ensures record.Some? ==>
        && spec.agentName in c.s.records && record.value == c.s.records[spec.agentName] && record.value.generation >= 1
        && SecretAgrees(cfg, c.s, o, spec, record.value)
        && (o.namespace, spec.secretName, record.value.generation) in c.s.held
        && (MustRestart(old(c.s), o, spec, last, record.value) ==> Restarted(c.s, o, spec, record.value.generation))
      ensures Foreign(old(c.s), o, spec) ==>
        record.None? && c.s.secrets == old(c.s).secrets
      ensures spec.agentName in old(c.s).records
        && SecretAgrees(cfg, old(c.s), o, spec, old(c.s).records[spec.agentName])
        && last == old(c.s).records[spec.agentName].generation && c.s.faults == old(c.s).faults
        ==> record.Some? && Quiet(old(c.s), c.s)
      ensures RestartsAsNeeded(cfg, old(c.s), c.s, o, spec, last)
      ensures Delivers(cfg, old(c.s), c.s, o, spec, last, record.Some?)
      ensures c.reliable ==> c.s.faults == old(c.s).faults
    {
      hide SecretAgrees; hide Restarted; hide Sound; hide Grows;
      ghost var s0 := c.s;
      var got := c.GetRecord(spec.agentName);
      ghost var s1 := c.s;
      NoPodsDeleted(s0, s1, o, spec);
      if !got.Found? {
        return None, "read agent after reconcile";
      }
      assert got.record.generation >= 1 by { SoundRecord(c.s, spec.agentName); }
      AgreementStays(cfg, s0, s1, o, spec, got.record);
      var delivered := Deliver(o, spec, last, got.record);
      GrowsOn(s0, s1, c.s);
      return if delivered then Some(got.record) else None, "deliver token secret";
    }

    /** Deliver the current credential and report. */
    method Publish(o: Resource, spec: Spec, st: AgentStatus) returns (ok: bool)
      requires Sound(c.s) && Key(o) in c.s.resources && c.s.resources[Key(o)] == o
      requires st.rotationToken == spec.rotationToken
      modifies c
      ensures Sound(c.s) && Grows(old(c.s), c.s)
      ensures c.s == old(c.s).(resources := c.s.resources, secrets := c.s.secrets, held := c.s.held, tick := c.s.tick,
        restarted := c.s.restarted, faults := c.s.faults, work := c.s.work)
      ensures c.s.resources - {Key(o)} == old(c.s).resources - {Key(o)} && Key(o) in c.s.resources
      ensures c.s.secrets - {Place(o, spec)} == old(c.s).secrets - {Place(o, spec)}
      ensures c.s.resources[Key(o)] == o.(status := c.s.resources[Key(o)].status)
      ensures c.s.work == old(c.s).work.(secretWrites := c.s.work.secretWrites, restarts := c.s.work.restarts,
        statusWrites := c.s.work.statusWrites, failedStatusWrites := c.s.work.failedStatusWrites)
      ensures c.s.faults >= old(c.s).faults
      ensures ok ==> spec.agentName in c.s.records && c.s.records[spec.agentName].generation >= 1
      ensures ok ==>
        var r := c.s.records[spec.agentName];
        && (r.status.Active? ==> r.token != "")
        && c.s.resources[Key(o)].status == Some(ReadyStatus(cfg, o, spec, r))
        && SecretAgrees(cfg, c.s, o, spec, r) && (o.namespace, spec.secretName, r.generation) in c.s.held
        && (MustRestart(old(c.s), o, spec, st.restartedGeneration, r) ==> Restarted(c.s, o, spec, r.generation))
      ensures Reports(cfg, old(c.s), c.s, o, spec, st, ok)
      ensures !ok && c.s.work.failedStatusWrites == old(c.s).work.failedStatusWrites ==>
        c.s.resources[Key(o)].status == Some(Reported(o, st, Failed, StatusOf(c.s.resources[Key(o)]).message))
      ensures Foreign(old(c.s), o, spec) ==>
        !ok && c.s.secrets == old(c.s).secrets
      ensures LeavesAgreement(cfg, old(c.s), c.s, o, spec, st, ok)
      ensures Delivers(cfg, old(c.s), c.s, o, spec, st.restartedGeneration, ok)
      ensures c.reliable ==> c.s.faults == old(c.s).faults
    {
      hide SecretAgrees; hide Restarted; hide Sound; hide Grows; hide Key; hide Reported; hide Delivered;
      hide ReadyStatus; hide RestartsAsNeeded;
      ghost var s0 := c.s;
      if spec.agentName in s0.records { DeliveredIsReady(cfg, o, spec, st, s0.records[spec.agentName]); }
      var record, problem := DeliverCurrent(o, spec, st.restartedGeneration);
      ghost var s1 := c.s;
      if record.None? {
        ReportedSays(o, st, Failed, problem);
        ok := Report(o, st, Failed, problem);
      } else {
        ok := Report(o, Delivered(cfg, spec, st, record.value), Ready, "token is current");
        AgreementStays(cfg, s1, c.s, o, spec, record.value);
        SoundRecord(c.s, spec.agentName);
        RestartedStays(s1, c.s, o, spec, record.value.generation);
      }
      RestartsUntil(cfg, s0, s1, c.s, o, spec, st.restartedGeneration);
      DeliversUntil(cfg, s0, s1, c.s, o, spec, st.restartedGeneration, record.Some?, ok);
      GrowsOn(s0, s1, c.s);
    }

    /** One operation that issues a token. */
    method Issue(spec: Spec, kind: Kind, asked: bool) returns (ok: bool)
      requires Sound(c.s) && (kind.Creates? || (kind.Rotates? && spec.agentName in c.s.records))
      modifies c
      ensures Sound(c.s) && ServiceOnly(old(c.s), c.s, spec.agentName)
      ensures ok ==>
        && spec.agentName in c.s.records && c.s.records[spec.agentName].status.Active?
        && Young(cfg, c.s, spec, old(c.s).clock)
      ensures c.s.work == if !ok then old(c.s).work
        else if kind.Creates? then old(c.s).work.(creates := old(c.s).work.creates + 1)
        else old(c.s).work.(rotates := old(c.s).work.rotates + 1,
                            requested := old(c.s).work.requested + if asked then 1 else 0)
      ensures (kind, spec.agentName) in old(c.s).refuses ==> !ok
      ensures !ok && c.s.faults == old(c.s).faults ==> (kind, spec.agentName) in old(c.s).refuses
    {
      hide Grows;
      ghost var s0 := c.s;
      var missing;
      ok, missing := c.Serve(kind, spec.agentName, asked);
      FaultsGrow(s0, c.s);
      ClockGrows(s0, c.s);
      if ok { IssueIsYoung(cfg, s0, c.s, spec, kind, s0.clock); }
    }

    /** See to the token of an agent that does not exist yet, or is the resource's own: create
        it, or rotate the token for one of three reasons, or leave it. */
    method EnsureToken(spec: Spec, st: AgentStatus, got: Lookup) returns (ok: bool, problem: string)
      requires Sound(c.s) && !NotOurs(c.s, spec, st) && !got.Broken?
      requires got == LookedUp(c.s, spec.agentName)
      modifies c
      ensures Sound(c.s) && ServiceOnly(old(c.s), c.s, spec.agentName)
      ensures !ok ==> c.s.work == old(c.s).work
      ensures ok ==>
        && spec.agentName in c.s.records && c.s.records[spec.agentName].status.Active?
        && IssuedAsNeeded(cfg, old(c.s), c.s, spec, st, old(c.s).clock)
      ensures Refused(cfg, old(c.s), spec, st, old(c.s).clock) ==> !ok
      ensures !ok && c.s.faults == old(c.s).faults ==> Refused(cfg, old(c.s), spec, st, old(c.s).clock)
      ensures Needs(cfg, old(c.s), spec, st, old(c.s).clock).None? ==> ok && c.s == old(c.s)
      ensures c.reliable && Needs(cfg, old(c.s), spec, st, old(c.s).clock).None? ==> c.s.faults == old(c.s).faults
    {
      hide Sound; hide ServiceOnly;
      ServedNothing(c.s, spec.agentName);
      ghost var s0 := c.s;
      var now := c.s.clock;
      if got.Missing? {
        problem := "create agent";
        ok := Issue(spec, Creates, false);
        ServiceFrame(s0, c.s, spec.agentName);
        return;
      }
      var revoked := !got.record.status.Active?;
      var asked := !revoked && st.masUserId != "" && spec.rotationToken != st.rotationToken;
      var aged := !revoked && !asked && cfg.rotateAfter > 0 && now - got.record.updatedAt > cfg.rotateAfter;
      ok, problem := true, "rotate agent token";
      if revoked || asked || aged {
        ok := Issue(spec, Rotates, asked);
      }
      ServiceFrame(s0, c.s, spec.agentName);
    }

    /** Read the record, and the clock after it. */
    method ReadAgent(n: string, now: int) returns (got: Lookup)
      requires Sound(c.s) && c.s.clock <= now
      modifies c
      ensures Sound(c.s) && ServiceOnly(old(c.s), c.s, n)
      ensures c.s.records == old(c.s).records && c.s.work == old(c.s).work && c.s.refuses == old(c.s).refuses
      ensures c.s.tokens == old(c.s).tokens
      ensures got.Broken? ==> c.s.faults > old(c.s).faults
      ensures !got.Broken? ==>
        && c.s.faults == old(c.s).faults && c.s.clock == now
        && got == LookedUp(c.s, n)
      ensures c.reliable ==> c.s.faults == old(c.s).faults
    {
      hide Sound; hide Grows; hide ServiceOnly; hide LookedUp;
      ghost var s0 := c.s;
      got := ReadThenClock(n, now);
      ReadOnly(s0, c.s, n);
    }

    method ReadThenClock(n: string, now: int) returns (got: Lookup)
      requires Sound(c.s) && c.s.clock <= now
      modifies c
      ensures Sound(c.s) && c.s == old(c.s).(faults := c.s.faults, clock := c.s.clock)
      ensures if got.Broken? then c.s.faults > old(c.s).faults && c.s.clock == old(c.s).clock
              else c.s.faults == old(c.s).faults && c.s.clock == now && got == LookedUp(c.s, n)
      ensures c.reliable ==> !got.Broken?
    {
      hide Sound; hide Grows;
      got := c.GetRecord(n);
      c.Tick(if got.Broken? then c.s.clock else now);
    }

    /** The adoption gate: another's agent is a conflict, a retired one a failure. */
    method CheckOwnership(spec: Spec, st: AgentStatus, record: Record) returns (phase: Phase, problem: string)
      ensures phase == Ready <==> !NotForThis(record, spec, st)
      ensures phase != Unset
      ensures phase == Conflict <==>
        (st.masUserId == "" && !spec.adoptExisting) || (st.masUserId != "" && st.masUserId != record.userId)
    {
      if st.masUserId == "" && !spec.adoptExisting {
        return Conflict, "agent exists outside this resource";
      }
      if st.masUserId != "" && st.masUserId != record.userId {
        return Conflict, "agent was recreated outside this resource";
      }
      if record.status.Deactivated? {
        return Failed, "agent is deactivated";
      }
      return Ready, "";
    }

    /** Create the agent, or see to its token if it is its own. A failure comes with the phase
        and message to report. The clock says `now` when it is read. */
    method EnsureAgent(spec: Spec, st: AgentStatus, now: int) returns (next: AgentStatus, phase: Phase, problem: string)
      requires Sound(c.s) && c.s.clock <= now
      modifies c
      ensures Sound(c.s) && ServiceOnly(old(c.s), c.s, spec.agentName)
      ensures phase != Ready ==> next == st && c.s.work == old(c.s).work
      ensures phase == Conflict <==> Contested(old(c.s), spec, st) && c.s.faults == old(c.s).faults
      ensures phase != Unset
      ensures phase == Ready ==>
        && next == st.(rotationToken := spec.rotationToken)
        && spec.agentName in c.s.records && c.s.records[spec.agentName].status.Active?
        && IssuedAsNeeded(cfg, old(c.s), c.s, spec, st, now)
      ensures NotOurs(old(c.s), spec, st) ==> phase != Ready && c.s.records == old(c.s).records
      ensures Refused(cfg, old(c.s), spec, st, now) ==> phase != Ready
      ensures phase != Ready && c.s.faults == old(c.s).faults ==>
        NotOurs(old(c.s), spec, st) || Refused(cfg, old(c.s), spec, st, now)
      ensures Needs(cfg, old(c.s), spec, st, now).None? && c.s.faults == old(c.s).faults ==>
        && c.s.records == old(c.s).records && c.s.work == old(c.s).work && c.s.tokens == old(c.s).tokens
        && c.s.clock == now && c.s.refuses == old(c.s).refuses
      ensures Steady(cfg, old(c.s), spec, st, now) && c.s.faults == old(c.s).faults ==>
        phase == Ready && c.s.records == old(c.s).records && c.s.work == old(c.s).work
      ensures c.reliable && Needs(cfg, old(c.s), spec, st, now).None? ==> c.s.faults == old(c.s).faults
    {
      hide Sound; hide Grows; hide ServiceOnly; hide Needs; hide Asked; hide Steady; hide IssuedAsNeeded; hide Refused;
      hide NotForThis;
      ghost var s0 := c.s;
      next, phase := st, Failed;
      if Steady(cfg, s0, spec, st, now) { SteadyIsOurs(cfg, s0, spec, st, now); }
      var got := ReadAgent(spec.agentName, now);
      if got.Broken? {
        problem := "read agent";
        return;
      }
      ghost var s1 := c.s;
      SameNeeds(cfg, s0, s1, spec, st, now);
      if got.Found? {
        phase, problem := CheckOwnership(spec, st, got.record);
        if phase != Ready {
          return;
        }
      }
      var ensured;
      ensured, problem := EnsureToken(spec, st, got);
      ServiceOn(s0, s1, c.s, spec.agentName);
      if !ensured {
        phase := Failed;
        return;
      }
      IssuedSince(cfg, s0, s1, c.s, spec, st, now);
      next, phase := st.(rotationToken := spec.rotationToken), Ready;
    }

    /** Report the problem, or publish the credential. */
    method Conclude(o: Resource, spec: Spec, next: AgentStatus, phase: Phase, problem: string) returns (ok: bool)
      requires Sound(c.s) && Key(o) in c.s.resources && c.s.resources[Key(o)] == o
      requires phase == Ready ==>
        && next.rotationToken == spec.rotationToken
        && spec.agentName in c.s.records && c.s.records[spec.agentName].status.Active?
      modifies c
      ensures Sound(c.s) && Grows(old(c.s), c.s) && c.s.faults >= old(c.s).faults
      ensures Key(o) in c.s.resources && c.s.resources[Key(o)] == o.(status := c.s.resources[Key(o)].status)
      ensures c.s.resources - {Key(o)} == old(c.s).resources - {Key(o)}
      ensures c.s.secrets - {Place(o, spec)} == old(c.s).secrets - {Place(o, spec)}
      ensures c.s.records == old(c.s).records && c.s.deployments == old(c.s).deployments
      ensures ok ==> phase == Ready && Agreed(cfg, c.s, Key(o), spec)
      ensures Reports(cfg, old(c.s), c.s, o, spec, next, ok)
      ensures !ok && c.s.work.failedStatusWrites == old(c.s).work.failedStatusWrites ==>
        c.s.resources[Key(o)].status == Some(Reported(o, next, if phase == Ready then Failed else phase,
          StatusOf(c.s.resources[Key(o)]).message))
      ensures phase == Ready ==> LeavesAgreement(cfg, old(c.s), c.s, o, spec, next, ok)
      ensures phase != Ready || Foreign(old(c.s), o, spec) ==> !ok && c.s.secrets == old(c.s).secrets
      ensures phase == Ready ==> Delivers(cfg, old(c.s), c.s, o, spec, next.restartedGeneration, ok)
      ensures c.s.refuses == old(c.s).refuses && c.s.tokens == old(c.s).tokens && c.s.clock == old(c.s).clock
      ensures c.reliable ==> c.s.faults == old(c.s).faults
    {
      hide Sound; hide Grows; hide SecretAgrees; hide Restarted; hide Key; hide Reported; hide Reports;
      hide ReadyStatus; hide Agreed; hide Place; hide LeavesAgreement; hide Quiet; hide Foreign; hide TargetsUsable;
      hide Delivers;
      if phase != Ready {
        ReportedSays(o, next, phase, problem);
        ok := Report(o, next, phase, problem);
      } else {
        ok := Publish(o, spec, next);
        if ok {
          PublishedAgrees(cfg, c.s, o, spec);
        }
      }
    }

    /** Bring the agent of a claimed, valid resource up to date. */
    method ReconcileAgent(o: Resource, spec: Spec, st: AgentStatus, now: int) returns (ok: bool)
      requires Sound(c.s) && Key(o) in c.s.resources && c.s.resources[Key(o)] == o && st == StatusOf(o)
      requires c.s.clock <= now
      modifies c
      ensures Sound(c.s) && Grows(old(c.s), c.s) && Within(old(c.s), c.s, Key(o), spec.agentName, Place(o, spec))
      ensures Key(o) in c.s.resources && c.s.resources[Key(o)] == o.(status := c.s.resources[Key(o)].status)
      ensures ok ==> Agreed(cfg, c.s, Key(o), spec)
      ensures Passed(cfg, old(c.s), c.s, o, spec, now, ok)
      ensures Foreign(old(c.s), o, spec) ==> !ok && c.s.secrets == old(c.s).secrets
      ensures NotOurs(old(c.s), spec, st) ==>
        !ok && c.s.records == old(c.s).records && c.s.secrets == old(c.s).secrets
      ensures Agreed(cfg, old(c.s), Key(o), spec) && Young(cfg, old(c.s), spec, now)
              && c.s.faults == old(c.s).faults ==>
        ok && Quiet(old(c.s), c.s)
      ensures Outcome(cfg, old(c.s), c.s, o, spec, st, now, ok)
      ensures Explains(old(c.s), c.s, o, spec, ok)
      ensures c.reliable && Needs(cfg, old(c.s), spec, st, now).None? ==> c.s.faults == old(c.s).faults
    {
      hide Sound; hide Grows; hide SecretAgrees; hide Key; hide Passed; hide Reports; hide IssuedAsNeeded;
      hide ReadyStatus; hide StatusOf; hide Agreed; hide Steady; hide Young; hide Within; hide Place;
      hide LeavesAgreement; hide Quiet; hide NotOurs; hide Foreign; hide TargetsUsable; hide Contested;
      hide Reported; hide Explains;
      hide Refused; hide Renewal; hide ServiceOnly; hide Outcome; hide Delivers; hide Needs;
      ghost var s0 := c.s;
      var next, phase, problem := EnsureAgent(spec, st, now);
      ghost var s1 := c.s;
      ServiceFrame(s0, s1, spec.agentName);
      ObstaclesStay(s0, s1, o, spec);
      ok := Conclude(o, spec, next, phase, problem);
      PassCombines(cfg, s0, s1, c.s, o, spec, next, now, phase == Ready, ok);
      OutcomeCombines(cfg, s0, s1, c.s, o, spec, st, now, phase == Ready, ok);
      PassIsQuiet(cfg, s0, s1, c.s, o, spec, next, now, phase == Ready, ok);
      PassIsWithin(s0, s1, c.s, o, spec);
      PassExplains(s0, s1, c.s, o, spec, next, phase, ok);
      GrowsOn(s0, s1, c.s);
    }

    /** Let the resource go. */
    method DropFinalizer(o: Resource) returns (ok: bool)
      requires Sound(c.s) && Key(o) in c.s.resources && c.s.resources[Key(o)] == o
      modifies c
      ensures Sound(c.s) && Grows(old(c.s), c.s) && Key(o) in c.s.resources
      ensures c.s == old(c.s).(resources := c.s.resources, faults := c.s.faults,
        work := old(c.s).work.(finalizers := c.s.work.finalizers))
      ensures c.s.resources - {Key(o)} == old(c.s).resources - {Key(o)}
      ensures ok ==> c.s.resources[Key(o)] == o.(finalizers := Without(o.finalizers))
      ensures !ok ==> c.s.resources[Key(o)] == o && c.s.faults > old(c.s).faults
      ensures c.s.faults >= old(c.s).faults
    {
      hide Sound; hide Grows; hide Without; hide Key;
      var kept: seq<string> := [];
      WithoutAll(o.finalizers);
      for i := 0 to |o.finalizers|
        invariant kept == Without(o.finalizers[..i]) && c.s == old(c.s)
      {
        WithoutNext(o.finalizers, i);
        if o.finalizers[i] != FINALIZER {
          kept := kept + [o.finalizers[i]];
        }
      }
      ok := c.UpdateResource(Key(o), kept);
    }

    /** A missing agent is as good as a deactivated one. */
    method DeactivateAgent(n: string) returns (gone: bool)
      requires Sound(c.s)
      modifies c
      ensures Sound(c.s) && ServiceOnly(old(c.s), c.s, n) && c.s.work == old(c.s).work
      ensures gone ==> Gone(c.s, n)
      ensures !gone ==> c.s.faults > old(c.s).faults
    {
      hide Grows;
      ghost var s0 := c.s;
      var deactivated, missing := c.Serve(Deactivates, n, false);
      gone := deactivated || missing;
    }

    /** Deactivate the agent if the policy says so, then let the resource go. */
    method Finalize(o: Resource, spec: Spec, st: AgentStatus) returns (ok: bool)
      requires Sound(c.s) && Key(o) in c.s.resources && c.s.resources[Key(o)] == o && st == StatusOf(o)
      modifies c
      ensures Sound(c.s) && Grows(old(c.s), c.s) && Within(old(c.s), c.s, Key(o), spec.agentName, Place(o, spec))
      ensures Finalized(old(c.s), c.s, o, spec, ok)
    {
      hide Sound; hide Grows; hide Key; hide Reported; hide Within; hide Reports; hide Place; hide ServiceOnly;
      hide Gone; hide Without; hide StatusOf; hide Renewal; hide Finalized; hide Dated;
      ghost var s0 := c.s;
      GrowsSame(s0);
      if FINALIZER !in o.finalizers {
        PassIsWithin(s0, s0, s0, o, spec);
        FinalizedAsIs(s0, s0, o, spec, true);
        return true;
      }
      if spec.deletionPolicy == "Deactivate" && st.masUserId != "" {
        var gone := DeactivateAgent(spec.agentName);
        ghost var s1 := c.s;
        ServiceFrame(s0, s1, spec.agentName);
        if !gone {
          ok := Report(o, st, Failed, "deactivate agent");
        } else {
          ok := DropFinalizer(o);
        }
        FinalizedAfter(s0, s1, c.s, o, spec, gone, ok);
        PassIsWithin(s0, s1, c.s, o, spec);
        GrowsOn(s0, s1, c.s);
      } else {
        ok := DropFinalizer(o);
        PassIsWithin(s0, s0, c.s, o, spec);
        FinalizedAsIs(s0, c.s, o, spec, ok);
      }
    }

    /** The pass over a resource that owns its name: finalizer first, then the agent. */
    method ReconcileClaimed(o: Resource, spec: Spec, now: int) returns (ok: bool)
      requires Sound(c.s) && Key(o) in c.s.resources && c.s.resources[Key(o)] == o
      requires Decode(o) == Some(spec) && !o.deleting && ValidSpec(spec) && c.s.clock <= now
      modifies c
      ensures Sound(c.s) && Grows(old(c.s), c.s) && Within(old(c.s), c.s, Key(o), spec.agentName, Place(o, spec))
      ensures ok ==> Settled(cfg, c.s, Key(o))
      ensures Passed(cfg, old(c.s), c.s, o, spec, now, ok)
      ensures Foreign(old(c.s), o, spec) ==> !ok && c.s.secrets == old(c.s).secrets
      ensures Outcome(cfg, old(c.s), c.s, o, spec, StatusOf(o), now, ok)
      ensures Key(o) in c.s.resources && Guarded(old(c.s), c.s, o, spec, ok)
      ensures NotOurs(old(c.s), spec, StatusOf(o)) ==>
        !ok && c.s.records == old(c.s).records && c.s.secrets == old(c.s).secrets
      ensures Settled(cfg, old(c.s), Key(o)) && Young(cfg, old(c.s), spec, now) && c.s.faults == old(c.s).faults ==>
        ok && Quiet(old(c.s), c.s)
      ensures c.reliable && Needs(cfg, old(c.s), spec, StatusOf(o), now).None? ==> c.s.faults == old(c.s).faults
    {
      hide Sound; hide Grows; hide Reported; hide Agreed; hide TrimSpace; hide Young; hide ValidSpec; hide Passed;
      hide Within; hide Place; hide Decode; hide NotOurs; hide Foreign; hide TargetsUsable; hide Refused; hide StatusOf;
      hide Settled; hide Quiet; hide Needs; hide Outcome; hide Explains; hide Guarded;
      ghost var s0 := c.s;
      if FINALIZER in o.finalizers {
        ok := ReconcileAgent(o, spec, StatusOf(o), now);
        NowSettled(cfg, c.s, s0, o, spec, o);
        GuardedNow(s0, c.s, o, spec, o, ok);
        return;
      }
      var updated := c.UpdateResource(Key(o), o.finalizers + [FINALIZER]);
      ghost var s1 := c.s;
      FinalizerIsWithin(s0, s1, o, spec);
      if !updated {
        NothingPassed(cfg, s0, s1, o, spec, now);
        NoOutcome(cfg, s0, s1, o, spec, now);
        GuardedFails(s0, s1, o, spec);
        return false;
      }
      var current := o.(finalizers := o.finalizers + [FINALIZER]);
      SameButFinalizers(o, current, spec);
      SameObstacles(cfg, s0, s1, o, current, spec, now);
      ok := ReconcileAgent(current, spec, StatusOf(current), now);
      NowSettled(cfg, c.s, s0, o, spec, current);
      SinceFinalizer(cfg, s0, s1, c.s, o, current, spec, now, ok);
      ExplainsSince(s0, s1, c.s, o, current, spec, ok);
      GuardedNow(s0, c.s, o, spec, current, ok);
    }

    /** One pass over one resource. */
    method Reconcile(o: Resource, owners: map<string, string>, now: int) returns (ok: bool)
      requires Sound(c.s) && Key(o) in c.s.resources && c.s.resources[Key(o)] == o
      requires c.s.clock <= now
      modifies c
      ensures Sound(c.s) && Reconciled(cfg, owners, old(c.s), c.s, o, now, ok)
      ensures c.reliable && Decode(o).Some? && !o.deleting
              && Needs(cfg, old(c.s), Decode(o).value, StatusOf(o), now).None? ==>
        c.s.faults == old(c.s).faults
    {
      hide Sound; hide Grows; hide Key; hide Reported; hide Agreed; hide TrimSpace; hide Young; hide Passed;
      hide ValidSpec; hide Brought; hide Rejected; hide Finalized; hide Outcome; hide Guarded; hide NotOurs;
      hide Within; hide Place; hide Settled; hide Quiet; hide Foreign; hide Needs; hide Reports; hide Decode;
      hide StatusOf; hide Claimed; hide Renewal; hide Refused;
      ghost var s0 := c.s;
      var decoded, st := Decode(o), StatusOf(o);
      if decoded.None? {
        ok := Report(o, Blank(), Failed, "invalid spec");
        RejectsOnly(s0, c.s, o, Blank(), Failed, "invalid spec");
        return;
      }
      var spec := decoded.value;
      if o.deleting {
        ok := Finalize(o, spec, st);
        return;
      }
      if !Claimed(owners, o) {
        ok := Report(o, st, Conflict, "agent is already claimed");
        RejectsOnly(s0, c.s, o, st, Conflict, "agent is already claimed");
        RejectionBrings(cfg, owners, s0, c.s, o, spec, now);
        return;
      }
      if !ValidSpec(spec) {
        ok := Report(o, st, Failed, "spec is invalid");
        RejectsOnly(s0, c.s, o, st, Failed, "spec is invalid");
        RejectionBrings(cfg, owners, s0, c.s, o, spec, now);
        return;
      }
      ok := ReconcileClaimed(o, spec, now);
      ClaimedBrings(cfg, owners, s0, c.s, o, spec, now, ok);
    }

    /** One pass over all resources listed; `complete` says that every namespace was listed. */
    method ReconcileAll(keys: seq<string>, complete: bool) returns (ok: bool, ghost round: Round)
      requires Sound(c.s) && Listed(c.s, keys)
      modifies c
      ensures Sound(c.s) && Grows(old(c.s), c.s) && Listed(c.s, keys)
      ensures Works(old(c.s), round.owners, keys, round.all) && IsRound(cfg, round) && |round.results| == |keys|
      ensures round.states[0] == old(c.s) && round.states[|keys|] == c.s
      ensures ok <==> complete && false !in round.results
      ensures ok && Separate(old(c.s), keys) ==> AllSettled(cfg, c.s, keys)
      ensures complete && AllSettled(cfg, old(c.s), keys) && c.s.faults == old(c.s).faults
              && AllYoung(cfg, old(c.s), keys, c.s.clock) ==>
        ok && Quiet(old(c.s), c.s)
    {
      hide Sound; hide Grows; hide Settled; hide Within; hide Quiet; hide Key; hide Decode;
      hide Young; hide OwnersOf; hide AllYoung; hide AllSettled; hide PassedUpTo; hide Claimed; hide Reconciled;
      hide IsRound;
      ghost var s0 := c.s;
      SoundKeys(s0);
      var all: seq<Resource> := [];
      for i := 0 to |keys|
        invariant c.s == s0 && |all| == i
        invariant forall j | 0 <= j < i :: all[j] == s0.resources[keys[j]] && Key(all[j]) == keys[j]
      {
        all := all + [c.s.resources[keys[i]]];
      }
      var owners := ClaimOwners(all);
      ok := complete;
      PassesBegin(cfg, s0, owners, keys, all, complete);
      round := Round(owners, all, [s0], [], []);
      RoundBegins(cfg, owners, all, s0);
      for i := 0 to |keys|
        invariant Sound(c.s) && PassedUpTo(cfg, s0, c.s, owners, keys, all, i, complete, ok)
        invariant IsRound(cfg, round) && round.owners == owners && round.all == all && |round.results| == i
        invariant |round.states| == i + 1 && round.states[0] == s0 && round.states[i] == c.s
        invariant ok <==> complete && false !in round.results
      {
        ghost var earlier := c.s;
        var now := c.ReadClock();
        ghost var before := c.s;
        NextIsListed(cfg, s0, earlier, before, owners, keys, all, i, complete, ok);
        var one := Reconcile(all[i], owners, now);
        RoundGoesOn(cfg, owners, before, c.s, all[i], now, one);
        PassOnward(cfg, s0, earlier, before, c.s, owners, keys, all, i, complete, ok, one);
        RoundOneMore(cfg, round, c.s, now, one);
        round := OneMore(round, c.s, now, one);
        ok := ok && one;
      }
      PassesEnd(cfg, s0, c.s, owners, keys, all, complete, ok);
    }
  }
}
