/** What many passes over one resource amount to, with anything else happening in between. */
module OperatorRuns {
  import opened Text
  import opened Records
  import opened Claims
  import opened Cluster
  import opened Operator

  /** Either a pass over the resource, or steps that leave its status alone. */
  datatype Turn = Pass(now: int, ok: bool) | Elsewhere

  function StatusAt(s: State, k: string): AgentStatus {
    if k in s.resources then StatusOf(s.resources[k]) else Blank()
  }

  /** Every pass keeps its contract; in between history only grows. */
  ghost predicate IsRun(cfg: Config, k: string, states: seq<State>, turns: seq<Turn>) {
    && |states| == |turns| + 1
    && (forall i | 0 <= i < |states| ::
          k in states[i].resources && Key(states[i].resources[k]) == k && Decode(states[i].resources[k]).Some?)
    && forall i | 0 <= i < |turns| :: TurnTaken(cfg, k, states[i], states[i + 1], turns[i])
  }

  ghost predicate TurnTaken(cfg: Config, k: string, s: State, t: State, turn: Turn)
    requires k in s.resources && Decode(s.resources[k]).Some?
  {
    && Grows(s, t)
    && match turn
       case Pass(now, ok) => Passed(cfg, s, t, s.resources[k], Decode(s.resources[k]).value, now, ok)
       case Elsewhere => StatusAt(t, k) == StatusAt(s, k)
  }

  /** The resource can be reconciled: it is listed under its key, decodes and is not deleted. */
  predicate Watched(s: State, k: string) {
    k in s.resources && Key(s.resources[k]) == k && Decode(s.resources[k]).Some? && !s.resources[k].deleting
  }

  /** What a pass over the resource, whoever owns its name, and anything that others do to the
      cluster in between amount to, `count` turns in all. */
  method Watch(op: Operator, k: string, count: nat) returns (ghost states: seq<State>, turns: seq<Turn>)
    requires Sound(op.c.s) && Watched(op.c.s, k)
    modifies op.c
    ensures IsRun(op.cfg, k, states, turns) && |turns| == count
    ensures states[0] == old(op.c.s) && states[count] == op.c.s
  {
    hide Passed; hide Sound; hide Grows; hide Within;
    states, turns := [op.c.s], [];
    for i := 0 to count
      invariant Sound(op.c.s) && Watched(op.c.s, k) && |turns| == i
      invariant IsRun(op.cfg, k, states, turns) && states[0] == old(op.c.s) && states[i] == op.c.s
    {
      ghost var s := op.c.s;
      var turn := OneTurn(op, k);
      ghost var more := states + [op.c.s];
      forall j | 0 <= j < i + 1 ensures TurnTaken(op.cfg, k, more[j], more[j + 1], (turns + [turn])[j]) {
        if j < i { assert TurnTaken(op.cfg, k, states[j], states[j + 1], turns[j]); }
      }
      states, turns := more, turns + [turn];
    }
  }

  method OneTurn(op: Operator, k: string) returns (turn: Turn)
    requires Sound(op.c.s) && Watched(op.c.s, k)
    modifies op.c
    ensures Sound(op.c.s) && Watched(op.c.s, k)
    ensures TurnTaken(op.cfg, k, old(op.c.s), op.c.s, turn)
  {
    hide Passed; hide Sound; hide Grows;
    GrowsSame(op.c.s);
    turn := Elsewhere;
    var pass: bool := *;
    if pass {
      var owners: map<string, string> := *;
      var wait: int := *;
      var now := if wait < 0 then op.c.s.clock else op.c.s.clock + wait;
      var ok := op.Reconcile(op.c.s.resources[k], owners, now);
      turn := Pass(now, ok);
    } else {
      op.c.Others(k);
    }
  }

  /** Successful Rotates made in the passes because the spec asked for one. */
  function Requests(states: seq<State>, turns: seq<Turn>): int
    requires |states| == |turns| + 1
  {
    if turns == [] then 0 else
    Requests(states[..|turns|], turns[..|turns| - 1])
    + if turns[|turns| - 1].Pass? then states[|turns|].work.requested - states[|turns| - 1].work.requested else 0
  }

  /** Tokens issued in the passes, for whatever reason. */
  function Issues(states: seq<State>, turns: seq<Turn>): int
    requires |states| == |turns| + 1
  {
    if turns == [] then 0 else
    Issues(states[..|turns|], turns[..|turns| - 1])
    + if turns[|turns| - 1].Pass? && Issued(states[|turns| - 1], states[|turns|]) then 1 else 0
  }

  /** The spec asks for `token` throughout. */
  ghost predicate Asks(k: string, states: seq<State>, token: string) {
    forall i | 0 <= i < |states| ::
      k in states[i].resources && Decode(states[i].resources[k]).Some?
      && Decode(states[i].resources[k]).value.rotationToken == token
  }

  /** A pass that made a requested Rotate got its status written. */
  ghost predicate RequestsRecorded(states: seq<State>, turns: seq<Turn>)
    requires |states| == |turns| + 1
  {
    forall i | 0 <= i < |turns| && turns[i].Pass? && states[i + 1].work.requested > states[i].work.requested ::
      states[i + 1].work.failedStatusWrites == states[i].work.failedStatusWrites
  }

  predicate ActiveAt(s: State, k: string) {
    && k in s.resources && Decode(s.resources[k]).Some?
    && var n := Decode(s.resources[k]).value.agentName;
    && n in s.records && s.records[n].status.Active?
  }

  /** Turn `j` is the pass that put the request into the status. */
  predicate RecordsRequest(k: string, states: seq<State>, turns: seq<Turn>, token: string, j: int)
    requires |states| == |turns| + 1
  {
    && 0 <= j < |turns| && turns[j].Pass?
    && StatusAt(states[j], k).rotationToken != token && StatusAt(states[j + 1], k).rotationToken == token
  }

  /** The request was recorded by a pass, and one requested Rotate was made, unless there was
      no active agent whose token could be rotated then. */
  ghost predicate HandledAt(k: string, states: seq<State>, turns: seq<Turn>, token: string, requests: int)
    requires |states| == |turns| + 1
  {
    exists j ::
      RecordsRequest(k, states, turns, token, j) && requests == if ActiveAt(states[j], k) then 1 else 0
  }

  lemma HandledStays(k: string, states: seq<State>, turns: seq<Turn>, token: string, requests: int)
    requires |states| == |turns| + 1 && turns != []
    requires HandledAt(k, states[..|turns|], turns[..|turns| - 1], token, requests)
    ensures HandledAt(k, states, turns, token, requests)
  {
    var before, taken := states[..|turns|], turns[..|turns| - 1];
    var j :| RecordsRequest(k, before, taken, token, j) && requests == if ActiveAt(before[j], k) then 1 else 0;
    assert RecordsRequest(k, states, turns, token, j);
  }

  lemma RunPrefix(cfg: Config, k: string, states: seq<State>, turns: seq<Turn>)
    requires IsRun(cfg, k, states, turns) && turns != []
    ensures IsRun(cfg, k, states[..|turns|], turns[..|turns| - 1])
  {
    hide TurnTaken;
    var m := |turns| - 1;
    var before, taken := states[..|turns|], turns[..m];
    forall i | 0 <= i < m ensures TurnTaken(cfg, k, before[i], before[i + 1], taken[i]) {
      assert TurnTaken(cfg, k, states[i], states[i + 1], turns[i]);
    }
  }

  /** A changed rotation token is acted on exactly once: as long as it is not recorded no
      requested Rotate has succeeded. Once it is recorded a token has been issued, by exactly
      one requested Rotate if the agent was active, and no pass will rotate for it again. */
  lemma {:induction false} RequestHandledOnce(cfg: Config, k: string, states: seq<State>, turns: seq<Turn>,
        token: string)
    requires IsRun(cfg, k, states, turns) && Asks(k, states, token) && RequestsRecorded(states, turns)
    requires StatusAt(states[0], k).masUserId != "" && StatusAt(states[0], k).rotationToken != token
    ensures var last := StatusAt(states[|turns|], k);
      && last.masUserId != "" && 0 <= Requests(states, turns) <= 1 && Issues(states, turns) >= 0
      && (last.rotationToken != token ==>
        Requests(states, turns) == 0 && last.rotationToken == StatusAt(states[0], k).rotationToken)
      && (last.rotationToken == token ==>
        Issues(states, turns) >= 1 && HandledAt(k, states, turns, token, Requests(states, turns)))
  {
    hide Grows; hide HandledAt;
    if turns != [] {
      RunPrefix(cfg, k, states, turns);
      var m := |turns| - 1;
      var before, taken := states[..|turns|], turns[..m];
      RequestHandledOnce(cfg, k, before, taken, token);
      assert TurnTaken(cfg, k, states[m], states[m + 1], turns[m]);
      RequestTurn(cfg, k, states, turns, token);
    }
  }

  /** One more turn of a run in which the request is pending or handled. */
  lemma RequestTurn(cfg: Config, k: string, states: seq<State>, turns: seq<Turn>, token: string)
    requires IsRun(cfg, k, states, turns) && Asks(k, states, token) && RequestsRecorded(states, turns) && turns != []
    requires TurnTaken(cfg, k, states[|turns| - 1], states[|turns|], turns[|turns| - 1])
    requires StatusAt(states[|turns| - 1], k).masUserId != ""
    ensures var m := |turns| - 1;
      var before, last := StatusAt(states[m], k), StatusAt(states[m + 1], k);
      var requested := Requests(states, turns) - Requests(states[..m + 1], turns[..m]);
      && last.masUserId != ""
      && Issues(states, turns) >= Issues(states[..m + 1], turns[..m])
      && (before.rotationToken == token ==> last.rotationToken == token && requested == 0)
      && (before.rotationToken != token && last.rotationToken == before.rotationToken ==> requested == 0)
      && (before.rotationToken != token && last.rotationToken != before.rotationToken ==>
            && last.rotationToken == token && 0 <= requested <= 1
            && Issues(states, turns) >= Issues(states[..m + 1], turns[..m]) + 1
            && (Requests(states[..m + 1], turns[..m]) == 0 ==> HandledAt(k, states, turns, token, requested)))
      && (before.rotationToken == token && HandledAt(k, states[..m + 1], turns[..m], token, Requests(states, turns)) ==>
            HandledAt(k, states, turns, token, Requests(states, turns)))
  {
    hide Grows;
    var m := |turns| - 1;
    var before, last := StatusAt(states[m], k), StatusAt(states[m + 1], k);
    if turns[m].Pass? && before.rotationToken != token && last.rotationToken == token {
      assert RecordsRequest(k, states, turns, token, m);
    }
    if HandledAt(k, states[..m + 1], turns[..m], token, Requests(states, turns)) {
      HandledStays(k, states, turns, token, Requests(states, turns));
    }
  }

  /** Ready means that the request is recorded and handled. */
  lemma ReadyHandlesRequest(cfg: Config, k: string, states: seq<State>, turns: seq<Turn>, token: string)
    requires IsRun(cfg, k, states, turns) && Asks(k, states, token) && RequestsRecorded(states, turns)
    requires StatusAt(states[0], k).masUserId != "" && StatusAt(states[0], k).rotationToken != token
    requires turns != [] && turns[|turns| - 1].Pass? && turns[|turns| - 1].ok
    ensures Requests(states, turns) <= 1 <= Issues(states, turns)
    ensures HandledAt(k, states, turns, token, Requests(states, turns))
  {
    RequestHandledOnce(cfg, k, states, turns, token);
    var m := |turns| - 1;
    assert TurnTaken(cfg, k, states[m], states[m + 1], turns[m]);
  }

  /** The agent exists throughout and the spec never allows to adopt it. */
  ghost predicate Unadopted(k: string, states: seq<State>) {
    forall i | 0 <= i < |states| ::
      && k in states[i].resources && Decode(states[i].resources[k]).Some?
      && var spec := Decode(states[i].resources[k]).value;
      && !spec.adoptExisting && spec.agentName in states[i].records
  }

  /** A pass that failed after it created the agent, before it could report, leaves a
      resource that never becomes Ready: as long as the agent exists and may not be adopted,
      every later pass fails. */
  lemma {:induction false} UnreportedAgentIsStuck(cfg: Config, k: string, states: seq<State>, turns: seq<Turn>)
    requires IsRun(cfg, k, states, turns) && Unadopted(k, states) && StatusAt(states[0], k).masUserId == ""
    ensures StatusAt(states[|turns|], k).masUserId == ""
    ensures forall i | 0 <= i < |turns| && turns[i].Pass? :: !turns[i].ok
  {
    hide Grows;
    if turns != [] {
      RunPrefix(cfg, k, states, turns);
      var m := |turns| - 1;
      var taken := turns[..m];
      UnreportedAgentIsStuck(cfg, k, states[..|turns|], taken);
      assert TurnTaken(cfg, k, states[m], states[m + 1], turns[m]);
      forall i | 0 <= i < |turns| && turns[i].Pass? ensures !turns[i].ok {
        if i < m { assert taken[i] == turns[i]; }
      }
    }
  }

  /** All Deployments of `targets` lost their pods after the Secret held the generation. */
  predicate RestartedAll(s: State, namespace: string, secretName: string, targets: set<string>, generation: int) {
    && (namespace, secretName, generation) in s.held
    && forall d | d in targets ::
         (namespace, d) in s.restarted && s.restarted[(namespace, d)] > s.held[(namespace, secretName, generation)]
  }

  /** The resource keeps its Secret, and `targets` are listed and exist throughout. */
  ghost predicate Consumes(k: string, states: seq<State>, namespace: string, secretName: string, targets: set<string>) {
    forall i | 0 <= i < |states| ::
      && k in states[i].resources && states[i].resources[k].namespace == namespace
      && Decode(states[i].resources[k]).Some?
      && var spec := Decode(states[i].resources[k]).value;
      && spec.secretName == secretName
      && (i > 0 ==> forall d | d in targets :: (namespace, d) in states[i].deployments)
      && forall d | d in targets :: d in spec.restartTargets
  }

  lemma RestartedGrows(s: State, t: State, namespace: string, secretName: string, targets: set<string>, generation: int)
    requires Grows(s, t) && RestartedAll(s, namespace, secretName, targets, generation)
    ensures RestartedAll(t, namespace, secretName, targets, generation)
  {
  }

  /** A pass that records a new generation has restarted the consumers for it. */
  lemma PassRestarts(cfg: Config, k: string, s: State, t: State, turn: Turn, namespace: string, secretName: string,
        targets: set<string>)
    requires k in s.resources && Key(s.resources[k]) == k && Decode(s.resources[k]).Some?
      && TurnTaken(cfg, k, s, t, turn)
    requires s.resources[k].namespace == namespace && Decode(s.resources[k]).value.secretName == secretName
    requires forall d | d in targets ::
      && (namespace, d) in t.deployments
      && d in Decode(s.resources[k]).value.restartTargets
    ensures var g, g1 := StatusAt(s, k).restartedGeneration, StatusAt(t, k).restartedGeneration;
      g != 0 ==> g1 != 0 && (g1 == g || RestartedAll(t, namespace, secretName, targets, g1))
  {
    hide Grows;
  }

  /** A Ready pass that found another token in the Secret, or no Secret, has restarted every
      target that is listed and exists, also on the first delivery, and it stays so. */
  lemma NewTokenRestarts(cfg: Config, k: string, states: seq<State>, turns: seq<Turn>, i: nat, targets: set<string>)
    requires IsRun(cfg, k, states, turns) && i < |turns| && turns[i].Pass? && turns[i].ok
    requires var o := states[i].resources[k];
      var spec := Decode(o).value;
      && spec.agentName in states[i + 1].records
      && !HoldsToken(states[i], o.namespace, spec.secretName, states[i + 1].records[spec.agentName].token)
      && forall d | d in targets :: d in spec.restartTargets && (o.namespace, d) in states[i + 1].deployments
    ensures var o := states[i].resources[k];
      var spec := Decode(o).value;
      var r := states[i + 1].records[spec.agentName];
      && HoldsToken(states[i + 1], o.namespace, spec.secretName, r.token)
      && RestartedAll(states[|turns|], o.namespace, spec.secretName, targets, r.generation)
  {
    hide Grows; hide RestartsAsNeeded; hide RequestTaken; hide SecretAgrees; hide Renewal; hide NotOurs;
    assert TurnTaken(cfg, k, states[i], states[i + 1], turns[i]);
    var o := states[i].resources[k];
    var spec := Decode(o).value;
    var r := states[i + 1].records[spec.agentName];
    SecretAgreesOnToken(cfg, states[i + 1], o, spec, r);
    HistoryGrows(cfg, k, states, turns, i + 1);
    RestartedGrows(states[i + 1], states[|turns|], o.namespace, spec.secretName, targets, r.generation);
  }

  /** At-least-once restart. The recorded restarted generation, other than the `exempt` one the
      run started from, was delivered to all lasting consumers, even if passes failed between
      writing the Secret and restarting them. It never falls back to zero. */
  lemma {:induction false} ConsumersRestarted(
      cfg: Config, k: string, states: seq<State>, turns: seq<Turn>, namespace: string, secretName: string,
      targets: set<string>, exempt: int)
    requires IsRun(cfg, k, states, turns) && Consumes(k, states, namespace, secretName, targets)
    requires var g := StatusAt(states[0], k).restartedGeneration;
      g != 0 && (g == exempt || RestartedAll(states[0], namespace, secretName, targets, g))
    ensures var g := StatusAt(states[|turns|], k).restartedGeneration;
      g != 0 && (g == exempt || RestartedAll(states[|turns|], namespace, secretName, targets, g))
  {
    if turns != [] {
      hide Grows; hide RestartedAll;
      RunPrefix(cfg, k, states, turns);
      var m := |turns| - 1;
      var before, taken := states[..|turns|], turns[..m];
      ConsumersRestarted(cfg, k, before, taken, namespace, secretName, targets, exempt);
      assert TurnTaken(cfg, k, states[m], states[m + 1], turns[m]);
      PassRestarts(cfg, k, states[m], states[m + 1], turns[m], namespace, secretName, targets);
      var g := StatusAt(states[m], k).restartedGeneration;
      if RestartedAll(states[m], namespace, secretName, targets, g) {
        RestartedGrows(states[m], states[m + 1], namespace, secretName, targets, g);
      }
    }
  }

  function LastRestart(s: State, d: (string, string)): Option<nat> {
    if d in s.restarted then Some(s.restarted[d]) else None
  }

  /** The pods of the Deployment were deleted after the Secret held the generation. */
  predicate DeliveredTo(s: State, namespace: string, secretName: string, generation: int, d: string) {
    && (namespace, secretName, generation) in s.held && (namespace, d) in s.restarted
    && s.restarted[(namespace, d)] > s.held[(namespace, secretName, generation)]
  }

  predicate HoldsToken(s: State, namespace: string, secretName: string, token: string) {
    (namespace, secretName) in s.secrets && At(s.secrets[(namespace, secretName)].data, "access-token") == token
  }

  /** The resource keeps its Secret and its agent, which keeps the credential `r` has, and
      nobody but the passes touches the token in the Secret or restarts Deployment `d`. */
  ghost predicate Lasting(k: string, states: seq<State>, turns: seq<Turn>, namespace: string, secretName: string,
      r: Record, d: string)
    requires |states| == |turns| + 1
  {
    && (forall i | 0 <= i < |states| ::
          && k in states[i].resources && states[i].resources[k].namespace == namespace
          && Decode(states[i].resources[k]).Some?
          && var spec := Decode(states[i].resources[k]).value;
          && spec.secretName == secretName && spec.agentName == r.name && r.name in states[i].records
          && states[i].records[r.name].generation == r.generation && states[i].records[r.name].token == r.token)
    && forall i | 0 <= i < |turns| && turns[i].Elsewhere? ::
         && LastRestart(states[i + 1], (namespace, d)) == LastRestart(states[i], (namespace, d))
         && (HoldsToken(states[i], namespace, secretName, r.token) ==>
               HoldsToken(states[i + 1], namespace, secretName, r.token))
  }

  /** Once the Secret holds the token and no other generation is recorded as restarted, no
      pass restarts anything any more, whether it reports Ready or fails. */
  lemma {:induction false} NoLateRestart(cfg: Config, k: string, states: seq<State>, turns: seq<Turn>,
        namespace: string, secretName: string, r: Record, d: string)
    requires IsRun(cfg, k, states, turns) && Lasting(k, states, turns, namespace, secretName, r, d)
    requires HoldsToken(states[0], namespace, secretName, r.token)
    requires StatusAt(states[0], k).restartedGeneration in {0, r.generation}
    ensures HoldsToken(states[|turns|], namespace, secretName, r.token)
    ensures StatusAt(states[|turns|], k).restartedGeneration in {0, r.generation}
    ensures LastRestart(states[|turns|], (namespace, d)) == LastRestart(states[0], (namespace, d))
  {
    hide Grows;
    if turns != [] {
      RunPrefix(cfg, k, states, turns);
      var m := |turns| - 1;
      NoLateRestart(cfg, k, states[..|turns|], turns[..m], namespace, secretName, r, d);
      assert TurnTaken(cfg, k, states[m], states[m + 1], turns[m]);
      if turns[m].Pass? {
        var o := states[m].resources[k];
        PassKeepsToken(cfg, states[m], states[m + 1], o, Decode(o).value, turns[m].now, turns[m].ok);
      }
    }
  }

  lemma PassKeepsToken(cfg: Config, s: State, t: State, o: Resource, spec: Spec, now: int, ok: bool)
    requires Passed(cfg, s, t, o, spec, now, ok) && spec.agentName in t.records
    requires HoldsToken(s, o.namespace, spec.secretName, t.records[spec.agentName].token)
    requires StatusOf(o).restartedGeneration in {0, t.records[spec.agentName].generation}
    ensures HoldsToken(t, o.namespace, spec.secretName, t.records[spec.agentName].token) && t.restarted == s.restarted
  {
    hide SecretAgrees;
    if Holds(cfg, t, o, spec) { SecretAgreesOnToken(cfg, t, o, spec, t.records[spec.agentName]); }
  }

  lemma RunSuffix(cfg: Config, k: string, states: seq<State>, turns: seq<Turn>)
    requires IsRun(cfg, k, states, turns) && turns != []
    ensures IsRun(cfg, k, states[1..], turns[1..])
  {
    hide TurnTaken;
    forall i | 0 <= i < |turns| - 1 ensures TurnTaken(cfg, k, states[1..][i], states[1..][i + 1], turns[1..][i]) {
      assert TurnTaken(cfg, k, states[i + 1], states[i + 2], turns[i + 1]);
    }
  }

  /** The first restart is lost, not late: if a pass with no generation recorded wrote the
      Secret and then failed before it restarted `d`, then `d` is not restarted for that
      generation by any later pass. */
  lemma LostRestartStaysLost(cfg: Config, k: string, states: seq<State>, turns: seq<Turn>, namespace: string,
        secretName: string, r: Record, d: string)
    requires IsRun(cfg, k, states, turns) && turns != [] && turns[0].Pass? && !turns[0].ok
    requires StatusAt(states[0], k).restartedGeneration == 0 && states[1].secrets != states[0].secrets
    requires Decode(states[0].resources[k]).value.agentName == r.name
    requires states[0].resources[k].namespace == namespace
    requires Decode(states[0].resources[k]).value.secretName == secretName
    requires Lasting(k, states[1..], turns[1..], namespace, secretName, r, d)
    requires (namespace, secretName, r.generation) in states[1].held
    requires !DeliveredTo(states[1], namespace, secretName, r.generation, d)
    ensures !DeliveredTo(states[|turns|], namespace, secretName, r.generation, d)
  {
    hide Passed;
    RunSuffix(cfg, k, states, turns);
    assert TurnTaken(cfg, k, states[0], states[1], turns[0]);
    var o := states[0].resources[k];
    FailedDelivery(cfg, states[0], states[1], o, Decode(o).value, turns[0].now);
    assert states[1..][0] == states[1];
    NoLateRestart(cfg, k, states[1..], turns[1..], namespace, secretName, r, d);
    HistoryGrows(cfg, k, states, turns, 1);
  }

  /** A failed pass that wrote the Secret left the credential of the record in it. */
  lemma FailedDelivery(cfg: Config, s: State, t: State, o: Resource, spec: Spec, now: int)
    requires Passed(cfg, s, t, o, spec, now, false) && t.secrets != s.secrets
    ensures spec.agentName in t.records
    ensures HoldsToken(t, o.namespace, spec.secretName, t.records[spec.agentName].token)
    ensures Key(o) in t.resources
      && StatusOf(t.resources[Key(o)]).restartedGeneration == StatusOf(o).restartedGeneration
  {
    hide SecretAgrees;
    SecretAgreesOnToken(cfg, t, o, spec, t.records[spec.agentName]);
  }

  lemma {:induction false} HistoryGrows(cfg: Config, k: string, states: seq<State>, turns: seq<Turn>, i: nat)
    requires IsRun(cfg, k, states, turns) && i <= |turns|
    ensures Grows(states[i], states[|turns|])
    decreases |turns| - i
  {
    if i < |turns| {
      HistoryGrows(cfg, k, states, turns, i + 1);
      assert TurnTaken(cfg, k, states[i], states[i + 1], turns[i]);
      GrowsOn(states[i], states[i + 1], states[|turns|]);
    }
  }

  /** The resource may adopt the active agent of record `r`, and nothing was reported yet. */
  predicate Adopts(o: Resource, spec: Spec, r: Record) {
    && Decode(o) == Some(spec) && ValidSpec(spec) && !o.deleting && o.status.None? && spec.adoptExisting
    && r.status.Active? && r.generation >= 1 && r.userId != "" && r.token != ""
  }

  /** The cluster before the first pass: `stuck` has no usable selector, `d` has. */
  function BeforeFirstPass(o: Resource, spec: Spec, r: Record, stuck: string, d: string): State {
    State(map[Key(o) := o], map[], map[(o.namespace, d) := true, (o.namespace, stuck) := false],
      map[spec.agentName := r],
      Work(0, 0, 0, 0, 0, 0, 0, 0), 0, 0, map[], map[], r.updatedAt, map[r.token := r.updatedAt], {})
  }

  /** The first pass writes the Secret, restarts nothing, fails, and leaves a resource for
      which no pass sees a need to restart. */
  lemma FirstPassFails(cfg: Config, o: Resource, spec: Spec, r: Record, stuck: string, d: string, t: State, ok: bool)
    requires Adopts(o, spec, r) && stuck != d && |spec.restartTargets| > 1 && spec.restartTargets[0] == stuck
    requires var s := BeforeFirstPass(o, spec, r, stuck, d);
      && Passed(cfg, s, t, o, spec, r.updatedAt, ok) && Outcome(cfg, s, t, o, spec, StatusOf(o), r.updatedAt, ok)
      && t.faults == s.faults
    ensures !ok && t.records == map[spec.agentName := r] && t.restarted == map[] && t.clock == r.updatedAt
    ensures t.secrets != map[] && SecretAgrees(cfg, t, o, spec, r)
    ensures Key(o) in t.resources && StatusOf(t.resources[Key(o)]).masUserId == ""
    ensures StatusOf(t.resources[Key(o)]).restartedGeneration == 0
  {
    hide SecretAgrees; hide TrimSpace; hide Key; hide ValidSpec; hide Decode;
    var s := BeforeFirstPass(o, spec, r, stuck, d);
    assert !Restartable(s, o, spec.restartTargets[0]);
    forall e ensures !Reached(s, o, spec, e) {
    }
    assert t.restarted.Keys == {};
    assert SecretAgrees(cfg, t, o, spec, r) ==> t.secrets != map[] by { SecretAgreesOnToken(cfg, t, o, spec, r); }
  }

  /** The next pass is Ready and restarts nothing either. */
  lemma SecondPassIsReady(cfg: Config, o: Resource, spec: Spec, r: Record, s: State, t: State, ok: bool)
    requires s.records == map[spec.agentName := r] && s.restarted == map[] && s.clock == r.updatedAt
    requires r.status.Active? && r.generation >= 1 && spec.adoptExisting && SecretAgrees(cfg, s, o, spec, r)
    requires StatusOf(o).masUserId == "" && StatusOf(o).restartedGeneration == 0
    requires Passed(cfg, s, t, o, spec, r.updatedAt, ok) && Outcome(cfg, s, t, o, spec, StatusOf(o), r.updatedAt, ok)
    requires t.faults == s.faults
    ensures ok && t.records == s.records && t.restarted == map[] && SecretAgrees(cfg, t, o, spec, r)
    ensures StatusAt(t, Key(o)) == ReadyStatus(cfg, o, spec, r)
    ensures (o.namespace, spec.secretName, r.generation) in t.held
  {
    hide TrimSpace; hide Key; hide Desired; hide Itoa; hide ReadyStatus; hide Reached;
    SecretAgreesOnToken(cfg, s, o, spec, r);
  }

  lemma StartsSound(cfg: Config, o: Resource, spec: Spec, r: Record, stuck: string, d: string)
    requires Adopts(o, spec, r)
    ensures var s := BeforeFirstPass(o, spec, r, stuck, d);
      && Sound(s) && Key(o) in s.resources && s.resources[Key(o)] == o && s.clock == r.updatedAt && s.faults == 0
      && Needs(cfg, s, spec, StatusOf(o), r.updatedAt).None?
    ensures Claimed(map[spec.agentName := Key(o)], o) && ValidSpec(Decode(o).value) && !o.deleting
  {
    hide TrimSpace; hide ValidSpec;
  }

  /** A pass changes finalizers and status of its resource, nothing that it is known by. */
  lemma PassKeepsResource(s: State, t: State, o: Resource, spec: Spec)
    requires Within(s, t, Key(o), NameOf(o), PlaceOf(o)) && Decode(o) == Some(spec) && Key(o) in s.resources
    requires s.resources[Key(o)] == o
    ensures Key(o) in t.resources && t.deployments == s.deployments
    ensures var o1 := t.resources[Key(o)];
      && o1 == o.(finalizers := o1.finalizers, status := o1.status) && Key(o1) == Key(o) && Decode(o1) == Some(spec)
      && Claimed(map[spec.agentName := Key(o)], o1)
  {
    hide TrimSpace;
  }

  /** Mending a selector changes nothing else a pass looks at. */
  lemma Mended(cfg: Config, s: State, t: State, o: Resource, o1: Resource, spec: Spec, r: Record)
    requires t == s.(deployments := t.deployments) && Sound(s) && s.records == map[spec.agentName := r]
    requires o1 == o.(finalizers := o1.finalizers, status := o1.status) && r.status.Active? && r.generation >= 1
    requires StatusOf(o1).masUserId == "" && SecretAgrees(cfg, s, o, spec, r)
    ensures Sound(t) && Grows(s, t) && SecretAgrees(cfg, t, o1, spec, r)
    ensures Needs(cfg, t, spec, StatusOf(o1), r.updatedAt).None?
    ensures forall u: State :: SecretAgrees(cfg, u, o1, spec, r) ==> SecretAgrees(cfg, u, o, spec, r)
    ensures ReadyStatus(cfg, o1, spec, r) == ReadyStatus(cfg, o, spec, r)
  {
    hide Desired; hide Itoa;
  }

  /** Two passes of the operator without a single fault. The first fails because a restart
      target has no usable selector, after it wrote the Secret. The selector is mended, the
      second pass is Ready, and the other target still runs with the old token. This happens
      to every resource that adopts its agent and lists such a target first. */
  method FirstRestartCanBeLost(cfg: Config, o: Resource, spec: Spec, r: Record, stuck: string, d: string)
    returns (states: seq<State>, turns: seq<Turn>)
    requires Adopts(o, spec, r) && stuck != d && d in spec.restartTargets && spec.restartTargets[0] == stuck
    ensures IsRun(cfg, Key(o), states, turns)
    ensures turns == [Pass(r.updatedAt, false), Elsewhere, Pass(r.updatedAt, true)]
    ensures states[0] == BeforeFirstPass(o, spec, r, stuck, d) && states[3].faults == 0
    ensures states[2] == states[1].(deployments := states[1].deployments[(o.namespace, stuck) := true])
    ensures SecretAgrees(cfg, states[1], o, spec, r) && SecretAgrees(cfg, states[3], o, spec, r)
    ensures StatusAt(states[3], Key(o)) == ReadyStatus(cfg, o, spec, r)
    ensures (o.namespace, spec.secretName, r.generation) in states[3].held && states[3].restarted == map[]
    ensures !DeliveredTo(states[3], o.namespace, spec.secretName, r.generation, d)
  {
    hide SecretAgrees; hide TrimSpace; hide Key; hide ValidSpec; hide Passed; hide Outcome; hide Sound; hide Grows;
    hide Within; hide ReadyStatus; hide Settled; hide BeforeFirstPass;
    var s := BeforeFirstPass(o, spec, r, stuck, d);
    StartsSound(cfg, o, spec, r, stuck, d);
    var c := new Cluster(s, true);
    var op := new Operator(c, cfg);
    var owners := map[spec.agentName := Key(o)];
    var first := op.Reconcile(o, owners, r.updatedAt);
    var s1 := c.s;
    FirstPassFails(cfg, o, spec, r, stuck, d, s1, first);
    PassKeepsResource(s, s1, o, spec);
    var s2 := s1.(deployments := s1.deployments[(o.namespace, stuck) := true]);
    c.s := s2;
    var o1 := s1.resources[Key(o)];
    Mended(cfg, s1, s2, o, o1, spec, r);
    var second := op.Reconcile(o1, owners, r.updatedAt);
    SecondPassIsReady(cfg, o1, spec, r, s2, c.s, second);
    PassKeepsResource(s2, c.s, o1, spec);
    states, turns := [s, s1, s2, c.s], [Pass(r.updatedAt, first), Elsewhere, Pass(r.updatedAt, second)];
    assert TurnTaken(cfg, Key(o), s, s1, turns[0]) && TurnTaken(cfg, Key(o), s1, s2, turns[1]);
    assert TurnTaken(cfg, Key(o), s2, c.s, turns[2]);
  }
}
