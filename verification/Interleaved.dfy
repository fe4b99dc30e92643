/** Operations of many threads, seen one agent at a time: whatever the other agents' threads do
    in between, the agent's record goes through the history of its own operations. */
module Interleaved {
  import opened Text
  import opened Records
  import opened Stores
  import opened Sections
  import opened Locality
  import opened Locks
  import opened Serial
  import opened History
  import opened Service
  import opened ServiceRuns

  /** The calls of agent `n` between two moments, replayed alone, are one operation. That is
      what an operation of the service does, whichever legal replies it gets. */
  ghost predicate Span(ms: seq<Machine>, ls: seq<Label>, i: nat, j: nat, e: Event)
    requires |ms| == |ls| + 1
  {
    i <= j <= |ls| && Performed(Solo(ms[0].w, ls[..i], e.name), Solo(ms[0].w, ls[..j], e.name), e)
  }

  /** In the crowd the record advances as it does alone. */
  lemma SpanAdvances(ms: seq<Machine>, ls: seq<Label>, i: nat, j: nat, e: Event)
    requires IsRun(ms, ls) && Span(ms, ls, i, j, e)
    ensures Advances(Find(ms[i].w.records, e.name), Find(ms[j].w.records, e.name), e.kind, e.ok)
    ensures Retired(ms[i].w, e.name) ==> Retired(ms[j].w, e.name)
  {
    hide Performed; hide SameAgent; hide Structured; hide Sound; hide Advances; hide Retired;
    var n := e.name;
    var v, u := Solo(ms[0].w, ls[..i], n), Solo(ms[0].w, ls[..j], n);
    SoloAgrees(ms, ls, i, n);
    SoloAgrees(ms, ls, j, n);
    PerformedAdvances(v, u, e);
    if Retired(ms[i].w, n) {
      RetiredElsewhere(ms[i].w, v, n);
      RetiredElsewhere(u, ms[j].w, n);
    }
  }

  lemma PerformedAdvances(v: World, u: World, e: Event)
    requires Performed(v, u, e)
    ensures Advances(Find(v.records, e.name), Find(u.records, e.name), e.kind, e.ok)
    ensures EventStep(v.records, u.records, e)
    ensures Retired(v, e.name) ==> Retired(u, e.name)
  {
    hide OnlyAgent;
  }

  lemma SoloAgrees(ms: seq<Machine>, ls: seq<Label>, k: nat, n: string)
    requires IsRun(ms, ls) && k < |ms|
    ensures var v := Solo(ms[0].w, ls[..k], n);
      && SameAgent(ms[k].w, v, n) && SameAgent(v, ms[k].w, n) && Structured(v) && Structured(ms[k].w)
      && Find(ms[k].w.records, n) == Find(v.records, n)
  {
    hide Structured; hide Sound;
    ReplayAgrees(ms, ls, k, n);
    RunsStaySound(ms, ls, k);
    SoundIsStructured(ms[k]);
    SameAgentBack(ms[k].w, Solo(ms[0].w, ls[..k], n), n);
  }

  /** The operations of agent `n` so far: they end at the moments `ends`. */
  ghost predicate OperationsOf(ms: seq<Machine>, ls: seq<Label>, n: string, ends: seq<nat>, events: seq<Event>)
    requires |ms| == |ls| + 1
  {
    && |ends| == |events| + 1 && ends[0] == 0
    && (forall m | 0 <= m < |ends| :: ends[m] < |ms|)
    && forall m | 0 <= m < |events| :: events[m].name == n && Span(ms, ls, ends[m], ends[m + 1], events[m])
  }

  /** Generation counting in every interleaving: after each operation of the agent its record
      has generation one plus the successful Rotates since the Create. */
  lemma InterleavedGenerations(ms: seq<Machine>, ls: seq<Label>, n: string, ends: seq<nat>, events: seq<Event>, m: nat)
    requires IsRun(ms, ls) && OperationsOf(ms, ls, n, ends, events) && ms[0].w.records == map[]
    requires m < |ends| && n in ms[ends[m]].w.records
    ensures ms[ends[m]].w.records[n].generation == 1 + Rotations(events[..m], n)
  {
    hide Solo; hide Performed; hide Enabled; hide After; hide Rotations; hide EventStep; hide SameAgent;
    hide Structured;
    var states := seq(|ends|, i requires 0 <= i < |ends| => Solo(ms[0].w, ls[..ends[i]], n).records);
    forall i | 0 <= i < |events| ensures EventStep(states[i], states[i + 1], events[i]) {
      assert Span(ms, ls, ends[i], ends[i + 1], events[i]);
      PerformedAdvances(Solo(ms[0].w, ls[..ends[i]], n), Solo(ms[0].w, ls[..ends[i + 1]], n), events[i]);
    }
    SoloStarts(ms, ls, n);
    SoloAgrees(ms, ls, ends[m], n);
    assert n in states[m];
    GenerationCountsRotations(states, events, m, n);
  }

  lemma SoloStarts(ms: seq<Machine>, ls: seq<Label>, n: string)
    requires ms != []
    ensures Solo(ms[0].w, ls[..0], n) == ms[0].w
  {
  }
}
