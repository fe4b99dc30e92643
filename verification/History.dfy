/** Runs of whole lifecycle operations, seen as a history of the record store. */
module History {
  import opened Text
  import opened Records

  datatype Kind = Creates | Rotates | Revokes | Deactivates | Removes | SetsAvatar

  datatype Event = Event(kind: Kind, name: string, ok: bool)

  /** Both records describe one incarnation of the agent. */
  predicate SameIdentity(a: Record, b: Record) {
    a.name == b.name && a.userId == b.userId && a.createdAt == b.createdAt
  }

  predicate StaysAt(before: Option<Record>, after: Option<Record>, steps: int) {
    && before.Some? && after.Some? && SameIdentity(before.value, after.value)
    && after.value.generation == before.value.generation + steps
  }

  predicate Has(r: Option<Record>, status: Status) {
    r.Some? && r.value.status == status
  }

  /** What an operation may do to the record of its agent. */
  predicate Advances(before: Option<Record>, after: Option<Record>, kind: Kind, ok: bool) {
    match kind
    case Creates => if ok then before.None? && Has(after, Active) && after.value.generation == 1 else after == before
    case Rotates =>
      if ok then StaysAt(before, after, 1) && Has(after, Active)
      else after == before || (StaysAt(before, after, 0) && Has(after, Revoked)) || after.None?
    case Revokes => (StaysAt(before, after, 0) && Has(after, Revoked)) || (!ok && after == before)
    case Deactivates => (StaysAt(before, after, 0) && Has(after, Deactivated)) || (!ok && after == before)
    case Removes =>
      if ok then before.Some? && after.None?
      else after == before || (StaysAt(before, after, 0) && Has(after, Deactivated))
    case SetsAvatar => if ok then StaysAt(before, after, 0) else after == before
  }

  /** Whether the operation may issue a token. */
  predicate Issues(kind: Kind) {
    kind.Creates? || kind.Rotates?
  }

  /** When the token of `after` was issued, and what UpdatedAt says about it: the operation
      ran between `from` and `until`, `known` are the tokens before it, and `tokens` knows the
      time of issue. A token that the operation did not issue keeps its record as it was, unless
      SetAvatar moves UpdatedAt. */
  predicate Dated(before: Option<Record>, after: Option<Record>, kind: Kind, known: map<string, int>,
      tokens: map<string, int>, from: int, until: int)
  {
    after.Some? && after.value.token != "" && after != before ==>
      if kind.SetsAvatar? then
        before.Some? && after.value.token == before.value.token && from <= after.value.updatedAt <= until
      else
        && Issues(kind) && after.value.token in tokens && after.value.token !in known
        && from <= tokens[after.value.token] <= after.value.updatedAt <= until
  }

  predicate EventStep(m: map<string, Record>, m1: map<string, Record>, e: Event) {
    m1 - {e.name} == m - {e.name} && Advances(Find(m, e.name), Find(m1, e.name), e.kind, e.ok)
  }

  ghost predicate IsHistory(states: seq<map<string, Record>>, events: seq<Event>) {
    && |states| == |events| + 1 && states[0] == map[]
    && forall i | 0 <= i < |events| :: EventStep(states[i], states[i + 1], events[i])
  }

  /** Successful Rotates of `n` since its last successful Create. */
  function Rotations(events: seq<Event>, n: string): nat {
    if events == [] then 0 else
    var e, before := events[|events| - 1], Rotations(events[..|events| - 1], n);
    if e.name != n || !e.ok then before
    else if e.kind.Creates? then 0
    else if e.kind.Rotates? then before + 1
    else before
  }

  lemma OtherRecordsStay(m: map<string, Record>, m1: map<string, Record>, e: Event, n: string)
    requires EventStep(m, m1, e) && n != e.name
    ensures Find(m1, n) == Find(m, n)
  {
    assert n in m1 <==> n in m1 - {e.name};
    assert n in m <==> n in m - {e.name};
    if n in m { assert (m - {e.name})[n] == (m1 - {e.name})[n]; }
  }

  /** In every reachable state a record's generation is one plus its successful Rotates. */
  lemma {:induction false} GenerationCountsRotations(states: seq<map<string, Record>>, events: seq<Event>, k: nat,
        n: string)
    requires IsHistory(states, events) && k < |states| && n in states[k]
    ensures states[k][n].generation == 1 + Rotations(events[..k], n)
  {
    if k > 0 {
      var e := events[k - 1];
      assert EventStep(states[k - 1], states[k], e);
      assert events[..k][..k - 1] == events[..k - 1];
      if e.name != n { OtherRecordsStay(states[k - 1], states[k], e, n); }
      if n in states[k - 1] { GenerationCountsRotations(states, events, k - 1, n); }
    }
  }

  /** While a record exists it keeps its MAS user and its creation time. */
  lemma {:induction false} IdentityIsKept(states: seq<map<string, Record>>, events: seq<Event>, j: nat, k: nat,
        n: string)
    requires IsHistory(states, events) && j <= k < |states|
    requires forall i | j <= i <= k :: n in states[i]
    ensures SameIdentity(states[j][n], states[k][n])
  {
    if j < k {
      IdentityIsKept(states, events, j, k - 1, n);
      var e := events[k - 1];
      assert EventStep(states[k - 1], states[k], e);
      if e.name != n { OtherRecordsStay(states[k - 1], states[k], e, n); }
    }
  }
}
