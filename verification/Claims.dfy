/** MatrixAgent resources, and which of them owns an agent name. */
module Claims {
  import opened Text

  datatype Spec = Spec(
    agentName: string, displayName: string, secretName: string, adoptExisting: bool, deletionPolicy: string,
    rotationToken: string, restartTargets: seq<string>)

  datatype Phase = Unset | Ready | Conflict | Failed

  /** Zero and the empty string stand for fields that are not set. */
  datatype AgentStatus = AgentStatus(
    phase: Phase, message: string, observedGeneration: int, matrixUserId: string, deviceId: string, masUserId: string,
    tokenGeneration: int, rotationToken: string, lastRotation: int, secretName: string, restartedGeneration: int)

  /** `spec` is None when it does not decode. */
  datatype Resource = Resource(
    namespace: string, name: string, uid: string, created: int, deleting: bool, generation: int,
    finalizers: seq<string>, spec: Option<Spec>, status: Option<AgentStatus>)

  function Key(o: Resource): string {
    o.namespace + "/" + o.name
  }

  /** Keys tell resources apart: a namespace holds no slash. */
  lemma KeysTellApart(o: Resource, p: Resource)
    requires Key(o) == Key(p) && '/' !in o.namespace && '/' !in p.namespace
    ensures o.namespace == p.namespace && o.name == p.name
  {
    var k := Key(o);
    assert k[|o.namespace|] == '/' && k[|p.namespace|] == '/';
    assert forall i | 0 <= i < |o.namespace| :: k[i] == o.namespace[i];
    assert forall i | 0 <= i < |p.namespace| :: k[i] == p.namespace[i];
    assert o.namespace == k[..|o.namespace|] && p.namespace == k[..|p.namespace|];
    assert o.name == k[|o.namespace| + 1..] && p.name == k[|p.namespace| + 1..];
  }

  /** The spec with its defaults. */
  function Decode(o: Resource): Option<Spec> {
    match o.spec
    case None => None
    case Some(s) => Some(s.(
      agentName := if TrimSpace(s.agentName) == "" then o.name else s.agentName,
      deletionPolicy := if s.deletionPolicy == "" then "Retain" else s.deletionPolicy))
  }

  /** Byte order on strings. */
  predicate StringLess(a: string, b: string) {
    b != "" && (a == "" || a[0] < b[0] || (a[0] == b[0] && StringLess(a[1..], b[1..])))
  }

  lemma {:induction false} StringOrder(a: string, b: string, c: string)
    ensures !StringLess(a, a)
    ensures StringLess(a, b) || StringLess(b, a) || a == b
    ensures StringLess(a, b) && StringLess(b, c) ==> StringLess(a, c)
  {
    if a != "" && b != "" && c != "" {
      StringOrder(a[1..], b[1..], c[1..]);
      assert a == [a[0]] + a[1..] && b == [b[0]] + b[1..];
    } else if a != "" {
      StringOrder(a[1..], if b == "" then "" else b[1..], "");
      if b != "" { assert a == [a[0]] + a[1..] && b == [b[0]] + b[1..]; }
    }
  }

  /** Byte order: at the first difference the smaller byte decides, and a prefix comes first. */
  lemma {:induction false} StringLessIsLexicographic(a: string, b: string)
    ensures StringLess(a, b) <==> exists i :: DecidesAt(a, b, i)
  {
    if a != "" && b != "" && a[0] == b[0] {
      StringLessIsLexicographic(a[1..], b[1..]);
      assert a == [a[0]] + a[1..] && b == [b[0]] + b[1..];
      if StringLess(a[1..], b[1..]) {
        var i :| DecidesAt(a[1..], b[1..], i);
        assert DecidesAt(a, b, i + 1);
      }
      if i :| DecidesAt(a, b, i) {
        assert DecidesAt(a[1..], b[1..], i - 1);
      }
    } else if StringLess(a, b) {
      assert DecidesAt(a, b, 0);
    }
  }

  predicate DecidesAt(a: string, b: string, i: int) {
    0 <= i <= |a| && i < |b| && a[..i] == b[..i] && (i == |a| || a[i] < b[i])
  }

  predicate Older(a: Resource, b: Resource) {
    if a.created != b.created then a.created < b.created else StringLess(Key(a), Key(b))
  }

  lemma OlderOrder(a: Resource, b: Resource, c: Resource)
    ensures !Older(a, a)
    ensures Older(a, b) || Older(b, a) || (a.created == b.created && Key(a) == Key(b))
    ensures Older(a, b) && Older(b, c) ==> Older(a, c)
    ensures !Older(b, a) && !Older(c, b) ==> !Older(c, a)
  {
    StringOrder(Key(a), Key(b), Key(c));
    StringOrder(Key(c), Key(b), Key(a));
    StringOrder(Key(b), Key(a), Key(c));
    StringOrder(Key(c), Key(a), Key(b));
  }

  /** `o` asks for the agent name and is not being deleted. */
  predicate Claimant(o: Resource, n: string) {
    !o.deleting && Decode(o).Some? && Decode(o).value.agentName == n
  }

  /** `o` is the oldest claimant of the name; the key decides among equally old ones. */
  ghost predicate Owner(all: seq<Resource>, n: string, o: Resource) {
    o in all && Claimant(o, n) && forall p | p in all && Claimant(p, n) :: !Older(p, o)
  }

  ghost predicate OwnersOf(all: seq<Resource>, owners: map<string, string>) {
    && (forall n | n in owners :: exists o :: Owner(all, n, o) && owners[n] == Key(o))
    && (forall o, n | o in all && Claimant(o, n) :: n in owners)
  }

  /** Spelled out: no other claimant is older than the owner of the name, and none as old has a
      smaller key. A resource that is being deleted owns nothing. */
  lemma OwnerIsOldest(all: seq<Resource>, owners: map<string, string>, n: string)
    requires OwnersOf(all, owners) && n in owners
    ensures exists o ::
      && o in all && owners[n] == Key(o) && !o.deleting && Decode(o).Some? && Decode(o).value.agentName == n
      && forall p | p in all && !p.deleting && Decode(p).Some? && Decode(p).value.agentName == n ::
           o.created <= p.created && (o.created == p.created ==> !StringLess(Key(p), Key(o)))
  {
    hide Key; hide Decode; hide StringLess;
    var o :| Owner(all, n, o) && owners[n] == Key(o);
    forall p | p in all && !p.deleting && Decode(p).Some? && Decode(p).value.agentName == n
      ensures o.created <= p.created && (o.created == p.created ==> !StringLess(Key(p), Key(o)))
    {
      assert Claimant(p, n);
    }
  }

  predicate AgeSorted(s: seq<Resource>) {
    forall i, j | 0 <= i < j < |s| :: !Older(s[j], s[i])
  }

  /** A stable insertion sort, where claimOwners calls sort.SliceStable. */
  method SortByAge(all: seq<Resource>) returns (sorted: seq<Resource>)
    ensures AgeSorted(sorted) && multiset(sorted) == multiset(all)
  {
    sorted := [];
    for i := 0 to |all|
      invariant AgeSorted(sorted) && multiset(sorted) == multiset(all[..i])
    {
      var at := |sorted|;
      while at > 0 && Older(all[i], sorted[at - 1])
        invariant 0 <= at <= |sorted|
        invariant forall j | at <= j < |sorted| :: Older(all[i], sorted[j])
      {
        at := at - 1;
      }
      InsertKeepsSorted(sorted, at, all[i]);
      assert sorted == sorted[..at] + sorted[at..];
      assert all[..i + 1] == all[..i] + [all[i]];
      sorted := sorted[..at] + [all[i]] + sorted[at..];
    }
    assert all[..|all|] == all;
  }

  lemma InsertKeepsSorted(s: seq<Resource>, at: nat, x: Resource)
    requires AgeSorted(s) && at <= |s|
    requires at > 0 ==> !Older(x, s[at - 1])
    requires forall j | at <= j < |s| :: Older(x, s[j])
    ensures AgeSorted(s[..at] + [x] + s[at..])
  {
    var t := s[..at] + [x] + s[at..];
    forall i, j | 0 <= i < j < |t| ensures !Older(t[j], t[i]) {
      if j == at {
        if i < at - 1 { OlderOrder(s[i], s[at - 1], x); }
      } else if i == at {
        OlderOrder(x, t[j], x);
      }
    }
  }

  /** Each name with a claimant goes to its oldest claimant, and no other name is listed. */
  method ClaimOwners(all: seq<Resource>) returns (owners: map<string, string>)
    ensures OwnersOf(all, owners)
  {
    var sorted := SortByAge(all);
    owners := map[];
    for i := 0 to |sorted|
      invariant forall n | n in owners :: FirstClaim(sorted[..i], n, owners[n])
      invariant forall j, n | 0 <= j < i && Claimant(sorted[j], n) :: n in owners
    {
      assert sorted[..i + 1] == sorted[..i] + [sorted[i]];
      ghost var before := owners;
      if !sorted[i].deleting {
        var s := Decode(sorted[i]);
        if s.Some? && s.value.agentName !in owners {
          owners := owners[s.value.agentName := Key(sorted[i])];
          assert FirstClaimAt(sorted[..i + 1], s.value.agentName, Key(sorted[i]), i);
        }
      }
      forall n | n in before ensures FirstClaim(sorted[..i + 1], n, before[n]) {
        var j :| FirstClaimAt(sorted[..i], n, before[n], j);
        assert FirstClaimAt(sorted[..i + 1], n, before[n], j);
      }
    }
    assert sorted[..|sorted|] == sorted;
    forall n | n in owners ensures exists o :: Owner(all, n, o) && owners[n] == Key(o) {
      var j :| FirstClaimAt(sorted, n, owners[n], j);
      FirstIsOwner(all, sorted, n, owners[n], j);
    }
    forall o, n | o in all && Claimant(o, n) ensures n in owners {
      assert o in multiset(sorted);
    }
  }

  predicate FirstClaimAt(s: seq<Resource>, n: string, key: string, j: int) {
    0 <= j < |s| && Claimant(s[j], n) && Key(s[j]) == key && forall i | 0 <= i < j :: !Claimant(s[i], n)
  }

  ghost predicate FirstClaim(s: seq<Resource>, n: string, key: string) {
    exists j :: FirstClaimAt(s, n, key, j)
  }

  lemma FirstIsOwner(all: seq<Resource>, sorted: seq<Resource>, n: string, key: string, j: int)
    requires AgeSorted(sorted) && multiset(sorted) == multiset(all) && FirstClaimAt(sorted, n, key, j)
    ensures Owner(all, n, sorted[j])
  {
    assert sorted[j] in multiset(sorted);
    forall p | p in all && Claimant(p, n) ensures !Older(p, sorted[j]) {
      assert p in multiset(sorted);
      var i :| 0 <= i < |sorted| && sorted[i] == p;
      OlderOrder(p, p, p);
    }
  }

  ghost predicate DistinctKeys(all: seq<Resource>) {
    forall o, p | o in all && p in all && Key(o) == Key(p) :: o == p
  }

  /** The outcome does not depend on the order of the listing, nor on claimants that are
      younger than some other claimant of the same name. */
  lemma OwnersIgnoreOrderAndYounger(all: seq<Resource>, more: seq<Resource>, owners: map<string, string>,
        owners1: map<string, string>)
    requires OwnersOf(all, owners) && OwnersOf(more, owners1) && DistinctKeys(more)
    requires forall o | o in all :: o in more
    requires forall p, n | p in more && p !in all && Claimant(p, n) ::
      exists o :: o in all && Claimant(o, n) && Older(o, p)
    ensures owners == owners1
  {
    forall n | n in owners1 ensures n in owners && owners[n] == owners1[n] {
      var p :| Owner(more, n, p) && owners1[n] == Key(p);
      assert forall o | o in all && Claimant(o, n) :: !Older(o, p);
      assert p in all;
      var o :| Owner(all, n, o) && owners[n] == Key(o);
      OlderOrder(o, p, o);
    }
    forall n | n in owners ensures n in owners1 {
      var o :| Owner(all, n, o) && owners[n] == Key(o);
    }
  }
}
