/** Listing the agents, beside the operator's token Secrets that carry the same labels. */
module Listing {
  import opened Text
  import opened Records
  import opened Codec
  import opened Backend

  /** The record fits the limits of its encoding: a 64-bit generation, times that keep. */
  predicate Encodable(cfg: Config, r: Record) {
    r.generation <= MAX_INT && TimeKept(cfg, r.createdAt) && TimeKept(cfg, r.updatedAt)
  }

  predicate WriteFits(cfg: Config, w: Write) {
    w.CreateW? || w.UpdateW? ==> Encodable(cfg, w.record)
  }

  function ApplyAll(cfg: Config, s: Server, ws: seq<Write>): Server {
    if ws == [] then s else ApplyWrite(cfg, ApplyAll(cfg, s, ws[..|ws| - 1]), ws[|ws| - 1])
  }

  /** Every agent Secret reads back as a record of the agent it is named after. */
  predicate Tidy(cfg: Config, s: Server) {
    forall k | k in s.secrets :: s.secrets[k].name == k
      && (s.secrets[k].kind == SECRET_TYPE ==>
            RecordFromSecret(cfg, s.secrets[k]).Some?
              && k == SecretName(cfg, RecordFromSecret(cfg, s.secrets[k]).value.name))
  }

  lemma WriteKeepsTidy(cfg: Config, s: Server, w: Write)
    requires Tidy(cfg, s) && WriteFits(cfg, w)
    ensures Tidy(cfg, ApplyWrite(cfg, s, w))
  {
    hide RecordFromSecret;
    if (w.CreateW? || w.UpdateW?) && SecretFromRecord(cfg, w.record).Some? {
      RecordRoundTrip(cfg, w.record, s.revision + 1);
    }
  }

  lemma {:induction false} RunKeepsTidy(cfg: Config, ws: seq<Write>)
    requires forall i | 0 <= i < |ws| :: WriteFits(cfg, ws[i])
    ensures Tidy(cfg, ApplyAll(cfg, Server(map[], 0), ws))
  {
    if ws != [] {
      RunKeepsTidy(cfg, ws[..|ws| - 1]);
      WriteKeepsTidy(cfg, ApplyAll(cfg, Server(map[], 0), ws[..|ws| - 1]), ws[|ws| - 1]);
    }
  }

  /** What GetAgent reads. */
  function Get(cfg: Config, s: Server, name: string): Option<Record> {
    var secret := SecretOf(cfg, s, name);
    if secret.None? then None else RecordFromSecret(cfg, secret.value)
  }

  predicate Selected(secret: Secret) {
    At(secret.labels, PART_OF_LABEL) == PART_OF && AGENT_LABEL in secret.labels
  }

  /** The answer of the label query: each matching Secret once, in any order. */
  ghost predicate Answers(s: Server, items: seq<Secret>) {
    && (forall i | 0 <= i < |items| ::
      && items[i].name in s.secrets && s.secrets[items[i].name] == items[i]
      && Selected(items[i]))
    && (forall k | k in s.secrets && Selected(s.secrets[k]) :: s.secrets[k] in items)
    && (forall i, j | 0 <= i < j < |items| :: items[i].name != items[j].name)
  }

  predicate Wanted(cfg: Config, secret: Secret) {
    cfg.prefix + "-" <= secret.name && secret.kind == SECRET_TYPE
  }

  /** `rs` are the records of the wanted items, in order. */
  ghost predicate Reads(cfg: Config, items: seq<Secret>, rs: seq<Record>) {
    if items == [] then rs == []
    else if !Wanted(cfg, items[|items| - 1]) then Reads(cfg, items[..|items| - 1], rs)
    else rs != [] && RecordFromSecret(cfg, items[|items| - 1]) == Some(rs[|rs| - 1])
         && Reads(cfg, items[..|items| - 1], rs[..|rs| - 1])
  }

  method ListAgents(cfg: Config, items: seq<Secret>) returns (result: Option<seq<Record>>)
    ensures result.Some? ==> Reads(cfg, items, result.value)
    ensures result.None? <==>
      exists i :: 0 <= i < |items| && Wanted(cfg, items[i]) && RecordFromSecret(cfg, items[i]).None?
  {
    hide RecordFromSecret;
    var records := [];
    for i := 0 to |items|
      invariant Reads(cfg, items[..i], records)
      invariant forall j | 0 <= j < i :: Wanted(cfg, items[j]) ==> RecordFromSecret(cfg, items[j]).Some?
    {
      assert items[..i + 1][..i] == items[..i];
      if !Wanted(cfg, items[i]) {
        continue;
      }
      var record := RecordFromSecret(cfg, items[i]);
      if record.None? {
        return None;
      }
      assert (records + [record.value])[..|records|] == records;
      records := records + [record.value];
    }
    assert items[..|items|] == items;
    result := Some(records);
  }

  lemma {:induction false} ReadsCovers(cfg: Config, items: seq<Secret>, rs: seq<Record>)
    requires Reads(cfg, items, rs)
    ensures forall r | r in rs :: exists i ::
      && 0 <= i < |items| && Wanted(cfg, items[i])
      && RecordFromSecret(cfg, items[i]) == Some(r)
    ensures forall i | 0 <= i < |items| && Wanted(cfg, items[i]) ::
      RecordFromSecret(cfg, items[i]).Some? && RecordFromSecret(cfg, items[i]).value in rs
  {
    hide RecordFromSecret; hide Wanted;
    if items != [] {
      var last := items[|items| - 1];
      var front := items[..|items| - 1];
      if !Wanted(cfg, last) {
        ReadsCovers(cfg, front, rs);
      } else {
        ReadsCovers(cfg, front, rs[..|rs| - 1]);
        assert rs == rs[..|rs| - 1] + [rs[|rs| - 1]];
      }
    }
  }

  /** An item whose record carries the agent's name is the agent's own Secret. */
  lemma ListedIsGot(cfg: Config, s: Server, items: seq<Secret>, i: nat)
    requires Tidy(cfg, s) && Answers(s, items) && i < |items| && Wanted(cfg, items[i])
    ensures RecordFromSecret(cfg, items[i]).Some?
    ensures Get(cfg, s, RecordFromSecret(cfg, items[i]).value.name) == RecordFromSecret(cfg, items[i])
    ensures items[i].name == SecretName(cfg, RecordFromSecret(cfg, items[i]).value.name)
  {
    hide RecordFromSecret;
  }

  /** What GetAgent finds is among the items. */
  lemma GotIsListed(cfg: Config, s: Server, items: seq<Secret>, name: string)
    requires Tidy(cfg, s) && Answers(s, items) && Get(cfg, s, name).Some?
    ensures Get(cfg, s, name).value.name == name
    ensures exists i ::
      && 0 <= i < |items| && Wanted(cfg, items[i])
      && RecordFromSecret(cfg, items[i]) == Get(cfg, s, name)
  {
    var secret := s.secrets[SecretName(cfg, name)];
    ReadIsWritable(cfg, secret);
    assert Selected(secret) && secret.kind == SECRET_TYPE;
    assert cfg.prefix + "-" <= secret.name;
    var r := RecordFromSecret(cfg, secret).value;
    assert SecretName(cfg, r.name)[|cfg.prefix| + 1..] == r.name;
    assert SecretName(cfg, name)[|cfg.prefix| + 1..] == name;
    assert secret in items;
  }

  lemma {:induction false} ReadsNamesOnce(cfg: Config, s: Server, items: seq<Secret>, rs: seq<Record>)
    requires Tidy(cfg, s) && Reads(cfg, items, rs)
    requires forall i | 0 <= i < |items| :: items[i].name in s.secrets && s.secrets[items[i].name] == items[i]
    requires forall i, j | 0 <= i < j < |items| :: items[i].name != items[j].name
    ensures forall i, j | 0 <= i < j < |rs| :: rs[i].name != rs[j].name
  {
    hide RecordFromSecret;
    if items != [] {
      var last, front := items[|items| - 1], items[..|items| - 1];
      if !Wanted(cfg, last) {
        ReadsNamesOnce(cfg, s, front, rs);
      } else {
        var init := rs[..|rs| - 1];
        ReadsNamesOnce(cfg, s, front, init);
        ReadsCovers(cfg, front, init);
        forall i | 0 <= i < |init| ensures rs[i].name != rs[|rs| - 1].name {
          assert init[i] in init;
          var j :| 0 <= j < |front| && Wanted(cfg, front[j]) && RecordFromSecret(cfg, front[j]) == Some(init[i]);
          assert items[j].name != last.name;
        }
      }
    }
  }

  /** After any run of writes from an empty namespace, the list never fails and is exactly the
      map that GetAgent sees, each name once. */
  lemma ListIsTheMap(cfg: Config, ws: seq<Write>, items: seq<Secret>, result: Option<seq<Record>>)
    requires forall i | 0 <= i < |ws| :: WriteFits(cfg, ws[i])
    requires Answers(ApplyAll(cfg, Server(map[], 0), ws), items)
    requires result.Some? ==> Reads(cfg, items, result.value)
    requires result.None? <==>
      exists i :: 0 <= i < |items| && Wanted(cfg, items[i]) && RecordFromSecret(cfg, items[i]).None?
    ensures result.Some?
    ensures forall r :: r in result.value <==> Get(cfg, ApplyAll(cfg, Server(map[], 0), ws), r.name) == Some(r)
    ensures forall i, j | 0 <= i < j < |result.value| :: result.value[i].name != result.value[j].name
  {
    var s := ApplyAll(cfg, Server(map[], 0), ws);
    RunKeepsTidy(cfg, ws);
    hide RecordFromSecret; hide ApplyAll; hide Tidy; hide Wanted;
    forall i | 0 <= i < |items| && Wanted(cfg, items[i]) ensures RecordFromSecret(cfg, items[i]).Some? {
      ListedIsGot(cfg, s, items, i);
    }
    var rs := result.value;
    ReadsCovers(cfg, items, rs);
    ReadsNamesOnce(cfg, s, items, rs);
    forall r ensures r in rs <==> Get(cfg, s, r.name) == Some(r) {
      if r in rs {
        var i :| 0 <= i < |items| && Wanted(cfg, items[i]) && RecordFromSecret(cfg, items[i]) == Some(r);
        ListedIsGot(cfg, s, items, i);
      }
      if Get(cfg, s, r.name) == Some(r) {
        GotIsListed(cfg, s, items, r.name);
      }
    }
  }
}
