/** The Secret backend over an API server that other writers use at the same time: between
    any two requests of the backend the server may have moved on. */
module Backend {
  import opened Text
  import opened Records
  import opened Stores
  import opened Codec

  /** The Secrets of the namespace by name, and the revision of the last write. */
  datatype Server = Server(secrets: map<string, Secret>, revision: nat)

  /** `b` comes after `a` by writes of anybody: each write takes a revision of its own. */
  predicate Later(a: Server, b: Server) {
    && a.revision <= b.revision
    && forall k | k in b.secrets && b.secrets[k].version <= a.revision :: k in a.secrets && a.secrets[k] == b.secrets[k]
  }

  /** Versions are revisions, each given to one write, and objects are stored under their
      own name. */
  predicate Numbered(s: Server) {
    && (forall k | k in s.secrets :: 1 <= s.secrets[k].version <= s.revision && s.secrets[k].name == k)
    && forall j, k | j in s.secrets && k in s.secrets && s.secrets[j].version == s.secrets[k].version :: j == k
  }

  function Written(s: Server, secret: Secret): Server {
    Server(s.secrets[secret.name := secret.(version := s.revision + 1)], s.revision + 1)
  }

  function VersionAt(s: Server, k: string): Option<nat> {
    if k in s.secrets then Some(s.secrets[k].version) else None
  }

  /** A write to the namespace: by the backend, or of a Secret of another type. */
  datatype Write =
    | CreateW(record: Record)
    | UpdateW(record: Record)
    | DeleteW(name: string)
    | ForeignW(secret: Secret)

  function SecretOf(cfg: Config, s: Server, name: string): Option<Secret> {
    if SecretName(cfg, name) in s.secrets then Some(s.secrets[SecretName(cfg, name)]) else None
  }

  /** The server after a write; a refused write changes nothing. The server never changes
      the type of a Secret. */
  function ApplyWrite(cfg: Config, s: Server, w: Write): Server {
    match w
    case CreateW(r) =>
      var secret := SecretFromRecord(cfg, r);
      if secret.None? || SecretOf(cfg, s, r.name).Some? then s else Written(s, secret.value)
    case UpdateW(r) =>
      var secret, current := SecretFromRecord(cfg, r), SecretOf(cfg, s, r.name);
      if current.None? || (r.version != 0 && r.version != current.value.version)
         || secret.None? || current.value.kind != SECRET_TYPE then s
      else Written(s, secret.value)
    case DeleteW(name) => s.(secrets := s.secrets - {SecretName(cfg, name)})
    case ForeignW(secret) =>
      if secret.kind == SECRET_TYPE || (secret.name in s.secrets && s.secrets[secret.name].kind == SECRET_TYPE) then s
      else Written(s, secret)
  }

  lemma LaterReflexive(a: Server)
    requires Numbered(a)
    ensures Later(a, a)
  {
  }

  lemma LaterTransitive(a: Server, b: Server, c: Server)
    requires Later(a, b) && Later(b, c)
    ensures Later(a, c)
  {
  }

  /** A version that is still there at the end was never written over in between. */
  lemma VersionPinsContent(a: Server, b: Server, c: Server, k: string)
    requires Later(a, b) && Later(b, c) && Numbered(a)
    requires k in a.secrets && k in c.secrets && c.secrets[k].version == a.secrets[k].version
    ensures k in b.secrets && b.secrets[k] == a.secrets[k] && c.secrets[k] == a.secrets[k]
  {
    assert c.secrets[k].version <= a.revision <= b.revision;
  }

  /** If the version of a record that was read is the stored version of its name later on,
      then the object it was read from is still there, unchanged. */
  lemma ReadStillThere(cfg: Config, seen: Server, at: Server, name: string, r: Record)
    requires Numbered(seen) && Later(seen, at)
    requires SecretName(cfg, name) in seen.secrets
      && RecordFromSecret(cfg, seen.secrets[SecretName(cfg, name)]) == Some(r)
    requires r.version == 0 || VersionAt(at, SecretName(cfg, r.name)) == Some(r.version)
    ensures SecretName(cfg, name) == SecretName(cfg, r.name)
    ensures SecretName(cfg, name) in at.secrets
      && at.secrets[SecretName(cfg, name)] == seen.secrets[SecretName(cfg, name)]
  {
    assert r.version == seen.secrets[SecretName(cfg, name)].version;
    assert at.secrets[SecretName(cfg, r.name)] == seen.secrets[SecretName(cfg, r.name)];
  }

  /** Nobody wrote between two equal states. */
  lemma NothingBetween(a: Server, b: Server)
    requires Later(a, b) && Later(b, a) && Numbered(a) && Numbered(b)
    ensures a == b
  {
    assert a.secrets.Keys == b.secrets.Keys;
  }

  /** The Secret of that name is there and is not that of the agent. */
  predicate Unreadable(cfg: Config, s: Server, name: string) {
    && SecretName(cfg, name) in s.secrets
    && var found := RecordFromSecret(cfg, s.secrets[SecretName(cfg, name)]);
    && (found.None? || found.value.name != name)
  }

  lemma StaysWritable(cfg: Config, s: Server, name: string, r: Record, status: Status, now: int)
    requires SecretName(cfg, name) in s.secrets && (status.Revoked? || status.Deactivated?)
    requires RecordFromSecret(cfg, s.secrets[SecretName(cfg, name)]) == Some(r)
    ensures SecretFromRecord(cfg, Cleared(r, status, now)).Some?
    ensures s.secrets[SecretName(cfg, name)].kind == SECRET_TYPE
    ensures r.version == s.secrets[SecretName(cfg, name)].version
  {
    ReadIsWritable(cfg, s.secrets[SecretName(cfg, name)]);
  }

  class Backend {
    const cfg: Config
    var server: Server
    /** Writes of this backend, as opposed to those of others. */
    ghost var writes: nat
    /** Requests that failed for no reason of the server's state. */
    ghost var faults: nat

    ghost predicate Valid()
      reads this
    {
      Numbered(server)
    }

    constructor (cfg: Config, server: Server)
      requires Numbered(server)
      ensures Valid() && this.cfg == cfg && this.server == server
    {
      this.cfg, this.server, writes, faults := cfg, server, 0, 0;
    }

    /** Anybody else writes, any number of times. */
    method Others()
      requires Valid()
      modifies this`server
      ensures Valid() && Later(old(server), server)
    {
      var next: Server := *;
      if Numbered(next) && Later(server, next) {
        server := next;
      }
    }

    /** Whether the next request fails. */
    method MayFail() returns (fault: bool)
      modifies this`faults
      ensures faults == old(faults) + if fault then 1 else 0
    {
      fault := *;
      if fault {
        faults := faults + 1;
      }
    }

    /** One GET request: the Secret, or nothing when it fails or there is none. */
    method Read(k: string) returns (ok: bool, secret: Option<Secret>)
      requires Valid()
      modifies this`server, this`faults
      ensures Valid() && Later(old(server), server) && faults == old(faults) + if ok then 0 else 1
      ensures ok ==> secret == if k in server.secrets then Some(server.secrets[k]) else None
    {
      Others();
      var fault := MayFail();
      ok := !fault;
      secret := if k in server.secrets then Some(server.secrets[k]) else None;
    }

    /** One PUT request: the server refuses it unless the version is the current one. It
        also refuses to change the type of a Secret. */
    method Put(secret: Secret, version: nat) returns (ok: bool, ghost at: Server)
      requires Valid()
      modifies this
      ensures Valid() && Later(old(server), at) && Numbered(at) && faults >= old(faults)
      ensures ok <==>
        && faults == old(faults) && VersionAt(at, secret.name) == Some(version)
        && at.secrets[secret.name].kind == secret.kind
      ensures ok ==> server == Written(at, secret) && writes == old(writes) + 1
      ensures !ok ==> server == at && writes == old(writes)
    {
      Others();
      at := server;
      var fault := MayFail();
      ok := !fault;
      if secret.name !in server.secrets || server.secrets[secret.name].version != version
         || server.secrets[secret.name].kind != secret.kind {
        ok := false;
      }
      if ok {
        server := Written(server, secret);
        writes := writes + 1;
      }
    }

    /** `Fault` stands for every error that is not one of the sentinels. */
    method GetAgent(name: string) returns (r: Reply)
      requires Valid()
      modifies this`server, this`faults
      ensures Valid() && Later(old(server), server) && faults >= old(faults)
      ensures r.Fault? || (r.NotFound? && SecretName(cfg, name) !in server.secrets)
              || (r.ARecord? && SecretName(cfg, name) in server.secrets
                  && RecordFromSecret(cfg, server.secrets[SecretName(cfg, name)]) == Some(r.record))
      ensures r.Fault? <==>
        || faults > old(faults) || CanonicalName(name).None?
        || (SecretName(cfg, name) in server.secrets
            && RecordFromSecret(cfg, server.secrets[SecretName(cfg, name)]).None?)
    {
      if CanonicalName(name).None? {
        return Fault;
      }
      var ok, secret := Read(SecretName(cfg, name));
      if !ok {
        return Fault;
      }
      if secret.None? {
        return NotFound;
      }
      var record := RecordFromSecret(cfg, secret.value);
      r := if record.None? then Fault else ARecord(record.value);
    }

    /** One POST request: refused when the name is taken. */
    method CreateAgent(record: Record) returns (ok: bool, ghost at: Server)
      requires Valid()
      modifies this
      ensures Valid() && Later(old(server), at)
      ensures ok <==>
        && faults == old(faults)
        && SecretFromRecord(cfg, record).Some? && SecretName(cfg, record.name) !in at.secrets
      ensures ok ==>
        && server == Written(at, SecretFromRecord(cfg, record).value) && writes == old(writes) + 1
        && server == ApplyWrite(cfg, at, CreateW(record))
      ensures faults == old(faults) ==> server == ApplyWrite(cfg, at, CreateW(record))
      ensures !ok ==> server == at && writes == old(writes)
      ensures faults >= old(faults)
    {
      Others();
      at := server;
      var secret := SecretFromRecord(cfg, record);
      if secret.None? {
        return false, at;
      }
      var fault := MayFail();
      ok := !fault;
      if secret.value.name in server.secrets {
        ok := false;
      }
      if ok {
        server := Written(server, secret.value);
        writes := writes + 1;
      }
    }

    /** Get, compare, update with the fetched version. Despite the writers in between this is
        one compare-and-set, decided at the moment `at`: the same answer the lifecycle
        operations rely on. An error means this call wrote nothing. The object was read at the
        moment `seen`; no writer in between and no fault means that an acceptable record with
        the version it saw, or none, is stored. */
    method UpdateAgent(record: Record) returns (r: Reply, ghost seen: Server, ghost at: Server)
      requires Valid()
      modifies this
      ensures Valid() && Later(old(server), seen) && Later(seen, at) && Later(old(server), at) && Numbered(at)
      ensures Numbered(seen) && faults >= old(faults)
      ensures r.Stored? ==>
        && SecretFromRecord(cfg, record).Some? && r.version == at.revision + 1
        && server == Written(at, SecretFromRecord(cfg, record).value) && writes == old(writes) + 1
        && server == ApplyWrite(cfg, at, UpdateW(record))
      ensures !r.Stored? ==> Later(at, server) && writes == old(writes)
      ensures r.Fault? || r.Refused? || CanonicalName(record.name).Some?
      ensures CanonicalName(record.name).Some? && !r.Fault? ==>
        UpdateAnswer(VersionAt(at, SecretName(cfg, record.name)), record, ChecksOf(cfg), at.revision, r)
      ensures !r.Stored? && !r.Fault? ==> ApplyWrite(cfg, at, UpdateW(record)) == at
      ensures r.Stored? <==>
        && faults == old(faults) && SecretFromRecord(cfg, record).Some?
        && var k := SecretName(cfg, record.name);
        && k in seen.secrets && seen.secrets[k].kind == SECRET_TYPE
        && (record.version == 0 || record.version == seen.secrets[k].version)
        && VersionAt(at, k) == VersionAt(seen, k)
    {
      at, seen := server, server;
      if CanonicalName(record.name).None? {
        return Refused, seen, at;
      }
      var ok, current := Read(SecretName(cfg, record.name));
      at, seen := server, server;
      if !ok {
        return Fault, seen, at;
      }
      if current.None? {
        return NotFound, seen, at;
      }
      if record.version != 0 && current.value.version != record.version {
        return Conflict, seen, at;
      }
      var updated := SecretFromRecord(cfg, record);
      if updated.None? {
        return Refused, seen, at;
      }
      var put;
      put, at := Put(updated.value, current.value.version);
      r := if put then Stored(server.revision) else Fault;
    }

    method DeleteAgent(name: string) returns (ok: bool, ghost at: Server)
      requires Valid()
      modifies this
      ensures Valid() && Later(old(server), at) && faults >= old(faults)
      ensures ok <==> faults == old(faults) && SecretName(cfg, name) in at.secrets && CanonicalName(name).Some?
      ensures server == if ok then at.(secrets := at.secrets - {SecretName(cfg, name)}) else at
      ensures ok || (faults == old(faults) && CanonicalName(name).Some?) ==>
        server == ApplyWrite(cfg, at, DeleteW(name))
      ensures writes == old(writes) + if ok then 1 else 0
    {
      Others();
      at := server;
      if CanonicalName(name).None? {
        return false, at;
      }
      var fault := MayFail();
      ok := !fault;
      if SecretName(cfg, name) !in server.secrets {
        ok := false;
      }
      if ok {
        server := server.(secrets := server.secrets - {SecretName(cfg, name)});
        writes := writes + 1;
      }
    }

    /** At most three rounds of reading the record and writing it back without its token.
        Only a conflict leads to another round, so it is the answer only after the third. */
    method ClearTokenMaterial(name: string, status: Status)
      returns (ok: bool, tries: nat, ghost at: Server, last: Reply)
      requires Valid() && CanonicalName(name) == Some(name)
      modifies this
      ensures Valid() && tries <= 3 && Later(old(server), at)
      ensures !ok ==> writes == old(writes) && last.Failed() && (last.Conflict? ==> tries == 3)
      ensures ok && writes == old(writes) ==> SecretName(cfg, name) !in at.secrets && server == at
      ensures ok && writes != old(writes) ==> WroteCleared(cfg, at, server, name, status)
      ensures !ok && faults == old(faults) && at == old(server) && (status.Revoked? || status.Deactivated?) ==>
        Unreadable(cfg, at, name)
    {
      hide RecordFromSecret; hide SecretFromRecord; hide CanonicalName; hide Acceptable; hide Numbered; hide Later;
      tries, last := 0, Conflict;
      at := server;
      ghost var start := server;
      LaterReflexive(start);
      while tries < 3
        invariant Valid() && tries <= 3 && writes == old(writes) && last.Conflict?
        invariant Later(old(server), server) && Later(old(server), at) && faults >= old(faults)
        invariant tries > 0 && faults == old(faults) && (status.Revoked? || status.Deactivated?) && at == start ==>
          Unreadable(cfg, at, name)
      {
        ghost var before := server;
        tries := tries + 1;
        var got := GetAgent(name);
        last := got;
        at := server;
        LaterTransitive(start, before, at);
        if got.NotFound? {
          return true, tries, at, last;
        }
        if !got.ARecord? {
          return false, tries, at, last;
        }
        ghost var seen := server;
        var now: int := *;
        var put;
        ghost var found;
        put, found, at := UpdateAgent(Cleared(got.record, status, now));
        last := put;
        LaterTransitive(start, seen, at);
        if at == start && (status.Revoked? || status.Deactivated?) {
          NothingBetween(start, seen);
          StaysWritable(cfg, seen, name, got.record, status, now);
        }
        if put.Stored? {
          ReadStillThere(cfg, seen, at, name, got.record);
          return true, tries, at, last;
        }
        LaterTransitive(start, at, server);
        if !put.Conflict? {
          return false, tries, at, last;
        }
      }
      ok := false;
    }
  }

  /** The write that led from `at` to `after` replaced the record found at `at` itself by the
      same record without its token. */
  ghost predicate WroteCleared(cfg: Config, at: Server, after: Server, name: string, status: Status) {
    && SecretName(cfg, name) in at.secrets
    && RecordFromSecret(cfg, at.secrets[SecretName(cfg, name)]).Some?
    && exists now ::
         var found := RecordFromSecret(cfg, at.secrets[SecretName(cfg, name)]).value;
         var cleared := Cleared(found, status, now);
         SecretFromRecord(cfg, cleared).Some? && after == Written(at, SecretFromRecord(cfg, cleared).value)
  }
}
