/** How an agent record is written into a Kubernetes Secret and read back. */
module Codec {
  import opened Text
  import opened Records

  const PART_OF_LABEL := "app.kubernetes.io/part-of"
  const PART_OF := "matrix-agent-manager"
  const AGENT_LABEL := "matrix-agent-manager.io/agent"
  const STATUS_LABEL := "matrix-agent-manager.io/status"
  const SECRET_TYPE := "matrix-agent-manager.io/agent"

  datatype Secret = Secret(
    name: string, labels: map<string, string>, kind: string, data: map<string, string>, version: nat)

  /** The backend's prefix, its avatar check, and the RFC 3339 time format, which is not
      modelled further: `format` and `parse` are the two directions. */
  datatype Config = Config(
    prefix: string, avatarOk: string -> bool, format: int -> string, parse: string -> Option<int>)

  function ChecksOf(cfg: Config): Checks {
    Checks(n => CanonicalName(n).Some?, cfg.avatarOk)
  }

  function SecretName(cfg: Config, agent: string): string {
    cfg.prefix + "-" + agent
  }

  function StatusText(s: Status): string {
    match s
    case Active => "active"
    case Revoked => "revoked"
    case Deactivated => "deactivated"
    case Other(text) => text
  }

  function StatusOf(text: string): Status {
    if text == "active" then Active
    else if text == "revoked" then Revoked
    else if text == "deactivated" then Deactivated
    else Other(text)
  }

  function RecordData(cfg: Config, r: Record): map<string, string>
    requires r.generation >= 0
  {
    var data := map[
      "agent-name" := r.name, "display-name" := r.displayName, "avatar-url" := r.avatarUrl,
      "mas-user-id" := r.userId, "session-id" := r.sessionId, "generation" := Itoa(r.generation),
      "status" := StatusText(r.status), "created-at" := cfg.format(r.createdAt),
        "updated-at" := cfg.format(r.updatedAt)];
    if r.token != "" then data["access-token" := r.token] else data
  }

  function SecretFromRecord(cfg: Config, r: Record): Option<Secret> {
    if !Acceptable(r, ChecksOf(cfg)) then None
    else Some(Secret(
      SecretName(cfg, r.name),
      map[PART_OF_LABEL := PART_OF, AGENT_LABEL := r.name, STATUS_LABEL := StatusText(r.status)],
      SECRET_TYPE, RecordData(cfg, r), 0))
  }

  function RecordFromSecret(cfg: Config, s: Secret): Option<Record> {
    var d := s.data;
    var name := At(d, "agent-name");
    if At(s.labels, PART_OF_LABEL) != PART_OF || At(s.labels, AGENT_LABEL) == "" then None
    else if s.kind != SECRET_TYPE then None
    else if name == "" || At(s.labels, AGENT_LABEL) != name then None
    else if CanonicalName(name).None? then None
    else if At(d, "mas-user-id") == "" || At(d, "display-name") == "" then None
    else if !cfg.avatarOk(At(d, "avatar-url")) then None
    else if |At(d, "display-name")| > 256 then None
    else
      var generation := Atoi(At(d, "generation"));
      if generation.None? || generation.value < 1 then None else
      var created := cfg.parse(At(d, "created-at"));
      if created.None? then None else
      var updated := cfg.parse(At(d, "updated-at"));
      if updated.None? then None else
      var status := StatusOf(At(d, "status"));
      if status.Other? then None
      else if status.Active? && (At(d, "session-id") == "" || At(d, "access-token") == "") then None
      else if !status.Active? && (At(d, "session-id") != "" || At(d, "access-token") != "") then None
      else Some(Record(
        name, At(d, "display-name"), At(d, "avatar-url"), At(d, "mas-user-id"), At(d, "session-id"),
        At(d, "access-token"), s.version, generation.value, status, created.value, updated.value))
  }

  /** The time survives its text form: true of UTC times in the years 0 to 9999. */
  predicate TimeKept(cfg: Config, t: int) {
    cfg.parse(cfg.format(t)) == Some(t)
  }

  lemma DataReadsBack(cfg: Config, r: Record)
    requires r.generation >= 0
    ensures var d := RecordData(cfg, r);
      && At(d, "agent-name") == r.name && At(d, "display-name") == r.displayName && At(d, "avatar-url") == r.avatarUrl
      && At(d, "mas-user-id") == r.userId && At(d, "session-id") == r.sessionId && At(d, "access-token") == r.token
      && At(d, "generation") == Itoa(r.generation) && At(d, "status") == StatusText(r.status)
      && At(d, "created-at") == cfg.format(r.createdAt) && At(d, "updated-at") == cfg.format(r.updatedAt)
  {
  }

  /** Every stored record reads back as itself, with the version the server gave it. */
  lemma RecordRoundTrip(cfg: Config, r: Record, version: nat)
    requires SecretFromRecord(cfg, r).Some? && r.generation <= MAX_INT
    requires TimeKept(cfg, r.createdAt) && TimeKept(cfg, r.updatedAt)
    ensures RecordFromSecret(cfg, SecretFromRecord(cfg, r).value.(version := version)) == Some(r.(version := version))
  {
    DataReadsBack(cfg, r);
    AtoiOfItoa(r.generation);
    var s := SecretFromRecord(cfg, r).value;
    assert At(s.labels, PART_OF_LABEL) == PART_OF && At(s.labels, AGENT_LABEL) == r.name;
    assert r.name != "";
    assert StatusOf(StatusText(r.status)) == r.status;
  }

  /** Every record the backend reads is one it would store. */
  lemma ReadIsWritable(cfg: Config, s: Secret)
    requires RecordFromSecret(cfg, s).Some?
    ensures SecretFromRecord(cfg, RecordFromSecret(cfg, s).value).Some?
    ensures RecordFromSecret(cfg, s).value.name == At(s.labels, AGENT_LABEL)
  {
  }
}
