/** The agent record and the checks every stored record passes. */
module Records {
  import opened Text

  datatype Status = Active | Revoked | Deactivated | Other(text: string)

  /** Version 0 stands for the empty resource version. */
  datatype Record = Record(
    name: string, displayName: string, avatarUrl: string, userId: string,
    sessionId: string, token: string, version: nat, generation: int, status: Status,
    createdAt: int, updatedAt: int)

  /** The two string checks the backend applies; the saga only passes them on. */
  datatype Checks = Checks(name: string -> bool, avatar: string -> bool)

  /** Whether the Secret backend agrees to store the record. */
  predicate Acceptable(r: Record, checks: Checks) {
    && checks.name(r.name)
    && 1 <= |r.displayName| <= 256
    && r.userId != ""
    && checks.avatar(r.avatarUrl)
    && r.generation >= 1
    && !r.status.Other?
    && (r.status.Active? ==> r.sessionId != "" && r.token != "")
    && (!r.status.Active? ==> r.sessionId == "" && r.token == "")
  }

  /** The record after its token material is dropped. */
  function Cleared(r: Record, status: Status, at: int): Record {
    r.(sessionId := "", token := "", status := status, updatedAt := at)
  }

  /** Equality up to the resource version, which only the store chooses. */
  predicate SameButVersion(a: Record, b: Record) {
    a == b.(version := a.version)
  }

  /** The stored record is `r` without token material, at some time and version. */
  predicate IsCleared(stored: Record, r: Record, status: Status) {
    SameButVersion(stored, Cleared(r, status, stored.updatedAt))
  }

  /** Issue times of tokens, once known, stay. */
  predicate TokensKept(tokens: map<string, int>, later: map<string, int>) {
    forall t | t in tokens :: t in later && later[t] == tokens[t]
  }

  function Find(records: map<string, Record>, name: string): Option<Record> {
    if name in records then Some(records[name]) else None
  }
}
