/** The status values and the four transition graphs of
    backend/internal/constants/status.go. */
module Statuses {

  /** Every status the program names; `Unlisted` stands for any other text a client may send. */
  datatype Status =
    | Received | Inspection | Hold | Released | Retired
    | Planned | Running | Passed | Failed
    | Draft | Valid | Expired
    | Review | Approved | Restricted | Revoked
    | Unlisted(text: string)

  type Graph = map<Status, set<Status>>

  const AIRCRAFT_PART_TRANSITIONS: Graph := map[
    Received := {Inspection, Hold},
    Inspection := {Hold, Released, Received},
    Hold := {Released, Retired, Inspection},
    Released := {Retired, Hold},
    Retired := {Released}]

  const INSPECTION_TASK_TRANSITIONS: Graph := map[
    Planned := {Running},
    Running := {Passed, Failed},
    Passed := {},
    Failed := {Running}]

  const CERTIFICATE_RECORD_TRANSITIONS: Graph := map[
    Draft := {Valid},
    Valid := {Expired, Revoked},
    Expired := {Revoked},
    Revoked := {}]

  const RELEASE_AUTHORIZATION_TRANSITIONS: Graph := map[
    Draft := {Review},
    Review := {Approved, Restricted, Draft},
    Approved := {Restricted, Revoked},
    Restricted := {Revoked},
    Revoked := {}]

  predicate CanTransition(graph: Graph, from: Status, to: Status) {
    from in graph && to in graph[from]
  }
}
