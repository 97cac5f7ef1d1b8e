/** The local deployment records (deploy/state.go) and the providers (deploy/deploy.go). */
module Records {
  datatype Provider = Unset | Ssh | K8s | Managed(name: string) {
    predicate CreatesInfrastructure() { Managed? }
    predicate UsesGivenHost() { !CreatesInfrastructure() }
  }

  datatype Engine = NoEngine | MySQL | Postgres

  /** LastCompletedStep. `Unrecorded` stands for "" and for a value this binary does not know. */
  datatype Checkpoint =
    | Unrecorded | PendingRecorded | InstanceCreated | BoxRecorded | AgentPaired | Released | Finalized

  function StepRank(c: Checkpoint): nat {
    match c
    case Unrecorded => 0
    case PendingRecorded => 1
    case InstanceCreated => 2
    case BoxRecorded => 3
    case AgentPaired => 4
    case Released => 5
    case Finalized => 6
  }

  datatype Deployment = Deployment(
    id: string,
    provider: Provider,
    instanceId: string,
    resourceName: string,
    provisioning: bool,
    host: string,
    identifier: string,
    project: string,
    agent: string,
    conn: string,
    teamConn: string,
    engine: Engine,
    externalDB: bool,
    createdAt: int,
    step: Checkpoint,
    lastError: string)

  type Store = map<string, Deployment>

  /** The record MutateDeployment starts from when no file exists yet. */
  const EMPTY_RECORD: Deployment :=
    Deployment("", Unset, "", "", false, "", "", "", "", "", "", NoEngine, false, 0, Unrecorded, "")

  function Load(store: Store, id: string): Deployment {
    if id in store then store[id] else EMPTY_RECORD
  }

  /** One MutateDeployment: the record under `id` becomes `rec`, whose id is the file name. */
  function Put(store: Store, id: string, rec: Deployment): Store {
    store[id := rec.(id := id)]
  }

  function FirstNonEmpty(a: string, b: string): string {
    if a != "" then a else b
  }
}
