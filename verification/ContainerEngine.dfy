/** What the container engine holds and what its calls do to it. */
module ContainerEngine {
  import opened Wrappers

  /** An engine's container id; the first twelve characters are used in temporary names. */
  type Id = s: string | |s| >= 12 witness "000000000000"

  datatype RunState = Created | Running | Restarting | Exited

  /** `number` is what Atoi makes of the container-number label. */
  datatype Container = Container(name: string, project: string, service: string, number: Option<int>, hash: string, state: RunState)

  type Engine = map<Id, Container>

  /** A container as an earlier listing showed it. */
  datatype Snapshot = Snapshot(id: Id, info: Container)

  predicate NameUsed(e: Engine, name: string) {
    exists id :: id in e && e[id].name == name
  }

  /** Connecting a container to its networks is one call, refused if the engine refuses one of them. */
  datatype Call =
    | StopCall(id: Id)
    | RenameCall(id: Id, name: string)
    | CreateCall(id: Id, container: Container)
    | ConnectCall(id: Id)
    | RemoveCall(id: Id)
    | StartCall(id: Id)

  /** When the engine can carry out a call; it may refuse any call, but these it has to refuse. */
  predicate Possible(e: Engine, call: Call) {
    match call
    case StopCall(id) => id in e
    case RenameCall(id, name) => id in e && !NameUsed(e, name)
    case CreateCall(id, container) => id !in e && !NameUsed(e, container.name)
    case ConnectCall(_) => true
    case RemoveCall(id) => id in e && e[id].state != Running && e[id].state != Restarting
    case StartCall(id) => id in e
  }

  /** The engine after a call it carried out. */
  function Perform(e: Engine, call: Call): (e': Engine) {
    match call
    case StopCall(id) =>
      if id in e && e[id].state != Created then e[id := e[id].(state := Exited)] else e
    case RenameCall(id, name) =>
      if id in e then e[id := e[id].(name := name)] else e
    case CreateCall(id, container) => e[id := container]
    case ConnectCall(_) => e
    case RemoveCall(id) => e - {id}
    case StartCall(id) =>
      if id in e then e[id := e[id].(state := Running)] else e
  }

  function Belongs(c: Container, project: string, service: string): bool {
    c.project == project && c.service == service
  }

  /** The ids of a service's containers. */
  function ServiceIds(e: Engine, project: string, service: string): set<Id> {
    set id | id in e && Belongs(e[id], project, service)
  }
}
