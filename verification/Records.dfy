/** The records that travel from Neutron to the agents: ports and the other
    Neutron objects an update action reads, and the key/value entries it sends. */
module Records {

  datatype Option<+T> = None | Some(value: T)

  type Id = string

  /** A Neutron port. `providerIp` and `mgntIp` are the two optional fields of its
      binding profile; `info` stands for the fields that are only copied. */
  datatype Port = Port(id: Id, network: Id, owner: string, deviceId: Id, host: string,
                       providerIp: Option<string>, mgntIp: Option<string>,
                       sgs: seq<Id>, info: string)

  datatype Router = Router(id: Id, distributed: bool, adminUp: bool, info: string)

  datatype Secgroup = Secgroup(id: Id, info: string)

  /** The records stored by an agent, one constructor per table. */
  datatype Lport = Lport(id: Id, lswitch: Id, chassis: string, owner: string, deviceId: Id,
                         providerIp: Option<string>, mgntIp: Option<string>,
                         sgs: seq<Id>, info: string)

  datatype Lswitch = Lswitch(id: Id, info: string)

  datatype Chassis = Chassis(id: string, ip: string, tunnelType: string)

  datatype LrouterPort = LrouterPort(id: Id, lswitch: Id, info: string)

  datatype Lrouter = Lrouter(id: Id, info: string, ports: seq<LrouterPort>)

  datatype Value =
    | LportValue(lport: Lport)
    | SecgroupValue(secgroup: Secgroup)
    | LswitchValue(lswitch: Lswitch)
    | ChassisValue(chassis: Chassis)
    | LrouterValue(lrouter: Lrouter)

  /** Table names. `Named` covers every name the server does not use itself. */
  datatype Table = LportTable | SecgroupTable | LswitchTable | ChassisTable | LrouterTable | Named(name: string)

  datatype Loc = Loc(table: Table, key: Id)

  datatype Entry = Entry(table: Table, key: Id, value: Value) {
    function At(): Loc { Loc(table, key) }
  }

  ghost predicate NoDup<T>(s: seq<T>) {
    forall i, j :: 0 <= i < j < |s| ==> s[i] != s[j]
  }
}
