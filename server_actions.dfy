/**
 * `ServerActions` (servers/actions/actions.ts).  The two list methods and
 * the two lookups are modelled as in every other resource; the many
 * commands share one template, `/servers/{serverId}/actions/{name}` with
 * `method: "POST"`, and differ only in the name and the body, so they are
 * one `Command` datatype with a constructor per method.
 */
module ServerActions {
  import opened Wrappers
  import opened JsValue
  import Base
  import Endpoint
  import Calls
  import QueryPairs
  import QueryBuilder
  import Decimal

  /**
   * `getAll`: GET on `/servers/actions`, followed by `?` and the query only
   * when it is not empty; array values are expanded into repeated keys.
   */
  method GetAll(params: Option<seq<QueryPairs.Entry>>) returns (r: Result<Calls.Call, Thrown>)
    ensures r == Calls.List(["servers", "actions"], QueryPairs.Pairs(QueryPairs.Expanding, QueryPairs.EntriesOf(params)))
  {
    var pairs := QueryBuilder.Build(QueryPairs.Expanding, params);
    r := Calls.List(["servers", "actions"], pairs);
  }

  /** `get`: GET on `/servers/actions/{id}`. */
  function Get(id: int): (c: Calls.Call)
    ensures Endpoint.Parse(c.endpoint) == Endpoint.Target(["servers", "actions", Calls.Id(id)], None)
    ensures c.init == Base.NoOptions
  {
    Calls.Get(["servers", "actions", Calls.Id(id)])
  }

  /**
   * `getAllByServer`: GET on `/servers/{serverId}/actions`, `?` only before a
   * non-empty query; one pair per defined key, arrays comma-joined.
   */
  method GetAllByServer(serverId: int, params: Option<seq<QueryPairs.Entry>>) returns (r: Result<Calls.Call, Thrown>)
    ensures r == Calls.List(["servers", Calls.Id(serverId), "actions"], QueryPairs.Pairs(QueryPairs.OnePerKey, QueryPairs.EntriesOf(params)))
  {
    var pairs := QueryBuilder.Build(QueryPairs.OnePerKey, params);
    r := Calls.List(["servers", Calls.Id(serverId), "actions"], pairs);
  }

  /**
   * One constructor per command method, holding the arguments after the
   * server id.  Arguments the method declares optional or nullable are
   * `Value`s, so that `undefined` and `null` can be passed.
   */
  datatype Command =
    | AddToPlacementGroup(placementGroupId: int)                 // addServerToPlacementGroup
    | AttachIso(iso: string)                                      // attachIsoToServer
    | AttachToNetwork(networkId: int, ip: Value, aliasIps: Value) // attachServerToNetwork
    | ChangeAliasIps(networkId: int, aliasIps: Value)             // changeAliasIpOfNetwork
    | ChangeReverseDns(address: string, dnsPtr: Value)            // changeReverseDnsEntryForServer
    | ChangeProtection(protect: Value, rebuild: Value)            // changeServerProtection
    | ChangeType(serverType: string, upgradeDisk: bool)           // changeServerType
    | CreateImage(imageType: Value, description: Value, labels: Value) // createImageFromServer
    | DetachFromNetwork(networkId: int)                           // detachServerFromNetwork
    | DetachIso                                                   // detachIsoFromServer
    | DisableBackups                                              // disableBackupsForServer
    | DisableRescue                                               // disableRescueModeForServer
    | EnableBackups                                               // enableBackupsForServer
    | EnableRescue(rescueType: Value, sshKeys: Value)             // enableRescueModeForServer
    | PowerOff                                                    // powerOff
    | PowerOn                                                     // powerOn
    | Reboot                                                      // softReboot
    | Rebuild(image: string)                                      // rebuildFromImage
    | RemoveFromPlacementGroup                                    // removeFromPlacementGroup
    | RequestConsole                                              // requestConsoleForServer
    | Reset                                                       // resetServer
    | ResetPassword                                               // resetServerPassword
    | Shutdown                                                    // shutdownServer

  /** A command name: a plain segment that starts with a lowercase letter. */
  type CommandName = s: string | Endpoint.Plain(s) && |s| > 0 && 'a' <= s[0] <= 'z' witness "a"

  const AddToPlacementGroupName: CommandName := "add_to_placement_group"
  const AttachIsoName: CommandName := "attach_iso"
  const AttachToNetworkName: CommandName := "attach_to_network"
  const ChangeAliasIpsName: CommandName := "change_alias_ips"
  const ChangeReverseDnsName: CommandName := "change_reverse_dns"
  const ChangeProtectionName: CommandName := "change_protection"
  const ChangeTypeName: CommandName := "change_type"
  const CreateImageName: CommandName := "create_image"
  const DetachFromNetworkName: CommandName := "detach_from_network"
  const DetachIsoName: CommandName := "detach_iso"
  const DisableBackupsName: CommandName := "disable_backups"
  const DisableRescueName: CommandName := "disable_rescue"
  const EnableBackupsName: CommandName := "enable_backups"
  const EnableRescueName: CommandName := "enable_rescue"
  const PowerOffName: CommandName := "poweroff"
  const PowerOnName: CommandName := "poweron"
  const RebootName: CommandName := "reboot"
  const RebuildName: CommandName := "rebuild"
  const RemoveFromPlacementGroupName: CommandName := "remove_from_placement_group"
  const RequestConsoleName: CommandName := "request_console"
  const ResetName: CommandName := "reset"
  const ResetPasswordName: CommandName := "reset_password"
  const ShutdownName: CommandName := "shutdown"

  /** The last segment of the command's endpoint. */
  function Name(cmd: Command): CommandName {
    match cmd
    case AddToPlacementGroup(_) => AddToPlacementGroupName
    case AttachIso(_) => AttachIsoName
    case AttachToNetwork(_, _, _) => AttachToNetworkName
    case ChangeAliasIps(_, _) => ChangeAliasIpsName
    case ChangeReverseDns(_, _) => ChangeReverseDnsName
    case ChangeProtection(_, _) => ChangeProtectionName
    case ChangeType(_, _) => ChangeTypeName
    case CreateImage(_, _, _) => CreateImageName
    case DetachFromNetwork(_) => DetachFromNetworkName
    case DetachIso => DetachIsoName
    case DisableBackups => DisableBackupsName
    case DisableRescue => DisableRescueName
    case EnableBackups => EnableBackupsName
    case EnableRescue(_, _) => EnableRescueName
    case PowerOff => PowerOffName
    case PowerOn => PowerOnName
    case Reboot => RebootName
    case Rebuild(_) => RebuildName
    case RemoveFromPlacementGroup => RemoveFromPlacementGroupName
    case RequestConsole => RequestConsoleName
    case Reset => ResetName
    case ResetPassword => ResetPasswordName
    case Shutdown => ShutdownName
  }

  /**
   * The object handed to `JSON.stringify`, in the order the method writes
   * its fields; `None` for the commands that send only `method: "POST"`.
   */
  function Body(cmd: Command): (body: Option<Value>)
    ensures body.None? <==>
      cmd.DetachIso? || cmd.DisableBackups? || cmd.DisableRescue? || cmd.EnableBackups? || cmd.EnableRescue? ||
      cmd.PowerOff? || cmd.PowerOn? || cmd.Reboot? || cmd.RemoveFromPlacementGroup? || cmd.RequestConsole? ||
      cmd.Reset? || cmd.ResetPassword? || cmd.Shutdown?
  {
    match cmd
    case AddToPlacementGroup(g) => Some(Obj([("placement_group", Int(g))]))
    case AttachIso(iso) => Some(Obj([("iso", Str(iso))]))
    case AttachToNetwork(n, ip, aliasIps) => Some(Obj([("network", Int(n)), ("ip", ip), ("alias_ips", aliasIps)]))
    case ChangeAliasIps(n, aliasIps) => Some(Obj([("network", Int(n)), ("alias_ips", aliasIps)]))
    case ChangeReverseDns(ip, dnsPtr) => Some(Obj([("ip", Str(ip)), ("dns_ptr", dnsPtr)]))
    case ChangeProtection(protect, rebuild) => Some(Obj([("protect", protect), ("rebuild", rebuild)]))
    case ChangeType(t, upgrade) => Some(Obj([("type", Str(t)), ("upgrade_disk", Bool(upgrade))]))
    case CreateImage(t, description, labels) => Some(Obj([("type", t), ("description", description), ("labels", labels)]))
    case DetachFromNetwork(n) => Some(Obj([("network", Int(n))]))
    case Rebuild(image) => Some(Obj([("image", Str(image))]))
    case _ => None
  }

  /** A command method: POST to `/servers/{serverId}/actions/{Name(cmd)}` with `Body(cmd)`. */
  function Post(serverId: int, cmd: Command): (c: Calls.Call)
    ensures Endpoint.Parse(c.endpoint) == Endpoint.Target(["servers", Calls.Id(serverId), "actions", Name(cmd)], None)
    ensures c.init == Base.RequestInit(Some("POST"), None, Body(cmd))
  {
    Calls.Post(["servers", Calls.Id(serverId), "actions", Name(cmd)], Body(cmd))
  }

  /** `getActionForServer`: GET on `/servers/{serverId}/actions/{actionId}`. */
  function GetActionForServer(serverId: int, actionId: int): (c: Calls.Call)
    ensures Endpoint.Parse(c.endpoint) == Endpoint.Target(["servers", Calls.Id(serverId), "actions", Calls.Id(actionId)], None)
    ensures c.init == Base.NoOptions
  {
    Calls.Get(["servers", Calls.Id(serverId), "actions", Calls.Id(actionId)])
  }

  /**
   * A command endpoint is never the endpoint of an action lookup: command
   * names start with a letter, numbers with a digit or `-`.
   */
  lemma CommandIsNotActionLookup(serverId: int, cmd: Command, otherServerId: int, actionId: int)
    ensures Post(serverId, cmd).endpoint != GetActionForServer(otherServerId, actionId).endpoint
  {
    var name, id := Name(cmd), Calls.Id(actionId);
    assert name[0] != id[0] by {
      assert 'a' <= name[0] <= 'z';
      assert id[0] == '-' || Decimal.IsDigit(id[0]);
    }
    var e1, e2 := Post(serverId, cmd).endpoint, GetActionForServer(otherServerId, actionId).endpoint;
    assert Endpoint.Parse(e1).segments[3] != Endpoint.Parse(e2).segments[3];
  }

  /** Two commands share an endpoint exactly when they go to the same server under the same name. */
  lemma CommandEndpoints(serverId: int, cmd: Command, otherServerId: int, other: Command)
    ensures Post(serverId, cmd).endpoint == Post(otherServerId, other).endpoint <==>
      serverId == otherServerId && Name(cmd) == Name(other)
  {
    var e1, e2 := Post(serverId, cmd).endpoint, Post(otherServerId, other).endpoint;
    if e1 == e2 {
      var a := Endpoint.Parse(e1).segments;
      assert Calls.Id(serverId) == a[1] == Calls.Id(otherServerId);
      Decimal.DecimalInjective(serverId, otherServerId);
    }
  }

  /** `enableRescueModeForServer` ignores `type` and `sshKeys` and sends no body. */
  lemma EnableRescueIgnoresArguments(serverId: int, rescueType: Value, sshKeys: Value, otherType: Value, otherKeys: Value)
    ensures Post(serverId, EnableRescue(rescueType, sshKeys)) == Post(serverId, EnableRescue(otherType, otherKeys))
    ensures Post(serverId, EnableRescue(rescueType, sshKeys)).init.body == None
  {
  }
}
