/** The DigitalOcean droplet reconciler: Actual, Expected, Apply, Delete, Render and Tag
    for one compute-instance resource (cloud/digitalocean/resources/droplet.go).
    Every call into the cloud provider and into helpers whose code is not part of this
    model is an input: a listing by tag is a value of type `Listing`, the rest are the
    functions of `Collaborators`. */
module Droplets {
  import opened Results
  import opened ClusterModel

  /** Polls made while waiting for the master's address, and the pause between them. */
  const MasterIpAttempts: nat := 40
  const MasterIpSleepSecondsPerAttempt: nat := 3

  /** Reserved keys Apply writes into the cluster's substitution map. */
  const InjectedMaster: string := "INJECTEDMASTER"
  const InjectedName: string := "INJECTEDNAME"
  const InjectedPort: string := "INJECTEDPORT"

  lemma ReservedKeysDistinct()
    ensures InjectedMaster != InjectedName && InjectedMaster != InjectedPort && InjectedName != InjectedPort
  {
    assert InjectedName[8] != InjectedMaster[8];
    assert InjectedPort[8] != InjectedName[8];
    assert |InjectedPort| != |InjectedMaster|;
  }

  /** The errors Apply, Actual and Delete return. */
  datatype Error =
    | Provider(msg: string)                     // an error of a collaborator, passed on verbatim
    | DropletCount(found: nat, name: string)    // "Found [%d] Droplets for Name [%s]"
    | NoMasterTag                               // "Unable to find master tag for master IP"
    | AmbiguousMaster(found: nat, tag: string)  // "Found [%d] droplets for tag [%s]"
    | NoPrivateIp                               // "Unable to detect private IP: ..."
    | NoPublicIp                                // "Unable to detect public IP: ..."
    | MasterIpNotFound                          // "Unable to find Master IP after defined wait"
    | BadSshIdentifier(identifier: string)      // strconv.Atoi refused the SSH key identifier
    | MissingName(name: string)                 // "Unable to delete droplet resource without Name [%s]"

  /** The state a droplet resource reports: what Actual, Expected and Apply return. */
  datatype DropletState = DropletState(
    name: string,
    cloudId: string,
    region: string,
    size: string,
    image: string,
    count: int,
    sshFingerprint: string)

  /** A droplet as the provider lists it. The ID is kept in its decimal text form. An
      address is the outcome of the provider's accessor for it: None when the accessor
      returns an error, Some("") when it succeeds without an address of that kind. */
  datatype ProviderDroplet = ProviderDroplet(
    id: string,
    name: string,
    region: string,
    size: string,
    image: string,
    privateIp: Option<string>,
    publicIp: Option<string>)

  /** The outcome of one `ListByTag` query. */
  type Listing = Result<seq<ProviderDroplet>, Error>

  /** The droplet create request Apply sends to the provider. */
  datatype CreateRequest = CreateRequest(
    name: string,
    region: string,
    size: string,
    image: string,
    tags: seq<string>,
    privateNetworking: bool,
    sshKeyId: int,
    sshFingerprint: string,
    userData: string)

  /** What Apply needs from outside: the state comparator (`compare.IsEqual`), the
      bootstrap asset store, the injector, `strconv.Atoi`, the provider's create call,
      and the answers to the successive master-discovery polls. */
  datatype Collaborators = Collaborators(
    compare: (DropletState, DropletState) -> Result<bool, Error>,
    asset: string -> Result<string, Error>,
    inject: (string, map<string, string>) -> Result<string, Error>,
    atoi: string -> Option<int>,
    create: CreateRequest -> Result<ProviderDroplet, Error>,
    masterPolls: seq<Listing>)

  /** The master's addresses, once discovered. */
  datatype MasterAddress = MasterAddress(privateIp: string, publicIp: string)

  // ---------------------------------------------------------------------------------
  // Master discovery

  /** The tag of the master pool: the name of the LAST pool of type Master, or "" when
      there is none. */
  function LastMasterName(pools: seq<ServerPool>): string
  {
    if pools == [] then ""
    else if pools[|pools| - 1].poolType == Master then pools[|pools| - 1].name
    else LastMasterName(pools[..|pools| - 1])
  }

  lemma {:induction false} LastMasterNameIsLastMaster(pools: seq<ServerPool>, k: nat)
    requires k < |pools| && pools[k].poolType == Master
    requires forall j :: k < j < |pools| ==> pools[j].poolType != Master
    ensures LastMasterName(pools) == pools[k].name
    decreases |pools|
  {
    if k < |pools| - 1 {
      LastMasterNameIsLastMaster(pools[..|pools| - 1], k);
    }
  }

  lemma {:induction false} LastMasterNameWithoutMaster(pools: seq<ServerPool>)
    requires forall j :: 0 <= j < |pools| ==> pools[j].poolType != Master
    ensures LastMasterName(pools) == ""
    decreases |pools|
  {
    if pools != [] {
      LastMasterNameWithoutMaster(pools[..|pools| - 1]);
    }
  }

  /** The scan over the cluster's pools that picks the master tag. */
  method MasterTag(pools: seq<ServerPool>) returns (tag: string)
    ensures tag == LastMasterName(pools)
  {
    tag := "";
    for i := 0 to |pools|
      invariant tag == LastMasterName(pools[..i])
    {
      if pools[i].poolType == Master {
        tag := pools[i].name;
      }
      assert pools[..i + 1][..i] == pools[..i];
    }
    assert pools[..|pools|] == pools;
  }

  /** A poll that means "not ready yet": the query failed or found no droplet. */
  predicate Pending(p: Listing) {
    p.Err? || |p.value| == 0
  }

  /** What a poll that found droplets decides: more than one is fatal, exactly one
      yields the master's addresses unless the provider cannot report one of them. */
  function Settle(tag: string, droplets: seq<ProviderDroplet>): (r: Result<MasterAddress, Error>)
    requires |droplets| > 0
    ensures r.Err? ==> r.error.AmbiguousMaster? || r.error == NoPrivateIp || r.error == NoPublicIp
    ensures |droplets| > 1 ==> r == Err(AmbiguousMaster(|droplets|, tag))
    ensures r.Ok? <==> |droplets| == 1 && droplets[0].privateIp.Some? && droplets[0].publicIp.Some?
    ensures r.Ok? ==> r.value == MasterAddress(droplets[0].privateIp.value, droplets[0].publicIp.value)
  {
    if |droplets| > 1 then Err(AmbiguousMaster(|droplets|, tag))
    else match droplets[0].privateIp
      case None => Err(NoPrivateIp)
      case Some(privateIp) =>
        match droplets[0].publicIp
        case None => Err(NoPublicIp)
        case Some(publicIp) => Ok(MasterAddress(privateIp, publicIp))
  }

  /** The discovery loop from attempt `i` on: its outcome and the number of polls made
      so far when it stops. */
  function DiscoverFrom(tag: string, polls: seq<Listing>, i: nat): (r: (Result<MasterAddress, Error>, nat))
    requires i <= MasterIpAttempts <= |polls|
    ensures i <= r.1 <= MasterIpAttempts
    ensures r.0 == Err(MasterIpNotFound) ==> r.1 == MasterIpAttempts
    ensures r.0 != Err(MasterIpNotFound) ==>
      i < r.1 && !Pending(polls[r.1 - 1]) && r.0 == Settle(tag, polls[r.1 - 1].value)
    decreases MasterIpAttempts - i
  {
    if i == MasterIpAttempts then (Err(MasterIpNotFound), i)
    else if Pending(polls[i]) then DiscoverFrom(tag, polls, i + 1)
    else (Settle(tag, polls[i].value), i + 1)
  }

  /** Master discovery as Apply runs it for a node pool. It fails for want of a master
      tag exactly when no pool is a master pool, or the last master pool in list order
      has an empty name, and then polls nothing. */
  function Discover(pools: seq<ServerPool>, polls: seq<Listing>): (r: (Result<MasterAddress, Error>, nat))
    requires MasterIpAttempts <= |polls|
    ensures r.1 <= MasterIpAttempts
    ensures r.0 == Err(NoMasterTag) <==> LastMasterName(pools) == ""
    ensures r.0 == Err(NoMasterTag) ==> r.1 == 0
  {
    var tag := LastMasterName(pools);
    if tag == "" then (Err(NoMasterTag), 0) else DiscoverFrom(tag, polls, 0)
  }

  /** The first poll that found droplets decides the outcome, and no poll follows it. */
  lemma {:induction false} DiscoverSettlesAtFirstDecisivePoll(tag: string, polls: seq<Listing>, i: nat, k: nat)
    requires i <= k < MasterIpAttempts <= |polls|
    requires forall j :: i <= j < k ==> Pending(polls[j])
    requires !Pending(polls[k])
    ensures DiscoverFrom(tag, polls, i) == (Settle(tag, polls[k].value), k + 1)
    decreases k - i
  {
    if i < k {
      DiscoverSettlesAtFirstDecisivePoll(tag, polls, i + 1, k);
    }
  }

  /** Discovery times out exactly when every remaining poll is pending, and it then
      has used the whole budget. */
  lemma {:induction false} DiscoverTimesOutIffAllPending(tag: string, polls: seq<Listing>, i: nat)
    requires i <= MasterIpAttempts <= |polls|
    ensures DiscoverFrom(tag, polls, i).0 == Err(MasterIpNotFound)
        <==> forall j :: i <= j < MasterIpAttempts ==> Pending(polls[j])
    ensures DiscoverFrom(tag, polls, i).0 == Err(MasterIpNotFound)
        ==> DiscoverFrom(tag, polls, i).1 == MasterIpAttempts
    decreases MasterIpAttempts - i
  {
    if i < MasterIpAttempts {
      DiscoverTimesOutIffAllPending(tag, polls, i + 1);
    }
  }

  /** A node pool whose cluster has no named master pool fails before any poll. */
  lemma DiscoverWithoutMasterPool(pools: seq<ServerPool>, polls: seq<Listing>)
    requires MasterIpAttempts <= |polls|
    requires forall j :: 0 <= j < |pools| ==> pools[j].poolType != Master
    ensures Discover(pools, polls) == (Err(NoMasterTag), 0)
  {
    LastMasterNameWithoutMaster(pools);
  }

  /** The discovery loop of Apply. It rescans the pools for the master tag on every
      attempt, as the source does, and pauses after every pending poll: `waited` is the
      number of seconds it paused. */
  method DiscoverMaster(pools: seq<ServerPool>, polls: seq<Listing>)
    returns (found: Result<MasterAddress, Error>, polled: nat, waited: nat)
    requires MasterIpAttempts <= |polls|
    ensures (found, polled) == Discover(pools, polls)
    ensures waited == MasterIpSleepSecondsPerAttempt * (if found == Err(MasterIpNotFound) || polled == 0 then polled else polled - 1)
  {
    var i := 0;
    waited := 0;
    while i < MasterIpAttempts
      invariant i <= MasterIpAttempts
      invariant waited == MasterIpSleepSecondsPerAttempt * i
      invariant 0 < i ==> LastMasterName(pools) != ""
      invariant LastMasterName(pools) != "" ==>
        Discover(pools, polls) == DiscoverFrom(LastMasterName(pools), polls, i)
    {
      var masterTag := MasterTag(pools);
      if masterTag == "" {
        return Err(NoMasterTag), 0, waited;
      }
      var listing := polls[i];
      if listing.Err? || |listing.value| == 0 {
        assert DiscoverFrom(masterTag, polls, i) == DiscoverFrom(masterTag, polls, i + 1);
        waited := waited + MasterIpSleepSecondsPerAttempt;
        i := i + 1;
        continue;
      }
      var droplets := listing.value;
      assert DiscoverFrom(masterTag, polls, i) == (Settle(masterTag, droplets), i + 1);
      if |droplets| > 1 {
        return Err(AmbiguousMaster(|droplets|, masterTag)), i + 1, waited;
      }
      if droplets[0].privateIp.None? {
        return Err(NoPrivateIp), i + 1, waited;
      }
      if droplets[0].publicIp.None? {
        return Err(NoPublicIp), i + 1, waited;
      }
      return Ok(MasterAddress(droplets[0].privateIp.value, droplets[0].publicIp.value)), i + 1, waited;
    }
    return Err(MasterIpNotFound), MasterIpAttempts, waited;
  }

  // ---------------------------------------------------------------------------------
  // Apply

  /** Everything Apply produces: its result, the new substitution map and endpoint,
      the number of discovery polls and the create request it sent, if any. */
  datatype ApplyOutcome = ApplyOutcome(
    result: Result<DropletState, Error>,
    itemMap: map<string, string>,
    endpoint: string,
    polled: nat,
    request: Option<CreateRequest>)

  function BootstrapAssetPath(script: string): string {
    "bootstrap/" + script
  }

  /** The substitution map after Apply's writes: for a node pool INJECTEDMASTER, the
      master's private address and the API port; then INJECTEDNAME and INJECTEDPORT. */
  function InjectReserved(itemMap: map<string, string>, t: PoolType, masterPrivateIp: string,
                          clusterName: string, port: string): map<string, string>
  {
    var withMaster := if t == Node then itemMap[InjectedMaster := masterPrivateIp + ":" + port] else itemMap;
    withMaster[InjectedName := clusterName][InjectedPort := port]
  }

  /** Apply of a droplet whose server pool is `pool`, on a cluster with the given
      name, API port, SSH identifier, pools, substitution map and endpoint. */
  function ApplyModel(pool: ServerPool, actual: DropletState, expected: DropletState,
                      clusterName: string, port: string, sshIdentifier: string,
                      pools: seq<ServerPool>, itemMap: map<string, string>, endpoint: string,
                      env: Collaborators): (o: ApplyOutcome)
    requires MasterIpAttempts <= |env.masterPolls|
    ensures env.compare(actual, expected) != Ok(false) ==>
      o.itemMap == itemMap && o.endpoint == endpoint && o.polled == 0 && o.request == None
  {
    match env.compare(actual, expected)
    case Err(e) => ApplyOutcome(Err(e), itemMap, endpoint, 0, None)
    case Ok(equal) =>
      if equal then ApplyOutcome(Ok(expected), itemMap, endpoint, 0, None)
      else
        match env.asset(BootstrapAssetPath(pool.bootstrapScript))
        case Err(e) => ApplyOutcome(Err(e), itemMap, endpoint, 0, None)
        case Ok(script) =>
          var (found, polled) :=
            if pool.poolType == Node then Discover(pools, env.masterPolls)
            else (Ok(MasterAddress("", "")), 0);
          match found
          case Err(e) => ApplyOutcome(Err(e), itemMap, endpoint, polled, None)
          case Ok(master) =>
            var items := InjectReserved(itemMap, pool.poolType, master.privateIp, clusterName, port);
            Provision(expected, script, items, master.publicIp, sshIdentifier, endpoint, polled, env)
  }

  /** The rest of Apply once the map is written: injection, the SSH key identifier and
      the create call. Nothing of it changes the map; only success sets the endpoint. */
  function Provision(expected: DropletState, script: string, items: map<string, string>,
                     masterPublicIp: string, sshIdentifier: string, endpoint: string,
                     polled: nat, env: Collaborators): (o: ApplyOutcome)
    ensures o.itemMap == items && o.polled == polled
    ensures o.endpoint == if o.result.Ok? then masterPublicIp else endpoint
  {
    match env.inject(script, items)
    case Err(e) => ApplyOutcome(Err(e), items, endpoint, polled, None)
    case Ok(userData) =>
      match env.atoi(sshIdentifier)
      case None => ApplyOutcome(Err(BadSshIdentifier(sshIdentifier)), items, endpoint, polled, None)
      case Some(keyId) =>
        var request := CreateRequest(expected.name, expected.region, expected.size, expected.image,
                                     [expected.name], true, keyId, expected.sshFingerprint, userData);
        match env.create(request)
        case Err(e) => ApplyOutcome(Err(e), items, endpoint, polled, Some(request))
        case Ok(d) =>
          ApplyOutcome(Ok(DropletState(d.name, d.id, d.region, d.size, d.image, expected.count, "")),
                       items, masterPublicIp, polled, Some(request))
  }

  lemma ProvisionRequest(expected: DropletState, script: string, items: map<string, string>,
                         masterPublicIp: string, sshIdentifier: string, endpoint: string,
                         polled: nat, env: Collaborators)
    requires Provision(expected, script, items, masterPublicIp, sshIdentifier, endpoint, polled, env).request.Some?
    ensures var req := Provision(expected, script, items, masterPublicIp, sshIdentifier, endpoint, polled, env).request.value;
      && req.name == expected.name && req.region == expected.region && req.size == expected.size
      && req.image == expected.image && req.tags == [expected.name] && req.privateNetworking
      && req.sshFingerprint == expected.sshFingerprint && env.atoi(sshIdentifier) == Some(req.sshKeyId)
      && env.inject(script, items) == Ok(req.userData)
  {
  }

  /** Apply either reaches Provision with the map written, or returns early with the
      map, the endpoint and the provider untouched. */
  lemma ApplyStages(pool: ServerPool, actual: DropletState, expected: DropletState,
                    clusterName: string, port: string, sshIdentifier: string,
                    pools: seq<ServerPool>, itemMap: map<string, string>, endpoint: string,
                    env: Collaborators)
    requires MasterIpAttempts <= |env.masterPolls|
    ensures var o := ApplyModel(pool, actual, expected, clusterName, port, sshIdentifier, pools, itemMap, endpoint, env);
      var script := env.asset(BootstrapAssetPath(pool.bootstrapScript));
      var found := if pool.poolType == Node then Discover(pools, env.masterPolls).0 else Ok(MasterAddress("", ""));
      if env.compare(actual, expected) == Ok(false) && script.Ok? && found.Ok? then
        o == Provision(expected, script.value, InjectReserved(itemMap, pool.poolType, found.value.privateIp, clusterName, port),
                       found.value.publicIp, sshIdentifier, endpoint, o.polled, env)
      else
        o.itemMap == itemMap && o.endpoint == endpoint && o.request == None
  {
  }

  /** When the comparator finds actual and expected equal, Apply returns expected and
      touches nothing: no asset, no poll, no map entry, no create call. */
  lemma ApplyIsNoOpWhenEqual(pool: ServerPool, actual: DropletState, expected: DropletState,
                             clusterName: string, port: string, sshIdentifier: string,
                             pools: seq<ServerPool>, itemMap: map<string, string>, endpoint: string,
                             env: Collaborators)
    requires MasterIpAttempts <= |env.masterPolls|
    requires env.compare(actual, expected) == Ok(true)
    ensures ApplyModel(pool, actual, expected, clusterName, port, sshIdentifier, pools, itemMap, endpoint, env)
         == ApplyOutcome(Ok(expected), itemMap, endpoint, 0, None)
  {
  }

  /** Apply never makes more than MasterIpAttempts polls, and a pool that is not a node
      pool none. */
  lemma ApplyPollsWithinBudget(pool: ServerPool, actual: DropletState, expected: DropletState,
                               clusterName: string, port: string, sshIdentifier: string,
                               pools: seq<ServerPool>, itemMap: map<string, string>, endpoint: string,
                               env: Collaborators)
    requires MasterIpAttempts <= |env.masterPolls|
    ensures var o := ApplyModel(pool, actual, expected, clusterName, port, sshIdentifier, pools, itemMap, endpoint, env);
      o.polled <= MasterIpAttempts && (pool.poolType != Node ==> o.polled == 0)
  {
  }

  /** Apply changes no entry of the substitution map but the three reserved ones. */
  lemma ApplyTouchesOnlyReservedKeys(pool: ServerPool, actual: DropletState, expected: DropletState,
                                     clusterName: string, port: string, sshIdentifier: string,
                                     pools: seq<ServerPool>, itemMap: map<string, string>, endpoint: string,
                                     env: Collaborators, k: string)
    requires MasterIpAttempts <= |env.masterPolls|
    requires k != InjectedMaster && k != InjectedName && k != InjectedPort
    ensures var o := ApplyModel(pool, actual, expected, clusterName, port, sshIdentifier, pools, itemMap, endpoint, env);
      (k in o.itemMap <==> k in itemMap) && (k in itemMap ==> o.itemMap[k] == itemMap[k])
  {
    ReservedKeysDistinct();
    ApplyStages(pool, actual, expected, clusterName, port, sshIdentifier, pools, itemMap, endpoint, env);
  }

  /** Only a node pool writes INJECTEDMASTER: a master pool, or a pool of any other
      type, leaves it as it was. */
  lemma OnlyNodePoolsWriteInjectedMaster(pool: ServerPool, actual: DropletState, expected: DropletState,
                                         clusterName: string, port: string, sshIdentifier: string,
                                         pools: seq<ServerPool>, itemMap: map<string, string>, endpoint: string,
                                         env: Collaborators)
    requires MasterIpAttempts <= |env.masterPolls|
    requires pool.poolType != Node
    ensures var o := ApplyModel(pool, actual, expected, clusterName, port, sshIdentifier, pools, itemMap, endpoint, env);
      && (InjectedMaster in o.itemMap <==> InjectedMaster in itemMap)
      && (InjectedMaster in itemMap ==> o.itemMap[InjectedMaster] == itemMap[InjectedMaster])
  {
    ReservedKeysDistinct();
  }

  /** Once Apply gets as far as the create call, the map holds the cluster name and
      API port under their reserved keys and, for a node pool, the discovered master's
      private address and the port under INJECTEDMASTER. */
  lemma ApplyInjectsBeforeCreate(pool: ServerPool, actual: DropletState, expected: DropletState,
                                 clusterName: string, port: string, sshIdentifier: string,
                                 pools: seq<ServerPool>, itemMap: map<string, string>, endpoint: string,
                                 env: Collaborators)
    requires MasterIpAttempts <= |env.masterPolls|
    requires ApplyModel(pool, actual, expected, clusterName, port, sshIdentifier, pools, itemMap, endpoint, env).request.Some?
    ensures var o := ApplyModel(pool, actual, expected, clusterName, port, sshIdentifier, pools, itemMap, endpoint, env);
      && InjectedName in o.itemMap && o.itemMap[InjectedName] == clusterName
      && InjectedPort in o.itemMap && o.itemMap[InjectedPort] == port
      && (pool.poolType == Node ==>
            Discover(pools, env.masterPolls).0.Ok?
            && InjectedMaster in o.itemMap
            && o.itemMap[InjectedMaster] == Discover(pools, env.masterPolls).0.value.privateIp + ":" + port)
  {
    ReservedKeysDistinct();
    ApplyStages(pool, actual, expected, clusterName, port, sshIdentifier, pools, itemMap, endpoint, env);
  }

  /** The create request describes `expected`: its name, region, size, image and key
      fingerprint, a single tag equal to its name, private networking, the parsed SSH
      key identifier, and the bootstrap script injected with the final map. */
  lemma ApplyCreateRequest(pool: ServerPool, actual: DropletState, expected: DropletState,
                           clusterName: string, port: string, sshIdentifier: string,
                           pools: seq<ServerPool>, itemMap: map<string, string>, endpoint: string,
                           env: Collaborators)
    requires MasterIpAttempts <= |env.masterPolls|
    requires ApplyModel(pool, actual, expected, clusterName, port, sshIdentifier, pools, itemMap, endpoint, env).request.Some?
    ensures var o := ApplyModel(pool, actual, expected, clusterName, port, sshIdentifier, pools, itemMap, endpoint, env);
      var req := o.request.value;
      && req.name == expected.name && req.region == expected.region && req.size == expected.size
      && req.image == expected.image && req.tags == [expected.name] && req.privateNetworking
      && req.sshFingerprint == expected.sshFingerprint && env.atoi(sshIdentifier) == Some(req.sshKeyId)
      && env.asset(BootstrapAssetPath(pool.bootstrapScript)).Ok?
      && env.inject(env.asset(BootstrapAssetPath(pool.bootstrapScript)).value, o.itemMap) == Ok(req.userData)
  {
    ApplyStages(pool, actual, expected, clusterName, port, sshIdentifier, pools, itemMap, endpoint, env);
    var o := ApplyModel(pool, actual, expected, clusterName, port, sshIdentifier, pools, itemMap, endpoint, env);
    var script := env.asset(BootstrapAssetPath(pool.bootstrapScript));
    var found := if pool.poolType == Node then Discover(pools, env.masterPolls).0 else Ok(MasterAddress("", ""));
    assert env.compare(actual, expected) == Ok(false) && script.Ok? && found.Ok?;
    var items := InjectReserved(itemMap, pool.poolType, found.value.privateIp, clusterName, port);
    ProvisionRequest(expected, script.value, items, found.value.publicIp, sshIdentifier, endpoint, o.polled, env);
  }

  /** After a successful create, the result carries expected's count and the created
      droplet's identity, and the endpoint is the discovered master's public address:
      "" for a master pool. A failed Apply leaves the endpoint as it was. */
  lemma ApplyCreatedDroplet(pool: ServerPool, actual: DropletState, expected: DropletState,
                            clusterName: string, port: string, sshIdentifier: string,
                            pools: seq<ServerPool>, itemMap: map<string, string>, endpoint: string,
                            env: Collaborators)
    requires MasterIpAttempts <= |env.masterPolls|
    ensures var o := ApplyModel(pool, actual, expected, clusterName, port, sshIdentifier, pools, itemMap, endpoint, env);
      && (o.result.Err? ==> o.endpoint == endpoint)
      && (o.result.Ok? && env.compare(actual, expected) != Ok(true) ==>
            && o.request.Some? && env.create(o.request.value).Ok?
            && var d := env.create(o.request.value).value;
            && o.result.value == DropletState(d.name, d.id, d.region, d.size, d.image, expected.count, "")
            && o.endpoint == (if pool.poolType == Node then Discover(pools, env.masterPolls).0.value.publicIp else ""))
  {
    ApplyStages(pool, actual, expected, clusterName, port, sshIdentifier, pools, itemMap, endpoint, env);
  }

  /** A node pool whose discovery fails writes no map entry, sends no create request
      and, unless the states already compare equal, fails. */
  lemma FailedDiscoveryWritesNothing(pool: ServerPool, actual: DropletState, expected: DropletState,
                                     clusterName: string, port: string, sshIdentifier: string,
                                     pools: seq<ServerPool>, itemMap: map<string, string>, endpoint: string,
                                     env: Collaborators)
    requires MasterIpAttempts <= |env.masterPolls|
    requires pool.poolType == Node && Discover(pools, env.masterPolls).0.Err?
    ensures var o := ApplyModel(pool, actual, expected, clusterName, port, sshIdentifier, pools, itemMap, endpoint, env);
      && o.itemMap == itemMap && o.endpoint == endpoint && o.request == None
      && (env.compare(actual, expected) != Ok(true) ==> o.result.Err?)
  {
  }

  /** A cluster with a master pool "master-pool" and a node pool "node-pool": once the
      master is listed under its tag with private address 10.0.0.5, the node's Apply
      records "10.0.0.5:<port>" under INJECTEDMASTER after that single poll. */
  lemma NodeLearnsMasterAddress(master: ServerPool, node: ServerPool, actual: DropletState, expected: DropletState,
                                clusterName: string, port: string, sshIdentifier: string,
                                itemMap: map<string, string>, endpoint: string,
                                env: Collaborators, listed: ProviderDroplet)
    requires master.poolType == Master && master.name == "master-pool"
    requires node.poolType == Node && node.name == "node-pool"
    requires MasterIpAttempts <= |env.masterPolls|
    requires env.compare(actual, expected) == Ok(false)
    requires env.asset(BootstrapAssetPath(node.bootstrapScript)).Ok?
    requires listed.privateIp == Some("10.0.0.5") && listed.publicIp.Some?
    requires env.masterPolls[0] == Ok([listed])
    ensures var o := ApplyModel(node, actual, expected, clusterName, port, sshIdentifier,
                                [master, node], itemMap, endpoint, env);
      o.polled == 1 && InjectedMaster in o.itemMap && o.itemMap[InjectedMaster] == "10.0.0.5:" + port
  {
    var pools := [master, node];
    assert pools[..1] == [master];
    assert LastMasterName(pools) == "master-pool";
    ReservedKeysDistinct();
  }

  /** For a node pool whose cluster names a master pool: when the first k polls are
      pending and poll k lists a single droplet with both addresses, Apply makes k + 1
      polls and records that droplet's private address and the API port under
      INJECTEDMASTER. */
  lemma NodeInjectsFirstListedMaster(pool: ServerPool, actual: DropletState, expected: DropletState,
                                     clusterName: string, port: string, sshIdentifier: string,
                                     pools: seq<ServerPool>, itemMap: map<string, string>, endpoint: string,
                                     env: Collaborators, k: nat, listed: ProviderDroplet, p: string, q: string)
    requires pool.poolType == Node && LastMasterName(pools) != ""
    requires k < MasterIpAttempts <= |env.masterPolls|
    requires env.compare(actual, expected) == Ok(false)
    requires env.asset(BootstrapAssetPath(pool.bootstrapScript)).Ok?
    requires forall j :: 0 <= j < k ==> Pending(env.masterPolls[j])
    requires env.masterPolls[k] == Ok([listed]) && listed.privateIp == Some(p) && listed.publicIp == Some(q)
    ensures var o := ApplyModel(pool, actual, expected, clusterName, port, sshIdentifier, pools, itemMap, endpoint, env);
      o.polled == k + 1 && InjectedMaster in o.itemMap && o.itemMap[InjectedMaster] == p + ":" + port
  {
    DiscoverSettlesAtFirstDecisivePoll(LastMasterName(pools), env.masterPolls, 0, k);
    ReservedKeysDistinct();
  }

  // ---------------------------------------------------------------------------------
  // Render

  /** Render's in-place update of one pool: the pool named like the resource takes its
      image, size and count. */
  function Touch(p: ServerPool, d: DropletState): ServerPool {
    if p.name == d.name then p.(image := d.image, size := d.size, maxCount := d.count) else p
  }

  /** The pool Render appends when none carries the resource's name. */
  function NewPool(t: PoolType, d: DropletState): ServerPool {
    ServerPool(t, d.name, d.size, d.image, d.count, "", "")
  }

  predicate HasPool(pools: seq<ServerPool>, name: string) {
    exists i :: 0 <= i < |pools| && pools[i].name == name
  }

  /** The pool list after rendering `d` with pool type `t`. */
  function RenderPools(pools: seq<ServerPool>, t: PoolType, d: DropletState): seq<ServerPool> {
    if HasPool(pools, d.name) then seq(|pools|, i requires 0 <= i < |pools| => Touch(pools[i], d))
    else pools + [NewPool(t, d)]
  }

  /** Render updates every matching pool, leaves the others alone, and appends exactly
      one new pool when none matches. */
  lemma RenderUpdatesOrAppends(pools: seq<ServerPool>, t: PoolType, d: DropletState)
    ensures var r := RenderPools(pools, t, d);
      && |r| == (if HasPool(pools, d.name) then |pools| else |pools| + 1)
      && (forall i :: 0 <= i < |pools| && pools[i].name != d.name ==> r[i] == pools[i])
      && (forall i :: 0 <= i < |pools| && pools[i].name == d.name ==>
            r[i] == pools[i].(image := d.image, size := d.size, maxCount := d.count))
      && (!HasPool(pools, d.name) ==> r[|pools|] == NewPool(t, d))
      && HasPool(r, d.name)
  {
    var r := RenderPools(pools, t, d);
    if !HasPool(pools, d.name) {
      assert r[|pools|].name == d.name;
    }
  }

  /** Rendering the same resource twice gives the same pools as rendering it once. */
  lemma RenderIdempotent(pools: seq<ServerPool>, t: PoolType, d: DropletState)
    ensures RenderPools(RenderPools(pools, t, d), t, d) == RenderPools(pools, t, d)
  {
    var once := RenderPools(pools, t, d);
    RenderUpdatesOrAppends(pools, t, d);
    var twice := RenderPools(once, t, d);
    assert |twice| == |once|;
    forall i | 0 <= i < |once|
      ensures twice[i] == once[i]
    {
      assert twice[i] == Touch(once[i], d);
    }
  }

  // ---------------------------------------------------------------------------------
  // The resource

  /** One droplet resource of a server pool, with its per-pass caches. */
  class Droplet {
    var name: string
    var cloudId: string
    var pool: ServerPool
    var cachedActual: Option<DropletState>
    var cachedExpected: Option<DropletState>

    constructor (name: string, cloudId: string, pool: ServerPool)
      ensures this.name == name && this.cloudId == cloudId && this.pool == pool
      ensures cachedActual == None && cachedExpected == None
    {
      this.name := name;
      this.cloudId := cloudId;
      this.pool := pool;
      cachedActual := None;
      cachedExpected := None;
    }

    /** Queries the provider for the droplet tagged with this resource's name, unless
        a cached answer exists or the resource has no cloud ID yet. `queried` says
        whether a `ListByTag` call was made. */
    method Actual(known: Cluster, listByTag: string -> Listing)
      returns (res: Result<DropletState, Error>, queried: bool)
      modifies this`cachedActual
      ensures old(cachedActual).Some? ==>
        res == Ok(old(cachedActual).value) && !queried && cachedActual == old(cachedActual)
      ensures old(cachedActual).None? ==>
        && queried == (cloudId != "")
        && (res.Ok? ==> cachedActual == Some(res.value))
        && (res.Err? ==> cachedActual == None)
        && (res.Ok? ==> res.value.name == name && res.value.count == pool.maxCount
                        && res.value.sshFingerprint == known.sshFingerprint)
      ensures old(cachedActual).None? && cloudId == "" ==>
        res == Ok(DropletState(name, pool.identifier, "", "", "", pool.maxCount, known.sshFingerprint))
      ensures old(cachedActual).None? && cloudId != "" ==>
        match listByTag(name)
        case Err(e) => res == Err(e)
        case Ok(ds) =>
          if |ds| != 1 then res == Err(DropletCount(|ds|, name))
          else res.Ok? && res.value.cloudId == ds[0].id && res.value.region == ds[0].region
               && res.value.size == ds[0].size && res.value.image == ds[0].image
    {
      if cachedActual.Some? {
        return Ok(cachedActual.value), false;
      }
      var actual := DropletState(name, pool.identifier, "", "", "", 0, "");
      queried := false;
      if cloudId != "" {
        queried := true;
        var listing := listByTag(name);
        if listing.Err? {
          return Err(listing.error), queried;
        }
        var droplets := listing.value;
        if |droplets| != 1 {
          return Err(DropletCount(|droplets|, name)), queried;
        }
        var d := droplets[0];
        actual := actual.(name := d.name, cloudId := d.id, size := d.size, region := d.region, image := d.image);
      }
      actual := actual.(sshFingerprint := known.sshFingerprint, count := pool.maxCount, name := name);
      cachedActual := Some(actual);
      res := Ok(actual);
    }

    /** The state derived from the pool and the cluster; cached after the first call. */
    method Expected(known: Cluster) returns (e: DropletState)
      modifies this`cachedExpected
      ensures old(cachedExpected).Some? ==> e == old(cachedExpected).value && cachedExpected == old(cachedExpected)
      ensures old(cachedExpected).None? ==> cachedExpected == Some(e)
      ensures old(cachedExpected).None? ==>
        && e.name == name && e.cloudId == pool.identifier
        && e.size == pool.size && e.region == known.location && e.image == pool.image
        && e.count == pool.maxCount && e.sshFingerprint == known.sshFingerprint
    {
      if cachedExpected.Some? {
        return cachedExpected.value;
      }
      e := DropletState(name, pool.identifier, known.location, pool.size, pool.image, pool.maxCount, known.sshFingerprint);
      cachedExpected := Some(e);
    }

    /** Converges the provider toward `expected`, writing the cluster's substitution
        map and API endpoint along the way. */
    method Apply(actual: DropletState, expected: DropletState, cluster: Cluster, env: Collaborators)
      returns (res: Result<DropletState, Error>, polled: nat, request: Option<CreateRequest>)
      requires MasterIpAttempts <= |env.masterPolls|
      modifies cluster`itemMap, cluster`endpoint
      ensures var o := ApplyModel(pool, actual, expected, cluster.name, cluster.port, cluster.sshIdentifier,
                                  cluster.serverPools, old(cluster.itemMap), old(cluster.endpoint), env);
        && res == o.result && polled == o.polled && request == o.request
        && cluster.itemMap == o.itemMap && cluster.endpoint == o.endpoint
    {
      var isEqual := env.compare(actual, expected);
      if isEqual.Err? {
        return Err(isEqual.error), 0, None;
      }
      if isEqual.value {
        return Ok(expected), 0, None;
      }
      var script := env.asset(BootstrapAssetPath(pool.bootstrapScript));
      if script.Err? {
        return Err(script.error), 0, None;
      }
      var master := MasterAddress("", "");
      polled := 0;
      if pool.poolType == Node {
        var found, waited;
        found, polled, waited := DiscoverMaster(cluster.serverPools, env.masterPolls);
        if found.Err? {
          return Err(found.error), polled, None;
        }
        master := found.value;
        cluster.itemMap := cluster.itemMap[InjectedMaster := master.privateIp + ":" + cluster.port];
      }
      cluster.itemMap := cluster.itemMap[InjectedName := cluster.name];
      cluster.itemMap := cluster.itemMap[InjectedPort := cluster.port];
      var userData := env.inject(script.value, cluster.itemMap);
      if userData.Err? {
        return Err(userData.error), polled, None;
      }
      var sshId := env.atoi(cluster.sshIdentifier);
      if sshId.None? {
        return Err(BadSshIdentifier(cluster.sshIdentifier)), polled, None;
      }
      request := Some(CreateRequest(expected.name, expected.region, expected.size, expected.image,
                                    [expected.name], true, sshId.value, expected.sshFingerprint, userData.value));
      var created := env.create(request.value);
      if created.Err? {
        return Err(created.error), polled, request;
      }
      var d := created.value;
      res := Ok(DropletState(d.name, d.id, d.region, d.size, d.image, expected.count, ""));
      cluster.endpoint := master.publicIp;
    }

    /** Destroys the one droplet tagged with this resource's name. `deleted` is the ID
        handed to the provider's delete call, if that call was made. */
    method Delete(actual: DropletState, listByTag: string -> Listing, destroy: string -> Option<Error>)
      returns (err: Option<Error>, deleted: Option<string>)
      ensures actual.name == "" ==> err == Some(MissingName(actual.name)) && deleted == None
      ensures deleted.Some? <==>
        actual.name != "" && listByTag(name).Ok? && |listByTag(name).value| == 1
      ensures deleted.Some? ==>
        deleted.value == listByTag(name).value[0].id && err == destroy(deleted.value)
      ensures actual.name != "" && listByTag(name).Err? ==> err == Some(listByTag(name).error)
      ensures actual.name != "" && listByTag(name).Ok? && |listByTag(name).value| != 1 ==>
        err == Some(DropletCount(|listByTag(name).value|, name))
    {
      if actual.name == "" {
        return Some(MissingName(actual.name)), None;
      }
      var listing := listByTag(name);
      if listing.Err? {
        return Some(listing.error), None;
      }
      var droplets := listing.value;
      if |droplets| != 1 {
        return Some(DropletCount(|droplets|, name)), None;
      }
      deleted := Some(droplets[0].id);
      err := destroy(droplets[0].id);
    }

    /** Folds `d` back into the cluster: pools named like it are updated in place, a new
        pool is appended when none is, and the location becomes d's region. */
    method Render(d: DropletState, cluster: Cluster) returns (rendered: Cluster)
      modifies cluster`serverPools, cluster`location
      ensures rendered == cluster
      ensures cluster.serverPools == RenderPools(old(cluster.serverPools), pool.poolType, d)
      ensures cluster.location == d.region
    {
      ghost var pools := cluster.serverPools;
      var found := false;
      var i := 0;
      while i < |cluster.serverPools|
        invariant i <= |cluster.serverPools| == |pools|
        invariant forall j :: 0 <= j < i ==> cluster.serverPools[j] == Touch(pools[j], d)
        invariant forall j :: i <= j < |pools| ==> cluster.serverPools[j] == pools[j]
        invariant found <==> exists j :: 0 <= j < i && pools[j].name == d.name
      {
        if cluster.serverPools[i].name == d.name {
          var p := cluster.serverPools[i];
          cluster.serverPools := cluster.serverPools[i := p.(image := d.image, size := d.size, maxCount := d.count)];
          found := true;
        }
        i := i + 1;
      }
      if !found {
        assert cluster.serverPools == pools;
        cluster.serverPools := cluster.serverPools + [NewPool(pool.poolType, d)];
      }
      cluster.location := d.region;
      rendered := cluster;
    }

    /** DigitalOcean droplets take no tags here: Tag always succeeds. */
    function Tag(tags: map<string, string>): (err: Option<Error>)
      ensures err == None
    {
      None
    }
  }
}
