# kubicorn droplet reconciler and kubeconfig retriever, in Dafny

This project models two parts of kubicorn:

- **The DigitalOcean droplet reconciler** (`cloud/digitalocean/resources/droplet.go`). It implements
  the Actual / Expected / Apply / Delete / Render / Tag contract for one compute-instance
  resource of a server pool.
- **The kubeconfig retriever** (`cutil/kubeconfig/kubeconfig.go`). It fetches the generated
  kubeconfig from the master over SSH/SFTP and appends it to the local kubeconfig. While the
  master is still booting, it retries.

Files:

- `results.dfy` (module `Results`): `Option` and `Result`. A Go `(value, error)` pair becomes a `Result`.
- `strings.dfy` (module `Strings`): the parts of Go's `strings` package the code uses: `Index`,
  `Contains`, and `Replace(s, old, new, 1)`.
- `cluster.dfy` (module `ClusterModel`): server pools, and the `Cluster` class. A pool's type is
  master, node, or `Other(kind)` for any other text the Go string type can hold. Such a pool is
  never a master candidate in the tag scan (droplet.go:113) and runs no discovery in Apply
  (droplet.go:108). The class has the substitution map (`Values.ItemMap`), the pool list, the
  location, the SSH descriptor and the Kubernetes API endpoint and port. Apply and Render update it in place. The Go cluster
  definition is not part of this model; the fields are the ones the two core files use.
- `droplet.dfy` (module `Droplets`): the reconciler.
  - `Droplet` is a class. Its per-pass caches `cachedActual` and `cachedExpected` are fields that
    `Actual` and `Expected` write.
  - `Apply` writes only `cluster.itemMap` and `cluster.endpoint`. It is proved equal to the
    function `ApplyModel`, and the lemmas about `ApplyModel` state its properties.
  - The master-discovery loop is the method `DiscoverMaster`. It is proved against the
    recursive function `DiscoverFrom`.
  - `Render` updates the pool list in place. It is proved against `RenderPools`.
- `kubeconfig.dfy` (module `Kubeconfig`): the retriever.
  - The path and address derivations and `GetSigner` are functions.
  - `GetConfig` is a method that appends to a `LocalFile` object.
  - `RetryGetConfig` is a counted loop over the outcomes of the successive `GetConfig` calls. It
    is proved against `RetryFrom`.

Code that is outside the model is an input. This covers the godo client (`ListByTag`, `Create`,
`Delete`, the droplet's addresses), `compare.IsEqual`, `bootstrap.Asset`, `bootstrap.Inject`,
`strconv.Atoi`, ssh/sftp and the terminal. Each is either a value (for instance, the sequence of
answers to the master-discovery polls) or a function-typed parameter. So every branch the source
takes on their outcomes is modelled, with the same constants: 40 discovery polls, 120 + 1
retrieval attempts, the reserved keys `INJECTEDMASTER`, `INJECTEDNAME` and `INJECTEDPORT`, and
the two retryable error texts.

Behaviour of the code worth knowing when reading the contracts:

- After a successful create, Apply sets the API endpoint to the *discovered master's* public
  address (droplet.go:198). Only a node pool runs discovery, so the Apply of a master pool (or
  of a pool of any other type) sets the endpoint to `""`.
- `Actual` queries the provider only when the receiver already has a cloud ID (droplet.go:44).
  When it has none, `Actual` reports sizes, region and image as empty, not as "does not exist".
- The retrieval loop runs for `i` from 0 to `RetryAttempts` inclusive, so it makes up to 121
  calls (kubeconfig.go:105).

## Model

| member | source | states |
|---|---|---|
| `Droplets.Droplet.Actual` | cloud/digitalocean/resources/droplet.go:31-67 | With a cached value, returns it and makes no query. Otherwise it queries only if the receiver has a cloud ID. Without one, Size, Region and Image are empty and CloudID is the pool identifier. A query error is returned as is. A count other than 1 is a DropletCount error. Otherwise the droplet's ID, region, size and image are used. Name, count and fingerprint always come from the receiver, the pool and the cluster. The cache is written only on success. |
| `Droplets.Droplet.Expected` | cloud/digitalocean/resources/droplet.go:69-88 | The first call returns name, pool identifier, pool size, cluster location, pool image, pool max count and cluster fingerprint, and caches the result. Later calls return the cached value unchanged. |
| `Droplets.Droplet.Apply` | cloud/digitalocean/resources/droplet.go:90-200 | The result, the discovery poll count, the create request, and the new substitution map and endpoint are exactly those of `ApplyModel` on the old cluster state. No other cluster field changes. |
| `Droplets.ApplyIsNoOpWhenEqual` | cloud/digitalocean/resources/droplet.go:92-99 | When the comparator says equal, Apply returns `expected` and does nothing else: the map and endpoint are unchanged, no poll is made and no create request is sent. |
| `Droplets.ApplyPollsWithinBudget` | cloud/digitalocean/resources/droplet.go:108-110 | Apply makes at most 40 discovery polls, and a pool that is not a node pool makes none. |
| `Droplets.ApplyTouchesOnlyReservedKeys` | cloud/digitalocean/resources/droplet.go:145-154 | Every map key other than the three reserved keys keeps its presence and its value. |
| `Droplets.OnlyNodePoolsWriteInjectedMaster` | cloud/digitalocean/resources/droplet.go:106-108 | Apply for a master pool, or a pool of any other type that is not a node pool, never adds, removes or changes `INJECTEDMASTER`. |
| `Droplets.ApplyInjectsBeforeCreate` | cloud/digitalocean/resources/droplet.go:145-155 | Whenever a create request is sent: `INJECTEDNAME` holds the cluster name and `INJECTEDPORT` the API port. For a node pool, discovery succeeded and `INJECTEDMASTER` holds the discovered private IP, ":" and the port. |
| `Droplets.ApplyCreateRequest` | cloud/digitalocean/resources/droplet.go:155-180 | Whenever a create request is sent, it carries expected's name, region, size, image and fingerprint, the single tag equal to the name, private networking, and the key id that Atoi gave for the SSH identifier. Its payload is the bootstrap asset injected with the final map. |
| `Droplets.ApplyStages` | cloud/digitalocean/resources/droplet.go:92-180 | When the comparator says unequal, the asset loads and (for a node pool) discovery succeeds, Apply writes the reserved keys and goes on to injection, Atoi and create. In every other case it returns before writing the map, keeps the endpoint and sends no create request. |
| `Droplets.ApplyModel` | cloud/digitalocean/resources/droplet.go:92-199 | Unless the comparator says the states differ, Apply returns without a poll or a create request and leaves the map and the endpoint as they were. |
| `Droplets.Provision` | cloud/digitalocean/resources/droplet.go:155-199 | Injection, Atoi and create leave the map as it is. The endpoint becomes the master's public address exactly on success and is otherwise kept. |
| `Droplets.ApplyCreatedDroplet` | cloud/digitalocean/resources/droplet.go:181-199 | A failed Apply leaves the endpoint unchanged. A successful non-no-op Apply returns the created droplet's name, ID, region, size and image, with expected's count. It then sets the endpoint to the discovered master public IP, which is "" for any pool that is not a node pool. |
| `Droplets.FailedDiscoveryWritesNothing` | cloud/digitalocean/resources/droplet.go:108-150 | A node pool whose master discovery fails writes no map entry, sends no create request and keeps the endpoint. Unless the states compared equal, it fails. |
| `Droplets.NodeLearnsMasterAddress` | cloud/digitalocean/resources/droplet.go:108-146 | Cluster with a master pool "master-pool" and a node pool: when the first poll lists one master with private IP 10.0.0.5, the node's Apply polls once and maps `INJECTEDMASTER` to "10.0.0.5:" + port. |
| `Droplets.NodeInjectsFirstListedMaster` | cloud/digitalocean/resources/droplet.go:108-146 | For every node pool whose cluster names a master pool: when polls 0..k-1 are pending and poll k lists one droplet with addresses p and q, Apply polls k + 1 times and maps `INJECTEDMASTER` to p + ":" + port. |
| `Droplets.MasterTag` | cloud/digitalocean/resources/droplet.go:111-116 | The scan over the pools returns `LastMasterName`. |
| `Droplets.LastMasterNameIsLastMaster` | cloud/digitalocean/resources/droplet.go:112-116 | When several pools are Master, the last one in list order supplies the tag. |
| `Droplets.LastMasterNameWithoutMaster` | cloud/digitalocean/resources/droplet.go:111-117 | With no Master pool the tag is "". |
| `Droplets.DiscoverWithoutMasterPool` | cloud/digitalocean/resources/droplet.go:117-119 | With no Master pool, discovery fails with NoMasterTag after zero polls. |
| `Droplets.Settle` | cloud/digitalocean/resources/droplet.go:126-146 | More than one listed droplet is the ambiguous-master error with that count and the tag. A result is a master address exactly when exactly one droplet is listed and both its address accessors succeed, and it is that droplet's private and public address. Any other error is a failed address accessor. |
| `Droplets.DiscoverFrom` | cloud/digitalocean/resources/droplet.go:110-150 | The poll count never exceeds 40. A timeout means all 40 polls were made. Any other outcome is decided by the last poll made, and that poll was not pending. |
| `Droplets.Discover` | cloud/digitalocean/resources/droplet.go:108-150 | At most 40 polls. Discovery fails for want of a master tag exactly when no pool is a Master pool, or the last Master pool in list order has an empty name, and then after zero polls. |
| `Droplets.DiscoverSettlesAtFirstDecisivePoll` | cloud/digitalocean/resources/droplet.go:120-146 | Errors and empty listings are retried. The first listing with droplets decides the outcome: more than one is the ambiguous-master error, exactly one gives the addresses. No poll follows it. |
| `Droplets.DiscoverTimesOutIffAllPending` | cloud/digitalocean/resources/droplet.go:110-131 | Discovery ends in "master IP not found" exactly when every one of the 40 polls failed or was empty, and only after all 40. |
| `Droplets.DiscoverMaster` | cloud/digitalocean/resources/droplet.go:108-150 | The loop's outcome and poll count equal `Discover`. It pauses 3 seconds after every pending poll: 3 × polls on a timeout, 3 × (polls − 1) when a listing decided. |
| `Droplets.RenderUpdatesOrAppends` | cloud/digitalocean/resources/droplet.go:228-245 | Every pool named like the resource gets its image, size and max count. Other pools are unchanged. If none matched, exactly one new pool is appended. Afterwards a pool with that name exists. |
| `Droplets.RenderIdempotent` | cloud/digitalocean/resources/droplet.go:225-247 | Rendering the same resource twice gives the same pool list as rendering it once. |
| `Droplets.Droplet.Render` | cloud/digitalocean/resources/droplet.go:225-248 | The pool list becomes `RenderPools` of the old list and the location becomes the resource's region. The same cluster is returned. |
| `Droplets.Droplet.Delete` | cloud/digitalocean/resources/droplet.go:201-223 | An empty name fails before any query. A listing error is returned. A count other than 1 is a DropletCount error. The delete call is made exactly when the listing by the receiver's name has one droplet; it receives that droplet's ID and its error is returned. |
| `Droplets.Droplet.Tag` | cloud/digitalocean/resources/droplet.go:250-252 | Tagging always succeeds. |
| `Kubeconfig.RemotePath` | cutil/kubeconfig/kubeconfig.go:23-28 | The remote path is `/root/.kube/config` exactly when the user is "root". |
| `Kubeconfig.RemotePathNamesUser` | cutil/kubeconfig/kubeconfig.go:26-27 | For any other user the path is `/home/` + user + `/.kube/config`, and the user can be read back from it. |
| `Kubeconfig.PrivateKeyPath` | cutil/kubeconfig/kubeconfig.go:20 | If ".pub" does not occur, the path is unchanged. Otherwise the path is 4 shorter and re-inserting ".pub" at the first occurrence gives the public path back. |
| `Kubeconfig.PrivateKeyOfPublicKey` | cutil/kubeconfig/kubeconfig.go:19-20 | For a key `k` with no ".pub" of its own, the public key path `k.pub` yields `k`. |
| `Strings.ReplaceFirst` | cutil/kubeconfig/kubeconfig.go:20 | Only the first occurrence is replaced. The text before and after it is kept. |
| `Strings.IndexOf` | cutil/kubeconfig/kubeconfig.go:108 | Returns a position where the pattern occurs with no earlier occurrence, or None when it occurs nowhere. |
| `Strings.ContainsIff` | cutil/kubeconfig/kubeconfig.go:108 | Contains holds exactly when the substring occurs at some position, and exactly when IndexOf finds it. |
| `Strings.MissingCharNotContained` | cutil/kubeconfig/kubeconfig.go:108 | A text lacking any one character of a pattern does not contain the pattern. |
| `Kubeconfig.Address` | cutil/kubeconfig/kubeconfig.go:21 | The address is the endpoint followed by ":22". |
| `Kubeconfig.GetSigner` | cutil/kubeconfig/kubeconfig.go:121-138 | If the passphrase-less parse succeeds, its signer is returned and no prompt happens. Otherwise the passphrase is read. A read error is returned; else the passphrase parse's result is returned. A signer results exactly when one of the two parses succeeds. |
| `Kubeconfig.FetchSucceeded` | cutil/kubeconfig/kubeconfig.go:37-76 | A fetch succeeds only if reading the key at the derived private-key path, the signer, dialling the derived address, the SFTP client and reading the derived remote path all succeed. |
| `Kubeconfig.Fetch` | cutil/kubeconfig/kubeconfig.go:37-76 | A failure to read the private key is returned before any network step. A successful fetch returns what reading the remote path gave. |
| `Kubeconfig.GetConfig` | cutil/kubeconfig/kubeconfig.go:17-97 | Any failure before the remote read completes returns that error and leaves the local file untouched. An absent file is first created empty. An open or write error is returned. On success the content is the old content (or nothing) followed by the fetched bytes. Existing content is never truncated. |
| `Kubeconfig.Retryable` | cutil/kubeconfig/kubeconfig.go:108 | An error is retried exactly when "file does not exist" or "getsockopt: connection refused" occurs at some position of its text. |
| `Kubeconfig.LacksMarkerLettersIsNotRetried` | cutil/kubeconfig/kubeconfig.go:108-117 | A message with no 'x' and no 'g', such as the SSH library's rejected-key error, is not retried. |
| `Kubeconfig.NonRetryableErrorEndsLoop` | cutil/kubeconfig/kubeconfig.go:105-117 | An error in which neither marker occurs ends the loop on that call and is the returned error. |
| `Kubeconfig.MissingFileIsRetried` | cutil/kubeconfig/kubeconfig.go:108 | An SFTP error of the form "open <path>: file does not exist" is retried, whatever the path. |
| `Kubeconfig.RetryFrom` | cutil/kubeconfig/kubeconfig.go:104-119 | At most 121 calls are made. A timeout means all 121 were made. Success ends on a successful call. A returned error is the last call's error and is not retryable. |
| `Kubeconfig.RetryOutcome.Error` | cutil/kubeconfig/kubeconfig.go:104-119 | The returned error is nil only after a successful write, and a timeout returns "Timedout writing kubeconfig". |
| `Kubeconfig.RetryStopsAtFirstFinal` | cutil/kubeconfig/kubeconfig.go:105-117 | Retryable errors are retried. The first success returns nil, and the first other error is returned. No call follows either. |
| `Kubeconfig.RetryTimesOutIffAllRetryable` | cutil/kubeconfig/kubeconfig.go:105-118 | The loop times out exactly when every call failed with a retryable error, and its error is then "Timedout writing kubeconfig". |
| `Kubeconfig.RetryGetConfig` | cutil/kubeconfig/kubeconfig.go:99-119 | The returned error and call count equal those of `RetryFrom`, and the call count is at most 121. It pauses 2 seconds after every retryable error: 2 × calls on a timeout, 2 × (calls − 1) otherwise. |

## Left out

- Network and provider I/O is replaced by inputs: godo's `ListByTag`, `Create` and `Delete`, and the droplet's `PrivateIPv4`/`PublicIPv4`. An address is the outcome of its accessor: `None` when the accessor returns an error, `Some("")` when it succeeds without an address of that kind. godo is not part of this model, so which droplets make an accessor fail is not modelled. List options and paging are not modelled.
- Droplet IDs are carried as their decimal text; `strconv.Itoa` is not part of this model.
- `compare.IsEqual`, `bootstrap.Asset`, `bootstrap.Inject` and `strconv.Atoi` are uninterpreted function parameters. Their source is not part of this model, so the equality comparator and the bootstrap injector have no properties of their own here.
- `time.Sleep` is modelled only as the number of seconds paused, returned by `DiscoverMaster` and `RetryGetConfig`. Logging is not modelled.
- Server pools are values in a sequence. In the source the droplet's `ServerPool` is a pointer that may alias an entry of the cluster's pool list, so Render's in-place update could also change the droplet's own pool. That aliasing is not modelled.
- `Delete`'s cluster argument, which the source does not use, is omitted.
- The cluster's substitution map is assumed allocated: the source panics when Apply writes into a nil `Values.ItemMap` or dereferences a nil `Values` (droplet.go:145, 153-154), and the model's map can always be written to.
- Errors are constructors of `Droplets.Error`, not formatted messages.
- `Shared` (the struct holding Name, CloudID and the caches) is not part of this model; its fields are inferred from their use in droplet.go.
- ssh and sftp: host-key handling, `SetDefaults` and the `Close` calls are not modelled. `c.Open` and `ioutil.ReadAll` are merged into one remote read.
- `local.Expand` and `local.Home` are left out: the public key path is used as given and the local file is a single `LocalFile` object. File permissions are not modelled.
- `Kubeconfig.GetConfig`: a failing `WriteString` is modelled as writing nothing, while a real partial write could append a prefix of the fetched bytes.
- `Kubeconfig.RetryGetConfig` consumes the abstract outcome of each `GetConfig` call. The local file effects of the failed attempts (an empty file created before a failed open) are modelled by `GetConfig` alone.
- Go's fixed-width `int` for counts is modelled as an unbounded `int`; no arithmetic is done on it.
- `apis/cluster/disk.go` is a plain attribute struct with no behaviour and is not modelled.
