/** The desired-state document that resources read and update. The Go definition of the
    cluster is not part of this model: the fields below are the ones the droplet
    reconciler and the kubeconfig retriever use. */
module ClusterModel {

  /** A pool's type: `ServerPoolType_Master`, `ServerPoolType_Node`, or any other text
      the cluster document carries, which is neither a master nor a node pool. `Other`
      never holds the spelling of the master or node type: those are `Master` and `Node`. */
  datatype PoolType = Master | Node | Other(kind: string)

  /** A named group of instances; its name is also the provider-side tag. */
  datatype ServerPool = ServerPool(
    poolType: PoolType,
    name: string,
    size: string,
    image: string,
    maxCount: int,
    identifier: string,
    bootstrapScript: string)

  /** The cluster, updated in place during a reconciliation pass: Apply writes the
      substitution map and the API endpoint, Render the pool list and the location. */
  class Cluster {
    var name: string
    var location: string
    // Ssh descriptor
    var sshUser: string
    var sshPublicKeyPath: string
    var sshFingerprint: string
    var sshIdentifier: string
    // KubernetesApi descriptor
    var endpoint: string
    var port: string
    var serverPools: seq<ServerPool>
    // Values.ItemMap, the substitution map handed to the bootstrap injector
    var itemMap: map<string, string>

    constructor (name: string, location: string, sshUser: string, sshPublicKeyPath: string,
                 sshFingerprint: string, sshIdentifier: string, endpoint: string, port: string,
                 serverPools: seq<ServerPool>, itemMap: map<string, string>)
      ensures this.name == name && this.location == location
      ensures this.sshUser == sshUser && this.sshPublicKeyPath == sshPublicKeyPath
      ensures this.sshFingerprint == sshFingerprint && this.sshIdentifier == sshIdentifier
      ensures this.endpoint == endpoint && this.port == port
      ensures this.serverPools == serverPools && this.itemMap == itemMap
    {
      this.name := name;
      this.location := location;
      this.sshUser := sshUser;
      this.sshPublicKeyPath := sshPublicKeyPath;
      this.sshFingerprint := sshFingerprint;
      this.sshIdentifier := sshIdentifier;
      this.endpoint := endpoint;
      this.port := port;
      this.serverPools := serverPools;
      this.itemMap := itemMap;
    }
  }
}
