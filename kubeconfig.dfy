/** The kubeconfig retriever (cutil/kubeconfig/kubeconfig.go): it fetches the cluster's
    generated kubeconfig from the master over SSH/SFTP, appends it to the local
    kubeconfig, and retries while the master is still booting. The SSH and SFTP
    libraries, the terminal and the file system are inputs: the outcome of each call. */
module Kubeconfig {
  import opened Results
  import opened Strings
  import opened ClusterModel

  type Bytes = seq<bv8>

  /** Attempts after the first one, and the pause before each of them. */
  const RetryAttempts: nat := 120
  const RetrySleepSeconds: nat := 2

  const SshPort: string := "22"
  const TimeoutMessage: string := "Timedout writing kubeconfig"
  const FileMissing: string := "file does not exist"
  const ConnectionRefused: string := "getsockopt: connection refused"

  // ---------------------------------------------------------------------------------
  // Paths and address

  /** Where the kubeconfig lives on the master: root's home for "root", /home/<user>
      for everyone else. */
  function RemotePath(user: string): (p: string)
    ensures p == "/root/.kube/config" <==> user == "root"
  {
    if user == "root" then "/root/.kube/config" else "/home/" + user + "/.kube/config"
  }

  /** For every other user the path names that user's home directory. */
  lemma RemotePathNamesUser(user: string)
    requires user != "root"
    ensures var p := RemotePath(user);
      && |p| == |user| + 19
      && p[..6] == "/home/" && p[6..6 + |user|] == user && p[6 + |user|..] == "/.kube/config"
  {
  }

  /** The private key's path: the public key's path with its first ".pub" removed. */
  function PrivateKeyPath(publicKeyPath: string): (r: string)
    ensures IndexOf(publicKeyPath, ".pub").None? ==> r == publicKeyPath
    ensures IndexOf(publicKeyPath, ".pub").Some? ==>
      var i := IndexOf(publicKeyPath, ".pub").value;
      |r| == |publicKeyPath| - 4 && r[..i] + ".pub" + r[i..] == publicKeyPath
  {
    ReplaceFirst(publicKeyPath, ".pub", "")
  }

  /** The usual layout, a key pair `k` and `k.pub`, yields `k` back. */
  lemma PrivateKeyOfPublicKey(key: string)
    requires IndexOf(key, ".pub").None?
    ensures PrivateKeyPath(key + ".pub") == key
  {
    var pub := key + ".pub";
    FirstOccurrenceIsAppended(key, ".pub");
    assert pub[..|key|] == key;
    assert pub[|key| + 4..] == [];
  }

  /** The SSH address of the cluster's API endpoint. */
  function Address(endpoint: string): (a: string)
    ensures |a| == |endpoint| + 3 && a[..|endpoint|] == endpoint && a[|endpoint|..] == ":" + SshPort
  {
    endpoint + ":" + SshPort
  }

  // ---------------------------------------------------------------------------------
  // Signer

  /** The signer (or the error) GetSigner returns, and whether it prompted for a
      passphrase. */
  datatype SignerOutcome<S> = SignerOutcome(signer: Result<S, string>, prompted: bool)

  /** Parses the key without a passphrase; only if that fails, reads a passphrase from
      the terminal and parses with it. */
  function GetSigner<S>(pem: Bytes, parse: Bytes -> Result<S, string>, readPassword: Result<Bytes, string>,
                        parseWithPassphrase: (Bytes, Bytes) -> Result<S, string>): (o: SignerOutcome<S>)
    ensures parse(pem).Ok? ==> o.signer == parse(pem) && !o.prompted
    ensures parse(pem).Err? ==> o.prompted
    ensures parse(pem).Err? && readPassword.Err? ==> o.signer == Err(readPassword.error)
    ensures parse(pem).Err? && readPassword.Ok? ==> o.signer == parseWithPassphrase(pem, readPassword.value)
    ensures o.signer.Ok? <==>
      parse(pem).Ok? || (readPassword.Ok? && parseWithPassphrase(pem, readPassword.value).Ok?)
  {
    match parse(pem)
    case Ok(signer) => SignerOutcome(Ok(signer), false)
    case Err(_) =>
      match readPassword
      case Err(e) => SignerOutcome(Err(e), true)
      case Ok(passPhrase) => SignerOutcome(parseWithPassphrase(pem, passPhrase), true)
  }

  // ---------------------------------------------------------------------------------
  // One retrieval

  /** The outcomes of the calls GetConfig makes before it touches the local file:
      reading the private key, the two parses and the passphrase prompt, dialling
      `address` as `user` with a signer, opening the SFTP client, and opening and
      reading a remote file. */
  datatype Session<!S> = Session(
    readKey: string -> Result<Bytes, string>,
    parse: Bytes -> Result<S, string>,
    readPassword: Result<Bytes, string>,
    parseWithPassphrase: (Bytes, Bytes) -> Result<S, string>,
    dial: (string, string, S) -> Option<string>,
    openSftp: Option<string>,
    readRemote: string -> Result<Bytes, string>)

  /** The remote half of GetConfig: the fetched kubeconfig, or the first error. */
  function Fetch<S>(user: string, publicKeyPath: string, endpoint: string, s: Session<S>): (r: Result<Bytes, string>)
    ensures s.readKey(PrivateKeyPath(publicKeyPath)).Err? ==> r == Err(s.readKey(PrivateKeyPath(publicKeyPath)).error)
    ensures r.Ok? ==> r == s.readRemote(RemotePath(user))
  {
    match s.readKey(PrivateKeyPath(publicKeyPath))
    case Err(e) => Err(e)
    case Ok(pem) =>
      match GetSigner(pem, s.parse, s.readPassword, s.parseWithPassphrase).signer
      case Err(e) => Err(e)
      case Ok(signer) =>
        match s.dial(Address(endpoint), user, signer)
        case Some(e) => Err(e)
        case None =>
          match s.openSftp
          case Some(e) => Err(e)
          case None => s.readRemote(RemotePath(user))
  }

  /** A fetch succeeds only when every step did, on the derived key path, address and
      remote path. */
  lemma FetchSucceeded<S>(user: string, publicKeyPath: string, endpoint: string, s: Session<S>)
    requires Fetch(user, publicKeyPath, endpoint, s).Ok?
    ensures s.readKey(PrivateKeyPath(publicKeyPath)).Ok?
    ensures var pem := s.readKey(PrivateKeyPath(publicKeyPath)).value;
      var signer := GetSigner(pem, s.parse, s.readPassword, s.parseWithPassphrase).signer;
      && signer.Ok?
      && s.dial(Address(endpoint), user, signer.value).None?
      && s.openSftp.None?
      && s.readRemote(RemotePath(user)) == Fetch(user, publicKeyPath, endpoint, s)
  {
  }

  /** The local kubeconfig file. */
  class LocalFile {
    var present: bool
    var content: Bytes

    constructor (present: bool, content: Bytes)
      ensures this.present == present && this.content == content
    {
      this.present := present;
      this.content := content;
    }
  }

  /** The outcomes of the local file operations: creating the empty file when it is
      absent, opening it for appending, and writing to it. */
  datatype LocalIo = LocalIo(create: Option<string>, open: Option<string>, write: Option<string>)

  /** One retrieval: fetch the remote kubeconfig, then append it to the local file,
      creating that file first when it is absent. */
  method GetConfig<S>(existing: Cluster, s: Session<S>, io: LocalIo, local: LocalFile) returns (err: Option<string>)
    modifies local
    ensures var fetched := Fetch(existing.sshUser, existing.sshPublicKeyPath, existing.endpoint, s);
      && (fetched.Err? ==> err == Some(fetched.error) && unchanged(local))
      && (fetched.Ok? && !old(local.present) && io.create.Some? ==> err == io.create && unchanged(local))
      && (fetched.Ok? && (old(local.present) || io.create.None?) ==>
            && local.present
            && (io.open.Some? ==> err == io.open)
            && (io.open.None? ==> err == io.write)
            && local.content == (if old(local.present) then old(local.content) else [])
                                + (if err.None? then fetched.value else []))
    ensures old(local.present) ==> local.present && old(local.content) <= local.content
    ensures err.None? ==>
      var fetched := Fetch(existing.sshUser, existing.sshPublicKeyPath, existing.endpoint, s);
      fetched.Ok? && |fetched.value| <= |local.content|
      && local.content[|local.content| - |fetched.value|..] == fetched.value
  {
    var fetched := Fetch(existing.sshUser, existing.sshPublicKeyPath, existing.endpoint, s);
    if fetched.Err? {
      return Some(fetched.error);
    }
    if !local.present {
      if io.create.Some? {
        return io.create;
      }
      local.present, local.content := true, [];
    }
    if io.open.Some? {
      return io.open;
    }
    if io.write.Some? {
      return io.write;
    }
    local.content := local.content + fetched.value;
    err := None;
  }

  // ---------------------------------------------------------------------------------
  // Retrying

  /** An error that means the master is still booting: one whose text has one of the two
      markers in it, at some position. */
  predicate Retryable(msg: string): (b: bool)
    ensures b <==> exists j :: 0 <= j <= |msg| && (OccursAt(msg, FileMissing, j) || OccursAt(msg, ConnectionRefused, j))
  {
    ContainsIff(msg, FileMissing);
    ContainsIff(msg, ConnectionRefused);
    Contains(msg, FileMissing) || Contains(msg, ConnectionRefused)
  }

  /** A message without an 'x', which "file does not exist" needs, and without a 'g',
      which "getsockopt: connection refused" needs, is not retried. The SSH library's
      report of a rejected key ("ssh: handshake failed: ssh: unable to authenticate, ...")
      is one. */
  lemma LacksMarkerLettersIsNotRetried(msg: string)
    requires 'x' !in msg && 'g' !in msg
    ensures !Retryable(msg)
  {
    MissingCharNotContained(msg, FileMissing, 15);
    MissingCharNotContained(msg, ConnectionRefused, 0);
  }

  /** An error without either marker ends the loop at once and is returned. */
  lemma NonRetryableErrorEndsLoop(outcomes: seq<Option<string>>, i: nat, msg: string)
    requires i <= RetryAttempts < |outcomes|
    requires outcomes[i] == Some(msg)
    requires forall j :: 0 <= j <= |msg| ==> !OccursAt(msg, FileMissing, j) && !OccursAt(msg, ConnectionRefused, j)
    ensures RetryFrom(outcomes, i) == (Failed(msg), i + 1)
    ensures RetryFrom(outcomes, i).0.Error() == Some(msg)
  {
  }

  /** The SFTP error for a remote file that is not there yet is retried. */
  lemma MissingFileIsRetried(path: string)
    ensures Retryable("open " + path + ": " + FileMissing)
  {
    var msg := "open " + path + ": " + FileMissing;
    assert msg[|msg| - |FileMissing|..] == FileMissing;
    OccursThenContains(msg, FileMissing, |msg| - |FileMissing|);
  }

  /** How RetryGetConfig ends. */
  datatype RetryOutcome = Written | Failed(msg: string) | TimedOut {
    /** The error RetryGetConfig returns: nil only after a successful write. */
    function Error(): (e: Option<string>)
      ensures e.None? <==> this == Written
      ensures this == TimedOut ==> e == Some(TimeoutMessage)
    {
      match this
      case Written => None
      case Failed(msg) => Some(msg)
      case TimedOut => Some(TimeoutMessage)
    }
  }

  /** The retry loop from attempt `i` on, given the outcome of every GetConfig call
      (None for success): how it ends and how many calls were made by then. */
  function RetryFrom(outcomes: seq<Option<string>>, i: nat): (r: (RetryOutcome, nat))
    requires i <= RetryAttempts + 1 <= |outcomes|
    ensures i <= r.1 <= RetryAttempts + 1
    ensures r.0 == TimedOut ==> r.1 == RetryAttempts + 1
    ensures r.0 == Written ==> i < r.1 && outcomes[r.1 - 1] == None
    ensures r.0.Failed? ==> i < r.1 && outcomes[r.1 - 1] == Some(r.0.msg) && !Retryable(r.0.msg)
    decreases RetryAttempts + 1 - i
  {
    if i == RetryAttempts + 1 then (TimedOut, i)
    else
      match outcomes[i]
      case None => (Written, i + 1)
      case Some(msg) => if Retryable(msg) then RetryFrom(outcomes, i + 1) else (Failed(msg), i + 1)
  }

  /** An attempt outcome the loop does not retry. */
  predicate Final(o: Option<string>) {
    o.None? || !Retryable(o.value)
  }

  /** The first success or non-retryable error ends the loop, and no call follows it. */
  lemma {:induction false} RetryStopsAtFirstFinal(outcomes: seq<Option<string>>, i: nat, k: nat)
    requires i <= k <= RetryAttempts < |outcomes|
    requires forall j :: i <= j < k ==> !Final(outcomes[j])
    requires Final(outcomes[k])
    ensures RetryFrom(outcomes, i) == (if outcomes[k].None? then Written else Failed(outcomes[k].value), k + 1)
    decreases k - i
  {
    if i < k {
      RetryStopsAtFirstFinal(outcomes, i + 1, k);
    }
  }

  /** The loop times out exactly when every remaining call failed with a retryable
      error. */
  lemma {:induction false} RetryTimesOutIffAllRetryable(outcomes: seq<Option<string>>, i: nat)
    requires i <= RetryAttempts + 1 <= |outcomes|
    ensures RetryFrom(outcomes, i).0 == TimedOut <==> forall j :: i <= j <= RetryAttempts ==> !Final(outcomes[j])
    ensures (forall j :: i <= j <= RetryAttempts ==> !Final(outcomes[j])) ==>
      RetryFrom(outcomes, i).0.Error() == Some(TimeoutMessage)
    decreases RetryAttempts + 1 - i
  {
    if i <= RetryAttempts {
      RetryTimesOutIffAllRetryable(outcomes, i + 1);
    }
  }

  /** Calls GetConfig (here: consumes the next outcome) until it succeeds, fails with an
      error that is not retryable, or RetryAttempts + 1 calls have been made. It pauses
      after every retryable error: `waited` is the number of seconds it paused. */
  method RetryGetConfig(outcomes: seq<Option<string>>) returns (err: Option<string>, calls: nat, waited: nat)
    requires RetryAttempts + 1 <= |outcomes|
    ensures err == RetryFrom(outcomes, 0).0.Error() && calls == RetryFrom(outcomes, 0).1
    ensures calls <= RetryAttempts + 1
    ensures waited == RetrySleepSeconds * (if RetryFrom(outcomes, 0).0 == TimedOut then calls else calls - 1)
  {
    var i := 0;
    waited := 0;
    while i <= RetryAttempts
      invariant i <= RetryAttempts + 1
      invariant RetryFrom(outcomes, 0) == RetryFrom(outcomes, i)
      invariant waited == RetrySleepSeconds * i
    {
      var outcome := outcomes[i];
      if outcome.Some? {
        if Contains(outcome.value, FileMissing) || Contains(outcome.value, ConnectionRefused) {
          waited := waited + RetrySleepSeconds;
          i := i + 1;
          continue;
        }
        return Some(outcome.value), i + 1, waited;
      }
      return None, i + 1, waited;
    }
    return Some(TimeoutMessage), RetryAttempts + 1, waited;
  }
}
