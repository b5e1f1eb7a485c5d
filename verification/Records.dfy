/**
 The typed records of the keyval-db (v2/lens3/table.go) and the small result
 types shared by every module.  Times are unix seconds.
 */
module Records {

  datatype Option<+T> = None | Some(value: T)

  /** How a request or command ends.  `Fatal` is `panic(nil)` or a failed
      `assert_fatal`, which end the process; `Raised` is an exception, or a runtime
      panic such as a nil dereference, that is turned into an error response;
      `Rejected` is an ordinary error response. */
  datatype Status = Okay | Rejected(code: nat) | Raised(code: nat) | Fatal

  datatype BucketPolicy = PublicRW | PublicRO | PublicWO | PublicNone

  datatype SecretPolicy = KeyRW | KeyRO | KeyWO | KeyInternal

  datatype PoolState = Initial | Ready | Disabled | Suspended | Inoperable

  type Reason = string

  datatype User = User(uid: string, claim: string, groups: seq<string>,
                       enabled: bool, ephemeral: bool, expiration: int, timestamp: int)

  datatype Claim = Claim(uid: string, timestamp: int)

  datatype PoolName = PoolName(owner: string, timestamp: int)

  datatype Pool = Pool(pool: string, directory: string, owner: string, gid: string,
                       probeKey: string, expiration: int, enabled: bool,
                       inoperable: bool, reason: Reason, timestamp: int)

  datatype Directory = Directory(pool: string, directory: string, timestamp: int)

  datatype Bucket = Bucket(pool: string, bucket: string, policy: BucketPolicy,
                           expiration: int, timestamp: int)

  datatype Secret = Secret(pool: string, accessKey: string, secretKey: string,
                           policy: SecretPolicy, expiration: int, timestamp: int)

  datatype ApproxState = ApproxState(pool: string, state: PoolState, reason: Reason, timestamp: int)

  /** `net.JoinHostPort(host, port)`, or the empty string of a dummy record. */
  datatype Endpoint = NoEndpoint | HostPort(host: string, port: int)

  datatype Backend = Backend(pool: string, ep: Endpoint, state: PoolState,
                             rootAccess: string, rootSecret: string,
                             muxEp: string, timestamp: int)

  function Get<K, V>(m: map<K, V>, k: K): Option<V> {
    if k in m then Some(m[k]) else None
  }
}
