/**
 * The values an ArtifactStore is made of: its key, its path style, Java's
 * 32-bit int, and the snapshot of the fields that writeExternal persists.
 */
module StoreTypes {
  import opened Wrappers

  /** Java's `int`: every int field and every `writeInt` stays in this range. */
  newtype int32 = x: int | -0x8000_0000 <= x < 0x8000_0000

  datatype StoreType = Hosted | Remote | Group

  /** Identity of a repository. Equality is component-wise. */
  datatype StoreKey = StoreKey(packageType: string, storeType: StoreType, name: string)

  /** The runtime class of a store, the one `getClass()` returns. */
  datatype StoreClass = RemoteRepositoryClass | HostedRepositoryClass | GroupClass

  /** How content paths are laid out in a store's storage. */
  datatype PathStyle = Plain | Hashed

  /** The enum constant's `name()`. */
  function PathStyleName(p: PathStyle): (r: string) {
    match p
    case Plain => "plain"
    case Hashed => "hashed"
  }

  /** `PathStyle.valueOf`: the constant with that name, or nothing (an IllegalArgumentException). */
  function PathStyleValueOf(s: string): (r: Option<PathStyle>)
    ensures forall p :: r == Some(p) <==> PathStyleName(p) == s
  {
    if s == "plain" then Some(Plain)
    else if s == "hashed" then Some(Hashed)
    else None
  }

  /**
   * The fields writeExternal writes, in their raw (possibly null) form.
   * The transient metadata is not among them.
   */
  datatype Persisted = Persisted(
    key: Option<StoreKey>,
    description: Option<string>,
    metadata: Option<map<string, string>>,
    disabled: bool,
    disableTimeout: int32,
    pathStyle: Option<PathStyle>,
    pathMaskPatterns: Option<set<string>>,
    authoritativeIndex: Option<bool>,
    createTime: Option<string>,
    rescanInProgress: Option<bool>)
}
