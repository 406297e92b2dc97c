/** Custody of the signing key (src/core/keyCustody.ts): a provider over a KMS, with
 *  rotation and a cache of every version it has seen. */
module KeyCustody {
  import opened Prelude

  datatype VersionedKey = VersionedKey(version: string, material: string)

  /** Key bytes by version, as the KMS issued them; a version keeps its bytes forever. */
  type Issued = string -> Option<string>

  /** Usable bytes: an empty key is refused. */
  function Usable(issued: Issued, version: string): Option<string> {
    match issued(version)
    case None => None
    case Some(material) => if material == "" then None else Some(material)
  }

  /** The KMS outside: it may be unreachable, and its latest version moves on. */
  class Kms {
    const issued: Issued
    var latest: string
    var reachable: bool

    constructor (issued: Issued, latest: string)
      ensures this.issued == issued && this.latest == latest && reachable
    {
      this.issued, this.latest, reachable := issued, latest, true;
    }

    function GetKey(version: Option<string>): Option<VersionedKey>
      reads this
    {
      var v := version.GetOr(latest);
      if !reachable || issued(v).None? then None else Some(VersionedKey(v, issued(v).value))
    }
  }

  class KmsKeyProvider {
    const client: Kms
    var cache: map<string, string>
    var currentVersion: string

    constructor (client: Kms, first: VersionedKey)
      requires Usable(client.issued, first.version) == Some(first.material)
      ensures Valid() && this.client == client
      ensures currentVersion == first.version && cache == map[first.version := first.material]
    {
      this.client := client;
      cache := map[first.version := first.material];
      currentVersion := first.version;
    }

    /** The provider for a key, or null when the KMS will not give the key. */
    static method Open(client: Kms, version: Option<string>) returns (provider: KmsKeyProvider?)
      ensures provider != null ==> fresh(provider) && provider.Valid() && provider.client == client
      ensures var v := if version.Some? then version.value else client.latest;
              && (provider != null <==> client.reachable && client.issued(v).Some? && client.issued(v).value != "")
              && (provider != null ==> provider.currentVersion == v && provider.cache == map[v := client.issued(v).value])
    {
      var key := client.GetKey(version);
      if key.None? || key.value.material == "" {
        return null;
      }
      provider := new KmsKeyProvider(client, key.value);
    }

    ghost predicate Valid()
      reads this
    {
      && currentVersion in cache
      && forall v :: v in cache ==> Usable(client.issued, v) == Some(cache[v])
    }

    /** What resolving a version answers now. */
    function Answer(version: string): Option<string>
      reads this, client
    {
      if version in cache then Some(cache[version])
      else if client.reachable then Usable(client.issued, version)
      else None
    }

    /** Fetch from the KMS and remember. */
    method Fetch(version: Option<string>) returns (key: Option<VersionedKey>)
      requires Valid()
      modifies this`cache
      ensures Valid()
      ensures key.Some? <==> client.reachable && Usable(client.issued, version.GetOr(client.latest)).Some?
      ensures key.Some? ==> key.value.version == version.GetOr(client.latest)
                            && Usable(client.issued, key.value.version) == Some(key.value.material)
      ensures cache == if key.Some? then old(cache)[key.value.version := key.value.material] else old(cache)
    {
      key := client.GetKey(version);
      if key.None? || key.value.material == "" {
        return None;
      }
      cache := cache[key.value.version := key.value.material];
    }

    /** Make the latest version current. No version is ever forgotten; when the KMS will
     *  not answer, nothing changes. */
    method Rotate() returns (next: Option<string>)
      requires Valid()
      modifies this
      ensures Valid()
      ensures next.Some? <==> client.reachable && client.issued(client.latest).Some? && client.issued(client.latest).value != ""
      ensures next.Some? ==> && next.value == client.latest == currentVersion
                             && cache == old(cache)[currentVersion := client.issued(currentVersion).value]
      ensures next.None? ==> currentVersion == old(currentVersion) && cache == old(cache)
      ensures forall v :: v in old(cache) ==> v in cache && cache[v] == old(cache)[v]
    {
      var key := Fetch(None);
      if key.None? {
        return None;
      }
      currentVersion := key.value.version;
      next := Some(key.value.version);
    }

    method Current() returns (key: VersionedKey)
      requires Valid()
      ensures key.version == currentVersion && key.material == cache[currentVersion]
    {
      key := VersionedKey(currentVersion, cache[currentVersion]);
    }

    /** A cached version answers without the KMS; looking one up changes no answer. */
    method Resolve(version: string) returns (key: Option<VersionedKey>)
      requires Valid()
      modifies this`cache
      ensures Valid()
      ensures key == match old(Answer(version)) { case None => None case Some(m) => Some(VersionedKey(version, m)) }
      ensures forall v :: Answer(v) == old(Answer(v))
    {
      if version in cache {
        return Some(VersionedKey(version, cache[version]));
      }
      key := Fetch(Some(version));
    }
  }
}
