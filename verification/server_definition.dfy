/**
 * The server definition sent to the provider on create: a fixed base record
 * plus every allow-listed configuration entry whose value is truthy, with
 * `image_id`, `vlan` and `private_vlan` resolved through provider lookups
 * that are given here as plain lists.
 */
module ServerDefinition {
  import opened Wrappers
  import opened Values

  /** The optional keys `create_server` copies, in the order it visits them. */
  const AllowList: seq<Key> := AllowedKeys()

  // Kept behind a function so that the verifier does not unfold the fill over the literal list.
  function AllowedKeys(): (keys: seq<Key>)
    ensures keys == [
      Username, Password, Port, Domain, Fqdn, Cpu, Ram, Disk, FlavorId, BareMetal, OsCode,
      ImageId, EphemeralStorage, NetworkComponents, AccountId, SingleTenant, GlobalIdentifier,
      Tags, UserData, Uid, Vlan, PrivateVlan, ProvisionScript
    ]
  {
    [ Username, Password, Port, Domain, Fqdn, Cpu, Ram, Disk, FlavorId, BareMetal, OsCode,
      ImageId, EphemeralStorage, NetworkComponents, AccountId, SingleTenant, GlobalIdentifier,
      Tags, UserData, Uid, Vlan, PrivateVlan, ProvisionScript ]
  }

  /** The keys `init_configuration` always sets. */
  const BaseKeys: set<Key> := {Name, KeyPairs, Datacenter, HourlyBillingFlag, PrivateNetworkOnly}

  /** The allow-listed keys whose value is rewritten rather than copied. */
  const ResolvedKeys: set<Key> := {ImageId, Vlan, PrivateVlan}

  type ServerDef = map<Key, Value>

  /** An entry of `compute.images.all` or `compute.images.private`. */
  datatype Image = Image(name: string, id: string)

  /** An entry of the `network.list_networks` response body. */
  datatype Network = Network(vlanNumber: Value, id: Value)

  /** What the provider answers to the lookups made while building a definition. */
  datatype Catalog = Catalog(keyPair: Value, publicImages: seq<Image>, privateImages: seq<Image>, networks: seq<Network>)

  /** `init_configuration`, with `key_pairs.by_label(key_name)` answered by `keyPair`. */
  function InitConfiguration(cfg: map<Key, Value>, keyPair: Value): (d: ServerDef)
    ensures d.Keys == BaseKeys
    ensures d[Name] == Lookup(cfg, ServerName) && d[KeyPairs] == List([keyPair])
    ensures forall k :: k in d && k != Name && k != KeyPairs ==> d[k] == Lookup(cfg, k)
  {
    map[
      Name := Lookup(cfg, ServerName),
      KeyPairs := List([keyPair]),
      Datacenter := Lookup(cfg, Datacenter),
      HourlyBillingFlag := Lookup(cfg, HourlyBillingFlag),
      PrivateNetworkOnly := Lookup(cfg, PrivateNetworkOnly)
    ]
  }

  // ---------------------------------------------------------------- image_id

  predicate IsLowerHex(c: char) {
    '0' <= c <= '9' || 'a' <= c <= 'f'
  }

  /** Position `k` of `[0-9a-f]{8}-[0-9a-f]{4}-[0-9a-f]{4}-[0-9a-f]{4}-[0-9a-f]{12}` accepts `c`. */
  predicate UuidCharAt(k: int, c: char) {
    if k == 8 || k == 13 || k == 18 || k == 23 then c == '-' else IsLowerHex(c)
  }

  /** The 36 characters of `s` from `i` on spell a lowercase UUID. */
  predicate UuidAt(s: string, i: nat) {
    i + 36 <= |s| && forall k :: i <= k < i + 36 ==> UuidCharAt(k - i, s[k])
  }

  /** Where Ruby's `^` matches: the start of the string and just after a newline. */
  predicate LineStart(s: string, i: nat) {
    i == 0 || (0 < i <= |s| && s[i - 1] == '\n')
  }

  /** Searches for a line start at or after `from` that a UUID follows. */
  function UuidSearch(s: string, from: nat): (found: bool)
    ensures found <==> exists i :: from <= i <= |s| && LineStart(s, i) && UuidAt(s, i)
    decreases |s| - from
  {
    if from > |s| then false
    else (LineStart(s, from) && UuidAt(s, from)) || UuidSearch(s, from + 1)
  }

  /** `s.match('^[0-9a-f]{8}-...-[0-9a-f]{12}')` is truthy. */
  predicate MatchesUuid(s: string) {
    UuidSearch(s, 0)
  }

  /** The pattern has no end anchor, and its `^` also matches after a newline. */
  lemma UuidMatchesAtLineStart(before: string, u: string, after: string)
    requires UuidAt(u, 0)
    ensures MatchesUuid(u + after)
    ensures MatchesUuid(before + "\n" + u + after)
  {
    var s := u + after;
    assert forall k :: 0 <= k < 36 ==> s[k] == u[k];
    assert UuidAt(s, 0) && LineStart(s, 0);
    var t := before + "\n" + u + after;
    var i := |before| + 1;
    assert t[i - 1] == '\n';
    assert forall k :: i <= k < i + 36 ==> t[k] == u[k - i];
    assert UuidAt(t, i) && LineStart(t, i);
  }

  /** The id of the last image in `images` named `name`. */
  function LastImage(images: seq<Image>, name: string): (r: Option<string>)
    ensures r.Some? <==> exists i :: 0 <= i < |images| && images[i].name == name
    ensures r.Some? ==> exists i :: (0 <= i < |images| && images[i].name == name && images[i].id == r.value
      && forall j :: i < j < |images| ==> images[j].name != name)
  {
    if images == [] then None
    else if images[|images| - 1].name == name then Some(images[|images| - 1].id)
    else
      var r := LastImage(images[..|images| - 1], name);
      assert forall i :: 0 <= i < |images| - 1 ==> images[..|images| - 1][i] == images[i];
      r
  }

  /** `find_image(name)`: a private image overrides a public one; within each list the last match wins. */
  function ImageLookup(name: string, publicImages: seq<Image>, privateImages: seq<Image>): (r: Result<string, Error>)
    ensures r.Err? <==> LastImage(publicImages, name).None? && LastImage(privateImages, name).None?
    ensures r.Err? ==> r.error == NoImageFound(name)
    ensures LastImage(privateImages, name).Some? ==> r == Ok(LastImage(privateImages, name).value)
    ensures LastImage(privateImages, name).None? && LastImage(publicImages, name).Some? ==>
      r == Ok(LastImage(publicImages, name).value)
  {
    match LastImage(privateImages, name)
    case Some(id) => Ok(id)
    case None =>
      match LastImage(publicImages, name)
      case Some(id) => Ok(id)
      case None => Err(NoImageFound(name))
  }

  /** `find_image`, as the source writes it: two passes that each overwrite `id` on every match. */
  method FindImage(name: string, publicImages: seq<Image>, privateImages: seq<Image>) returns (r: Result<string, Error>)
    ensures r == ImageLookup(name, publicImages, privateImages)
  {
    var id: Option<string> := None;
    var i := 0;
    while i < |publicImages|
      invariant 0 <= i <= |publicImages|
      invariant id == LastImage(publicImages[..i], name)
    {
      assert publicImages[..i + 1][..i] == publicImages[..i];
      if publicImages[i].name == name {
        id := Some(publicImages[i].id);
      }
      i := i + 1;
    }
    assert publicImages[..i] == publicImages;
    var j := 0;
    while j < |privateImages|
      invariant 0 <= j <= |privateImages|
      invariant id == if LastImage(privateImages[..j], name).Some? then LastImage(privateImages[..j], name)
                      else LastImage(publicImages, name)
    {
      assert privateImages[..j + 1][..j] == privateImages[..j];
      if privateImages[j].name == name {
        id := Some(privateImages[j].id);
      }
      j := j + 1;
    }
    assert privateImages[..j] == privateImages;
    if id.None? {
      return Err(NoImageFound(name));
    }
    r := Ok(id.value);
  }

  // ---------------------------------------------------------------- vlan

  /** `find_network(vlan)`: the id of the first network whose VLAN number equals `vlan`. */
  function NetworkFor(vlan: Value, networks: seq<Network>): (r: Result<Value, Error>)
    ensures r.Ok? <==> exists i :: 0 <= i < |networks| && networks[i].vlanNumber == vlan
    ensures r.Ok? ==> exists i :: (0 <= i < |networks| && networks[i].vlanNumber == vlan && networks[i].id == r.value
      && forall j :: 0 <= j < i ==> networks[j].vlanNumber != vlan)
    ensures r.Err? ==> r.error == NoNetworkFound(vlan)
  {
    if networks == [] then Err(NoNetworkFound(vlan))
    else if networks[0].vlanNumber == vlan then Ok(networks[0].id)
    else
      var r := NetworkFor(vlan, networks[1..]);
      assert forall i :: 1 <= i < |networks| ==> networks[1..][i - 1] == networks[i];
      r
  }

  /** `find_network`, as the source writes it: a scan that returns at the first match. */
  method FindNetwork(vlan: Value, networks: seq<Network>) returns (r: Result<Value, Error>)
    ensures r == NetworkFor(vlan, networks)
  {
    var i := 0;
    while i < |networks|
      invariant 0 <= i <= |networks|
      invariant NetworkFor(vlan, networks) == NetworkFor(vlan, networks[i..])
    {
      assert networks[i..][1..] == networks[i + 1..];
      if networks[i].vlanNumber == vlan {
        return Ok(networks[i].id);
      }
      i := i + 1;
    }
    r := Err(NoNetworkFound(vlan));
  }

  // ---------------------------------------------------------------- the definition

  /** `optional_config(c)`: the value stored under an allow-listed key `c`. */
  function OptionalConfig(cfg: map<Key, Value>, c: Key, cat: Catalog): (r: Result<Value, Error>)
    ensures r.Err? ==> c in ResolvedKeys
    ensures c == ImageId && r.Ok? ==> r.value.Str?
  {
    var v := Lookup(cfg, c);
    if c == Vlan || c == PrivateVlan then NetworkFor(v, cat.networks)
    else if c == ImageId then
      if !v.Str? then Err(NoMethod("match", v))
      else if MatchesUuid(v.s) then Ok(v)
      else
        match ImageLookup(v.s, cat.publicImages, cat.privateImages)
        case Ok(id) => Ok(Str(id))
        case Err(e) => Err(e)
    else Ok(v)
  }

  /** The keys of `keys` whose configured value is truthy. */
  function TruthyKeys(cfg: map<Key, Value>, keys: seq<Key>): set<Key> {
    set k | k in keys && Truthy(Lookup(cfg, k))
  }

  /** The loop of `create_server` over `keys`, starting from `def`; the first failing lookup raises. */
  function Fill(cfg: map<Key, Value>, cat: Catalog, keys: seq<Key>, def: ServerDef): (r: Result<ServerDef, Error>)
    ensures r.Ok? ==> def.Keys <= r.value.Keys
    ensures r.Err? ==> exists k :: k in keys && k in ResolvedKeys && Truthy(Lookup(cfg, k))
    decreases |keys|
  {
    if keys == [] then Ok(def)
    else if !Truthy(Lookup(cfg, keys[0])) then Fill(cfg, cat, keys[1..], def)
    else
      match OptionalConfig(cfg, keys[0], cat)
      case Err(e) => Err(e)
      case Ok(v) => Fill(cfg, cat, keys[1..], def[keys[0] := v])
  }

  /** The definition `create_server` hands to `compute.servers.create`, or what it raises. */
  function ServerDefinitionFor(cfg: map<Key, Value>, cat: Catalog): (r: Result<ServerDef, Error>)
    ensures r.Ok? ==> BaseKeys <= r.value.Keys
    ensures r.Err? ==> exists k :: k in ResolvedKeys && Truthy(Lookup(cfg, k))
  {
    Fill(cfg, cat, AllowList, InitConfiguration(cfg, cat.keyPair))
  }

  /** The loop of `create_server`: visit `keys` in order, storing the resolved value of every truthy one. */
  method FillDefinition(cfg: map<Key, Value>, cat: Catalog, keys: seq<Key>, def0: ServerDef) returns (r: Result<ServerDef, Error>)
    ensures r == Fill(cfg, cat, keys, def0)
  {
    var def := def0;
    var i := 0;
    while i < |keys|
      invariant 0 <= i <= |keys|
      invariant Fill(cfg, cat, keys, def0) == Fill(cfg, cat, keys[i..], def)
    {
      var c := keys[i];
      assert keys[i..][0] == c && keys[i..][1..] == keys[i + 1..];
      if Truthy(Lookup(cfg, c)) {
        var v := OptionalConfig(cfg, c, cat);
        if v.Err? {
          return Err(v.error);
        }
        def := def[c := v.value];
      }
      i := i + 1;
    }
    r := Ok(def);
  }

  /** `create_server` up to the provider call. */
  method CreateServer(cfg: map<Key, Value>, cat: Catalog) returns (r: Result<ServerDef, Error>)
    ensures r == ServerDefinitionFor(cfg, cat)
  {
    var def := InitConfiguration(cfg, cat.keyPair);
    r := FillDefinition(cfg, cat, AllowList, def);
  }

  /** No base key is on the allow-list, so no optional entry overwrites a base one. */
  lemma AllowListExcludesBase()
    ensures Name !in AllowList && KeyPairs !in AllowList && Datacenter !in AllowList
    ensures HourlyBillingFlag !in AllowList && PrivateNetworkOnly !in AllowList
  {
  }

  lemma AllowListIndexes()
    ensures |AllowList| == 23 && AllowList[4] == Fqdn && AllowList[11] == ImageId
    ensures AllowList[20] == Vlan && AllowList[21] == PrivateVlan
  {
  }

  /** What a successful fill holds: the starting keys plus every truthy key, each with its resolved value. */
  lemma {:induction false} FillOk(cfg: map<Key, Value>, cat: Catalog, keys: seq<Key>, def: ServerDef)
    requires Fill(cfg, cat, keys, def).Ok?
    ensures var d := Fill(cfg, cat, keys, def).value;
      && d.Keys == def.Keys + TruthyKeys(cfg, keys)
      && (forall k :: k in keys && Truthy(Lookup(cfg, k)) ==>
            OptionalConfig(cfg, k, cat).Ok? && d[k] == OptionalConfig(cfg, k, cat).value)
      && (forall k :: k in def && k !in TruthyKeys(cfg, keys) ==> d[k] == def[k])
    decreases |keys|
  {
    if keys != [] {
      var k0 := keys[0];
      assert forall k :: k in keys <==> k == k0 || k in keys[1..];
      if !Truthy(Lookup(cfg, k0)) {
        FillOk(cfg, cat, keys[1..], def);
      } else {
        FillOk(cfg, cat, keys[1..], def[k0 := OptionalConfig(cfg, k0, cat).value]);
      }
    }
  }

  /** A fill fails exactly when some truthy key fails to resolve, and it raises the error of the first one. */
  lemma {:induction false} FillErr(cfg: map<Key, Value>, cat: Catalog, keys: seq<Key>, def: ServerDef)
    ensures Fill(cfg, cat, keys, def).Err? <==>
      exists i :: 0 <= i < |keys| && Truthy(Lookup(cfg, keys[i])) && OptionalConfig(cfg, keys[i], cat).Err?
    ensures Fill(cfg, cat, keys, def).Err? ==>
      exists i :: 0 <= i < |keys| && Truthy(Lookup(cfg, keys[i]))
        && OptionalConfig(cfg, keys[i], cat) == Err(Fill(cfg, cat, keys, def).error)
        && forall j :: 0 <= j < i ==> !(Truthy(Lookup(cfg, keys[j])) && OptionalConfig(cfg, keys[j], cat).Err?)
    decreases |keys|
  {
    if keys != [] {
      var k0 := keys[0];
      assert forall i :: 1 <= i < |keys| ==> keys[1..][i - 1] == keys[i];
      if !Truthy(Lookup(cfg, k0)) {
        FillErr(cfg, cat, keys[1..], def);
      } else if OptionalConfig(cfg, k0, cat).Ok? {
        FillErr(cfg, cat, keys[1..], def[k0 := OptionalConfig(cfg, k0, cat).value]);
      }
    }
  }

  /** The server definition holds exactly the five base keys and the truthy allow-listed keys, and the base keys keep their base values. */
  lemma ServerDefinitionKeys(cfg: map<Key, Value>, cat: Catalog)
    requires ServerDefinitionFor(cfg, cat).Ok?
    ensures ServerDefinitionFor(cfg, cat).value.Keys == BaseKeys + TruthyKeys(cfg, AllowList)
    ensures forall k :: k in BaseKeys ==> ServerDefinitionFor(cfg, cat).value[k] == InitConfiguration(cfg, cat.keyPair)[k]
  {
    FillOk(cfg, cat, AllowList, InitConfiguration(cfg, cat.keyPair));
    AllowListExcludesBase();
  }

  /** Every truthy allow-listed key other than `image_id`, `vlan` and `private_vlan` carries its configured value unchanged. */
  lemma ServerDefinitionCopies(cfg: map<Key, Value>, cat: Catalog)
    requires ServerDefinitionFor(cfg, cat).Ok?
    ensures forall k :: k in AllowList && k !in ResolvedKeys && Truthy(Lookup(cfg, k)) ==>
      k in ServerDefinitionFor(cfg, cat).value && ServerDefinitionFor(cfg, cat).value[k] == cfg[k]
  {
    forall k | k in AllowList && k !in ResolvedKeys && Truthy(Lookup(cfg, k))
      ensures k in ServerDefinitionFor(cfg, cat).value && ServerDefinitionFor(cfg, cat).value[k] == cfg[k]
    {
      DefinitionEntry(cfg, cat, k);
      OptionalCopied(cfg, cat, k);
    }
  }

  /** A truthy `vlan` or `private_vlan` carries the id of the first network with that VLAN number. */
  lemma ServerDefinitionVlan(cfg: map<Key, Value>, cat: Catalog, k: Key)
    requires ServerDefinitionFor(cfg, cat).Ok?
    requires (k == Vlan || k == PrivateVlan) && Truthy(Lookup(cfg, k))
    ensures k in ServerDefinitionFor(cfg, cat).value
    ensures NetworkFor(cfg[k], cat.networks) == Ok(ServerDefinitionFor(cfg, cat).value[k])
  {
    AllowListIndexes();
    assert k in AllowList;
    DefinitionEntry(cfg, cat, k);
  }

  /** `optional_config(c)` on any key but the three resolved ones answers the configured value. */
  lemma OptionalCopied(cfg: map<Key, Value>, cat: Catalog, k: Key)
    requires k !in ResolvedKeys
    ensures OptionalConfig(cfg, k, cat) == Ok(Lookup(cfg, k))
  {
  }

  /** The definition names the server by the configured `server_name`. */
  lemma DefinitionName(cfg: map<Key, Value>, cat: Catalog)
    requires ServerDefinitionFor(cfg, cat).Ok?
    ensures Name in ServerDefinitionFor(cfg, cat).value
    ensures ServerDefinitionFor(cfg, cat).value[Name] == Lookup(cfg, ServerName)
  {
    ServerDefinitionKeys(cfg, cat);
    assert Name in BaseKeys;
  }

  /** A truthy `fqdn` is copied into the definition as it is. */
  lemma DefinitionFqdn(cfg: map<Key, Value>, cat: Catalog)
    requires ServerDefinitionFor(cfg, cat).Ok? && Truthy(Lookup(cfg, Fqdn))
    ensures Fqdn in ServerDefinitionFor(cfg, cat).value
    ensures ServerDefinitionFor(cfg, cat).value[Fqdn] == cfg[Fqdn]
  {
    FqdnAllowed();
    DefinitionEntry(cfg, cat, Fqdn);
    OptionalCopied(cfg, cat, Fqdn);
  }

  lemma FqdnAllowed()
    ensures Fqdn in AllowList && Fqdn !in ResolvedKeys
  {
    AllowListIndexes();
  }

  /** A truthy allow-listed key holds the value `optional_config` resolved for it. */
  lemma DefinitionEntry(cfg: map<Key, Value>, cat: Catalog, k: Key)
    requires ServerDefinitionFor(cfg, cat).Ok?
    requires k in AllowList && Truthy(Lookup(cfg, k))
    ensures k in ServerDefinitionFor(cfg, cat).value && OptionalConfig(cfg, k, cat).Ok?
    ensures ServerDefinitionFor(cfg, cat).value[k] == OptionalConfig(cfg, k, cat).value
  {
    FillEntry(cfg, cat, AllowList, InitConfiguration(cfg, cat.keyPair), k);
  }

  lemma FillEntry(cfg: map<Key, Value>, cat: Catalog, keys: seq<Key>, def: ServerDef, k: Key)
    requires Fill(cfg, cat, keys, def).Ok?
    requires k in keys && Truthy(Lookup(cfg, k))
    ensures k in Fill(cfg, cat, keys, def).value && OptionalConfig(cfg, k, cat).Ok?
    ensures Fill(cfg, cat, keys, def).value[k] == OptionalConfig(cfg, k, cat).value
  {
    FillOk(cfg, cat, keys, def);
  }

  /** `optional_config(:image_id)` on a string: a UUID is kept, any other string is looked up as an image name. */
  lemma OptionalImageId(cfg: map<Key, Value>, cat: Catalog, s: string)
    requires Lookup(cfg, ImageId) == Str(s)
    ensures MatchesUuid(s) ==> OptionalConfig(cfg, ImageId, cat) == Ok(Str(s))
    ensures !MatchesUuid(s) && ImageLookup(s, cat.publicImages, cat.privateImages).Ok? ==>
      OptionalConfig(cfg, ImageId, cat) == Ok(Str(ImageLookup(s, cat.publicImages, cat.privateImages).value))
    ensures !MatchesUuid(s) && ImageLookup(s, cat.publicImages, cat.privateImages).Err? ==>
      OptionalConfig(cfg, ImageId, cat) == Err(NoImageFound(s))
  {
  }

  /**
   * A string `image_id` that matches the UUID pattern is stored as it is; any other string is an image
   * name, replaced by the id `find_image` answers for it.
   */
  lemma ImageIdResolution(cfg: map<Key, Value>, cat: Catalog, s: string)
    requires Lookup(cfg, ImageId) == Str(s)
    requires ServerDefinitionFor(cfg, cat).Ok?
    ensures ImageId in ServerDefinitionFor(cfg, cat).value
    ensures MatchesUuid(s) ==> ServerDefinitionFor(cfg, cat).value[ImageId] == Str(s)
    ensures !MatchesUuid(s) ==> (ImageLookup(s, cat.publicImages, cat.privateImages).Ok?
      && ServerDefinitionFor(cfg, cat).value[ImageId] == Str(ImageLookup(s, cat.publicImages, cat.privateImages).value))
  {
    AllowListIndexes();
    assert ImageId in AllowList;
    DefinitionEntry(cfg, cat, ImageId);
    OptionalImageId(cfg, cat, s);
  }

  /** An `image_id` naming no image, public or private, makes the build raise `NoImageFound`. */
  lemma ImageIdUnknown(cfg: map<Key, Value>, cat: Catalog, s: string)
    requires Lookup(cfg, ImageId) == Str(s) && !MatchesUuid(s)
    requires LastImage(cat.publicImages, s).None? && LastImage(cat.privateImages, s).None?
    ensures ServerDefinitionFor(cfg, cat).Err?
  {
    AllowListIndexes();
    assert ImageId in AllowList;
    OptionalImageId(cfg, cat, s);
    if ServerDefinitionFor(cfg, cat).Ok? {
      DefinitionEntry(cfg, cat, ImageId);
    }
  }

  /** A truthy `image_id` that is not a string has no `match`, so the build raises. */
  lemma ImageIdNotString(cfg: map<Key, Value>, cat: Catalog)
    requires Truthy(Lookup(cfg, ImageId)) && !Lookup(cfg, ImageId).Str?
    ensures ServerDefinitionFor(cfg, cat).Err?
  {
    AllowListIndexes();
    assert ImageId in AllowList;
    if ServerDefinitionFor(cfg, cat).Ok? {
      DefinitionEntry(cfg, cat, ImageId);
    }
  }

  /** A `vlan` or `private_vlan` that no network carries makes the build raise `NoNetworkFound`. */
  lemma VlanUnknown(cfg: map<Key, Value>, cat: Catalog, k: Key)
    requires k == Vlan || k == PrivateVlan
    requires Truthy(Lookup(cfg, k))
    requires forall i :: 0 <= i < |cat.networks| ==> cat.networks[i].vlanNumber != Lookup(cfg, k)
    ensures ServerDefinitionFor(cfg, cat).Err?
  {
    AllowListIndexes();
    assert k in AllowList;
    if ServerDefinitionFor(cfg, cat).Ok? {
      DefinitionEntry(cfg, cat, k);
    }
  }
}
