# kitchen-softlayer driver core, modelled in Dafny

This project models the decision logic of the Test Kitchen driver for
SoftLayer, `Kitchen::Driver::Softlayer` in `lib/kitchen/driver/softlayer.rb`.
The logic covers four pieces:

- how a server name is chosen and generated;
- how the server definition sent to the provider is assembled from the
  configuration;
- which address Test Kitchen connects to once the server exists;
- how `create` and `destroy` update the instance state, including the two
  counted retry loops.

The provider client and the SSH library are replaced by inputs:

- `Naming.Identity` gives `instance.name`, `Etc.getlogin` and
  `Socket.gethostname`.
- `Naming.Draws` gives the seven `rand(36)` results and the eight picks of
  `sample(8)`.
- `ServerDefinition.Catalog` answers the key-pair, image and network lookups.
- `Kitchen.Server` describes the server `compute.servers.create` returns. Its
  id is read right after the create call. Its addresses are the ones the
  server holds once `server.wait_for { ready? }` has refreshed it, which is
  when `get_ip` reads them.
- Two oracles `nat -> bool` answer each poll: is the server gone, does SSH
  accept the key.

Configuration and state are Ruby hashes keyed by symbols. Here they are
`map<Key, Value>`, where `Value` is the subset of Ruby values the driver
handles (nil, booleans, integers, strings, arrays). Reading a missing key
gives `Nil`.

The configuration map is the one the driver reads, with the `default_config`
values of `lib/kitchen/driver/softlayer.rb` already applied. The model does
not put them in; the caller passes a map that holds them. Several defaults
change what the core does:

- `destroy_wait` is `true`, so `destroy` polls unless it is switched off.
- `destroy_timeout` and `ssh_timeout` are `300`, giving 20 delete polls and
  300 SSH attempts.
- `tags` is declared twice; the later default `[]` replaces the earlier
  `nil`. `[]` is truthy, so `tags` is always in the definition.
- `username` is `'root'`, `port` is `'22'` and `hourly_billing_flag` is
  `true`, so these are always set.
- `disable_ssl_validation`, `bare_metal`, `single_tenant`,
  `private_network_only`, `use_private_ip_with_public_network` and
  `ssh_via_hostname` are `false`.
- `ssh_key` is the first of `~/.ssh/id_rsa` and `~/.ssh/id_dsa` that exists
  on disk, or `nil`. `create` copies it into `state[:ssh_key]`.
- `connect_timeout`, `read_timeout` and `write_timeout` are `120`. No code in
  `softlayer.rb` reads them.
- `domain`, `datacenter`, `softlayer_username`, `softlayer_api_key`,
  `softlayer_default_datacenter` and `softlayer_default_domain` come from the
  environment.
- Every other key defaults to `nil`.

The model keeps Ruby's own conventions where the code depends on them:

- Truthiness: only `nil` and `false` are falsy, so `[]`, `""` and `0` count as
  set.
- `\w` is ASCII `[A-Za-z0-9_]`.
- `to_i` of nil, integers and strings (leading blanks, sign, digits with
  single underscores). Calling `to_i` on anything else raises.
- `to_s` for string interpolation.
- Negative array indexes count from the end.
- `^` in the `image_id` pattern also matches after a newline, and the pattern
  has no end anchor.
- Integer division `/ 15` floors, which equals Dafny's `/` for this positive
  divisor.
- `n.times` with a negative `n` runs no iteration.

The modules, one per file:

- `wrappers.dfy`: `Option`, `Result`, `Outcome`.
- `values.dfy`: Ruby values, symbols, truthiness, `to_i`, `to_s`, errors.
- `words.dfy`: `\w`, `gsub(/\W/, '')`, `s[0..n-1]`, `join` and its inverse.
- `naming.dfy`: `default_name`, `server_name_prefix`, the `config_server_name`
  rule.
- `server_definition.dfy`: `init_configuration`, `optional_config`,
  `find_image`, `find_network`, `create_server`.
- `host_selection.dfy`: `parse_ips`, `get_ip`, the hostname choice in `create`.
- `polling.dfy`: `wait_for_server_to_delete`, `wait_for_ssh_key_access`.
- `driver.dfy`: the driver class with its configuration hash, the instance
  state hash, `config_server_name`, `create`, `destroy`.

Three behaviours of the code are worth stating plainly:

- Image names: `find_image` scans the public list and then the private list
  to the end, and every match overwrites the previous one. So the last match
  wins, and a private match overrides a public one (`ServerDefinition.ImageLookup`).
- Prefix stripping: `gsub(/\W/, '')` removes only non-word characters, so `_`
  is kept.
- Image pattern: the `image_id` pattern is anchored only by `^`, which also
  matches after a newline, and it has no end anchor. A value with a UUID at
  the start of any line passes (`ServerDefinition.UuidMatchesAtLineStart`).

## Model

| member | source | states |
|---|---|---|
| Values.ToI | lib/kitchen/driver/softlayer.rb:139 | `to_i` fails exactly on booleans and arrays; an integer converts to itself |
| Values.DecimalRoundTrip | lib/kitchen/driver/softlayer.rb:139 | a timeout given as an integer or as its decimal string has the same `to_i` |
| Words.StripNonWord | lib/kitchen/driver/softlayer.rb:301-303 | the stripped string holds only word characters and is no longer than the input |
| Words.StripKeepsWordChars | lib/kitchen/driver/softlayer.rb:301-303 | stripping keeps every word character as often as it occurs and drops every other character |
| Words.StripConcat | lib/kitchen/driver/softlayer.rb:301-303 | stripping a concatenation is the concatenation of the stripped parts, so kept characters stay in order |
| Words.StripFixedPoint | lib/kitchen/driver/softlayer.rb:323 | `gsub!` leaves a string unchanged exactly when it is all word characters |
| Words.Truncate | lib/kitchen/driver/softlayer.rb:301-303 | for a positive budget `n`, `s[0..n-1]` is the first `n` characters, or the whole string when it is shorter |
| Words.SplitJoin | lib/kitchen/driver/softlayer.rb:300-305 | joining parts free of `-` with `-` and splitting at `-` gives back the parts |
| Naming.Lowercase | lib/kitchen/driver/softlayer.rb:329 | `('a'..'z').to_a` has 26 letters |
| Naming.LowercaseDistinct | lib/kitchen/driver/softlayer.rb:329 | those letters are distinct and lowercase |
| Naming.Base36Char | lib/kitchen/driver/softlayer.rb:304 | `rand(36).to_s(36)` is one character of `[0-9a-z]` |
| Naming.RandomSuffix | lib/kitchen/driver/softlayer.rb:304 | the random part has one base-36 word character per draw |
| Naming.NamePart | lib/kitchen/driver/softlayer.rb:301-303 | a component is the first `budget` characters of the stripped text, or all of it when it is shorter; all word characters |
| Naming.JoinFour | lib/kitchen/driver/softlayer.rb:300-305 | joining four parts of word characters and `-` gives such a string |
| Naming.DefaultName | lib/kitchen/driver/softlayer.rb:299-306 | the default name has at most 63 characters, all word characters or `-` |
| Naming.DefaultNameShape | lib/kitchen/driver/softlayer.rb:299-306 | the default name splits at `-` into exactly: instance name cut to 15, login or `nologin` cut to 15, host name cut to 23, seven base-36 characters |
| Naming.RemoveAt | lib/kitchen/driver/softlayer.rb:329 | taking one letter out of the pool leaves only pool letters, still distinct, without the one taken |
| Naming.Sample | lib/kitchen/driver/softlayer.rb:329 | `sample(8)` gives 8 letters of the pool, distinct when the pool is |
| Naming.SuffixedShape | lib/kitchen/driver/softlayer.rb:330 | prefix, `-`, 8 distinct lowercase letters: at most 63 characters of word characters and `-` |
| Naming.PrefixedName | lib/kitchen/driver/softlayer.rb:308-331 | a prefix over 54 characters is cut before stripping; an empty stripped prefix gives the default name; otherwise the name is the prefix, `-`, 8 distinct lowercase letters; the caller's string afterwards holds the stripped prefix unless the cut copied it; the name has at most 63 word characters or `-` |
| Naming.NamedConfig | lib/kitchen/driver/softlayer.rb:128-136 | an explicit name is kept; without one a truthy prefix is used, else the default name; the call raises exactly when the prefix is truthy and not a string; only `server_name` and the prefix entry change |
| ServerDefinition.AllowedKeys | lib/kitchen/driver/softlayer.rb:236-260 | the 23 optional keys, in the order `create_server` visits them |
| ServerDefinition.AllowListExcludesBase | lib/kitchen/driver/softlayer.rb:236-275 | no base key is allow-listed, so optional entries never overwrite base entries |
| ServerDefinition.InitConfiguration | lib/kitchen/driver/softlayer.rb:267-275 | the base definition has exactly the five base keys, with the configured name, the key pair in a list, and the three configured values |
| ServerDefinition.UuidSearch | lib/kitchen/driver/softlayer.rb:284 | the search succeeds exactly when some line start is followed by a lowercase `8-4-4-4-12` UUID |
| ServerDefinition.UuidMatchesAtLineStart | lib/kitchen/driver/softlayer.rb:284 | a UUID followed by anything, or placed after a newline, matches |
| ServerDefinition.LastImage | lib/kitchen/driver/softlayer.rb:199-204 | a scan finds an id exactly when some image has the name, and it is the id of the last such image |
| ServerDefinition.ImageLookup | lib/kitchen/driver/softlayer.rb:196-214 | a private match wins over a public one; with no match either way it raises `NoImageFound` |
| ServerDefinition.FindImage | lib/kitchen/driver/softlayer.rb:196-214 | the two overwriting loops compute exactly `ImageLookup` |
| ServerDefinition.NetworkFor | lib/kitchen/driver/softlayer.rb:216-225 | the id of the first network with the VLAN number; it raises exactly when none has it |
| ServerDefinition.FindNetwork | lib/kitchen/driver/softlayer.rb:216-225 | the early-return loop computes exactly `NetworkFor` |
| ServerDefinition.FillOk | lib/kitchen/driver/softlayer.rb:236-262 | a successful fill adds exactly the truthy keys, each with its resolved value, and keeps every other entry |
| ServerDefinition.OptionalConfig | lib/kitchen/driver/softlayer.rb:277-289 | only `image_id`, `vlan` and `private_vlan` can raise; a resolved `image_id` is a string (see `OptionalCopied`, `OptionalImageId`) |
| ServerDefinition.Fill | lib/kitchen/driver/softlayer.rb:236-262 | the fill keeps every starting key, and it raises only when some truthy visited key is one of the three resolved keys (see `FillOk`, `FillErr`) |
| ServerDefinition.ServerDefinitionFor | lib/kitchen/driver/softlayer.rb:227-265 | the definition holds at least the five base keys, and building it raises only when `image_id`, `vlan` or `private_vlan` is set (see `ServerDefinitionKeys`) |
| ServerDefinition.FillErr | lib/kitchen/driver/softlayer.rb:236-262 | a fill raises exactly when some truthy key fails to resolve, with the error of the first such key |
| ServerDefinition.FillDefinition | lib/kitchen/driver/softlayer.rb:236-262 | the loop over the allow-list computes exactly the fill |
| ServerDefinition.CreateServer | lib/kitchen/driver/softlayer.rb:227-265 | `create_server` hands over `ServerDefinitionFor` of the configuration |
| ServerDefinition.ServerDefinitionKeys | lib/kitchen/driver/softlayer.rb:227-275 | the definition's keys are exactly the base keys plus the truthy allow-listed keys; base entries keep their base values |
| ServerDefinition.ServerDefinitionCopies | lib/kitchen/driver/softlayer.rb:277-289 | every truthy allow-listed key except `image_id`, `vlan` and `private_vlan` is copied unchanged |
| ServerDefinition.ServerDefinitionVlan | lib/kitchen/driver/softlayer.rb:279-282 | `vlan` and `private_vlan` hold the id `find_network` gives for their number |
| ServerDefinition.DefinitionEntry | lib/kitchen/driver/softlayer.rb:261 | every truthy allow-listed key holds its `optional_config` value |
| ServerDefinition.OptionalCopied | lib/kitchen/driver/softlayer.rb:286-288 | `optional_config` on any other key answers the configured value |
| ServerDefinition.OptionalImageId | lib/kitchen/driver/softlayer.rb:283-285 | a string `image_id` is kept when it matches the pattern and otherwise looked up by name |
| ServerDefinition.ImageIdResolution | lib/kitchen/driver/softlayer.rb:283-285 | in the definition, a matching `image_id` is stored with no lookup; any other string becomes the id `find_image` answers |
| ServerDefinition.ImageIdUnknown | lib/kitchen/driver/softlayer.rb:212 | an image name that no image carries makes the build raise |
| ServerDefinition.ImageIdNotString | lib/kitchen/driver/softlayer.rb:284 | a truthy non-string `image_id` makes the build raise |
| ServerDefinition.VlanUnknown | lib/kitchen/driver/softlayer.rb:224 | a VLAN number that no network carries makes the build raise |
| ServerDefinition.DefinitionName | lib/kitchen/driver/softlayer.rb:269 | the definition's `name` is the configured `server_name` |
| ServerDefinition.DefinitionFqdn | lib/kitchen/driver/softlayer.rb:241 | a truthy `fqdn` is copied into the definition |
| HostSelection.OfFamily | lib/kitchen/driver/softlayer.rb:356-360 | filtering never lengthens the list |
| HostSelection.OfFamilyMembers | lib/kitchen/driver/softlayer.rb:356-360 | an address survives exactly when it is listed and of the configured family |
| HostSelection.OfFamilyConcat | lib/kitchen/driver/softlayer.rb:357-359 | filtering a concatenation is the concatenation of the filtered parts, so kept addresses stay in order |
| HostSelection.OfFamilyHead | lib/kitchen/driver/softlayer.rb:357-359 | the filtered list is empty exactly when no address is in the family; otherwise its first element is the list's first address in the family |
| HostSelection.OfFamilyIdempotent | lib/kitchen/driver/softlayer.rb:356-360 | filtering twice is filtering once |
| HostSelection.OfFamilyKeepsFamily | lib/kitchen/driver/softlayer.rb:356-360 | a list already of the family is unchanged |
| HostSelection.SelectInPlace | lib/kitchen/driver/softlayer.rb:357-359 | `select!` leaves exactly the filtered list, in order, at the front of the array |
| HostSelection.ParseIps | lib/kitchen/driver/softlayer.rb:353-362 | both fields, read with `Array()`, come back filtered to IPv6 when `use_ipv6` is truthy and to IPv4 otherwise |
| HostSelection.RubyIndex | lib/kitchen/driver/softlayer.rb:345-346 | `xs[i]` exists exactly for `-len <= i < len` and is an element of `xs` |
| HostSelection.GetIp | lib/kitchen/driver/softlayer.rb:342-351 | a non-nil answer is one of the server's filtered addresses; it raises only "Could not find an IP" or an order without `to_i` (see `GetIpChoice`) |
| HostSelection.GetIpChoice | lib/kitchen/driver/softlayer.rb:342-351 | the answer is the first private address when either private flag is set, else the first public one; it raises "Could not find an IP" exactly when neither ordered candidate exists; a public candidate makes the private order irrelevant |
| HostSelection.GetIpMayBeNil | lib/kitchen/driver/softlayer.rb:342-351 | with no public address, a private one and no private flag, `get_ip` answers nil |
| HostSelection.AddressValue | lib/kitchen/driver/softlayer.rb:100-106 | no address is stored as nil |
| HostSelection.ConnectHost | lib/kitchen/driver/softlayer.rb:100-106 | `ssh_via_hostname` wins with the server name, then `alternate_ip` |
| HostSelection.ConnectHostAddress | lib/kitchen/driver/softlayer.rb:100-106 | otherwise a non-nil host is the first address in the configured family of the private list when either private flag is set, of the public list otherwise |
| Polling.FirstSuccess | lib/kitchen/driver/softlayer.rb:139-144 | the first successful poll below the budget, or none when every poll fails |
| Polling.Retry | lib/kitchen/driver/softlayer.rb:139-145 | at most `max(0, budget)` polls; it passes exactly when some poll within the budget succeeds, stopping right after the first; otherwise it raises after using the whole budget |
| Polling.DivFloor | lib/kitchen/driver/softlayer.rb:139 | poll `j` is within `t / 15` exactly when `15 (j + 1) <= t` |
| Polling.DeleteWait | lib/kitchen/driver/softlayer.rb:138-146 | a timeout without `to_i` raises before any poll; otherwise at most `timeout / 15` polls, and a failure names the timeout (see `DeleteWaitBounds`) |
| Polling.SshWait | lib/kitchen/driver/softlayer.rb:148-166 | a timeout without `to_i` raises before any attempt; otherwise at most `ssh_timeout` attempts, and a failure names the timeout (see `SshWaitBounds`) |
| Polling.DeleteWaitBounds | lib/kitchen/driver/softlayer.rb:138-146 | the delete wait polls at most `destroy_timeout / 15` times, passes exactly when the server is gone within that time and then stops at the first poll that finds it gone, raises naming the timeout otherwise, and raises without polling under 15 |
| Polling.DeleteWaitExhausted | lib/kitchen/driver/softlayer.rb:138-146 | for a non-negative timeout, the wait raises exactly when every one of the `timeout / 15` polls finds the server, and then it has made all of them |
| Polling.SshWaitBounds | lib/kitchen/driver/softlayer.rb:148-166 | the SSH wait makes at most `ssh_timeout` attempts, stops at the first success, and raises naming the timeout otherwise |
| Polling.WaitForServerToDelete | lib/kitchen/driver/softlayer.rb:138-146 | the loop makes exactly the polls and raises exactly the error of `DeleteWait` |
| Polling.WaitForSshKeyAccess | lib/kitchen/driver/softlayer.rb:148-166 | the loop makes exactly the attempts and raises exactly the error of `SshWait` |
| Kitchen.FqdnOf | lib/kitchen/driver/softlayer.rb:86 | the fqdn is the server name's text, a dot, then the domain's text |
| Kitchen.AfterDestroy | lib/kitchen/driver/softlayer.rb:121-122 | `:server_id` and `:server_name` are gone and every other entry is as it was |
| Kitchen.Softlayer.ConfigServerName | lib/kitchen/driver/softlayer.rb:128-136 | the configuration becomes `NamedConfig`'s, or stays as it was when naming raises |
| Kitchen.Softlayer.Create | lib/kitchen/driver/softlayer.rb:83-111 | step by step: a naming error changes nothing; otherwise the name and fqdn are recorded; a matched existing server raises on `server.id`; a definition error leaves the state alone; otherwise the definition is sent and `StartServer` runs |
| Kitchen.Softlayer.StartServer | lib/kitchen/driver/softlayer.rb:91-108 | the server id is recorded; a host-selection error stops there; otherwise host and SSH key are recorded and the outcome is the SSH wait's |
| Kitchen.Softlayer.Destroy | lib/kitchen/driver/softlayer.rb:113-123 | a nil server id is a no-op; otherwise the optional delete wait runs, its failure leaves the state alone, and success removes exactly `:server_id` and `:server_name` |
| Kitchen.DefinitionCarriesName | lib/kitchen/driver/softlayer.rb:86 | the definition sent names the server by `server_name` and carries the fqdn composed from it |
| Kitchen.DestroyAfterCreate | lib/kitchen/driver/softlayer.rb:91-122 | destroy takes back the server id `create` recorded and keeps the host and SSH key it recorded |

## Left out

- The provider calls, which become inputs:
  - `compute` and `network` connection memoisation and credentials;
  - `servers.all`, reduced to a flag saying whether `find_server` matched;
  - `servers.create`, reduced to the returned `Kitchen.Server`;
  - `servers.get`, `servers.destroy` and `key_pairs.by_label`.
- `server.wait_for { ready? }` and `tag_server`: the model assumes the server
  becomes ready and is tagged without error.
- `disable_ssl_validation`: it changes only a global of the HTTP library.
- `tcp_check`, `wait_for_sshd` and `do_ssh_setup`. The TCP check is assumed to
  return. `do_ssh_setup` is skipped because `key_name` is required.
- `build_ssh_args`: the SSH attempts are the oracle `accepts`.
- `sleep`, logging, `warn` and `print`.
- The rescue clause of `create` that re-raises provider errors as
  `ActionFailed`. Errors keep their own identity in `Values.Error`.
- Applying `default_config` (softlayer.rb:26-80). The configuration map is
  taken with the defaults listed above already in it. The values read from
  the environment and the `~/.ssh` key discovery are not modelled, and
  `required_config` validation happens before the driver runs.
- HostSelection.RubyIndex: Ruby's `Array#[]` raises `RangeError` for a
  `public_ip_order` or `private_ip_order` outside a C `long`. The model has
  unbounded integers and answers `nil` for such an index.
- Reuse of an existing server: when `find_server` matches, `server` stays nil
  and `server.id` raises. The model raises `NoMethod("id", Nil)` there.
- The message of `find_network`'s error: it refers to the block variable `r`
  outside its block. The model only records that it raises `NoNetworkFound`.
- Values.Inspect: arrays interpolated into strings are rendered without
  escaping special characters inside strings.
- Values.ToI: the optional `0d` prefix that `String#to_i` accepts is not
  modelled.
- Floats, hashes and symbols as configuration values.
- `IPAddr` parsing: each address arrives already tagged IPv4 or IPv6.
