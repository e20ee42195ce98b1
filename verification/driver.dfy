/**
 * The driver object itself: its configuration hash, which `create` updates in
 * place, and the instance state hash Test Kitchen hands to `create` and
 * `destroy`. The provider, the SSH library and randomness are inputs: the
 * identity and draws that name the server, the catalogue that answers
 * lookups, the server the provider returns, and the poll oracles.
 */
module Kitchen {
  import opened Wrappers
  import opened Values
  import opened Naming
  import opened ServerDefinition
  import opened HostSelection
  import opened Polling

  /** What `compute.servers.create` answers: the new server's id and addresses. */
  datatype Server = Server(id: Value, publicIp: IpField, privateIp: IpField)

  /** `"#{config[:server_name]}.#{config[:domain]}"`. */
  function FqdnOf(cfg: map<Key, Value>): (v: Value)
    ensures v.Str? && Display(Lookup(cfg, ServerName)) + "." <= v.s
    ensures v.s[|Display(Lookup(cfg, ServerName))| + 1..] == Display(Lookup(cfg, Domain))
  {
    var s := Display(Lookup(cfg, ServerName)) + "." + Display(Lookup(cfg, Domain));
    assert s[|Display(Lookup(cfg, ServerName))| + 1..] == Display(Lookup(cfg, Domain));
    Str(s)
  }

  /** The state after a successful `destroy`: `:server_id` and `:server_name` gone, every other entry as it was. */
  function AfterDestroy(entries: map<Key, Value>): (e: map<Key, Value>)
    ensures ServerId !in e && ServerName !in e
    ensures forall k :: k != ServerId && k != ServerName ==> (k in e <==> k in entries)
    ensures forall k :: k in e ==> e[k] == entries[k]
  {
    entries - {ServerId, ServerName}
  }

  /** The instance state hash Test Kitchen persists between actions. */
  class InstanceState {
    var entries: map<Key, Value>

    constructor(entries: map<Key, Value>)
      ensures this.entries == entries
    {
      this.entries := entries;
    }
  }

  /** `Kitchen::Driver::Softlayer`, reduced to its configuration hash. */
  class Softlayer {
    var config: map<Key, Value>

    constructor(config: map<Key, Value>)
      ensures this.config == config
    {
      this.config := config;
    }

    /** `config_server_name`: sets `server_name` unless one is given, writing back a stripped prefix. */
    method ConfigServerName(id: Identity, draws: Draws) returns (r: Outcome<Error>)
      requires ValidDraws(draws)
      modifies this
      ensures NamedConfig(old(config), id, draws).Ok? ==> r == Pass && config == NamedConfig(old(config), id, draws).value
      ensures NamedConfig(old(config), id, draws).Err? ==>
        r == Fail(NamedConfig(old(config), id, draws).error) && config == old(config)
    {
      var named := NamedConfig(config, id, draws);
      match named
      case Err(e) =>
        r := Fail(e);
      case Ok(c) =>
        config := c;
        r := Pass;
    }

    /**
     * `create`: names the server, records its fqdn, builds and sends the server definition, records the
     * new server's id, chooses the connect host, records it with the SSH key, and waits for SSH.
     * `existing` says whether `find_server` matched the fqdn; `sent` is the definition handed to the provider.
     */
    method Create(state: InstanceState, id: Identity, draws: Draws, cat: Catalog, existing: bool,
                  server: Server, accepts: nat -> bool)
      returns (r: Outcome<Error>, sent: Option<ServerDef>)
      requires ValidDraws(draws)
      modifies this, state
      ensures NamedConfig(old(config), id, draws).Err? ==>
        && r == Fail(NamedConfig(old(config), id, draws).error)
        && config == old(config) && state.entries == old(state.entries) && sent == None
      ensures NamedConfig(old(config), id, draws).Ok? ==>
        config == NamedConfig(old(config), id, draws).value[Fqdn := FqdnOf(NamedConfig(old(config), id, draws).value)]
      ensures NamedConfig(old(config), id, draws).Ok? && existing ==>
        r == Fail(NoMethod("id", Nil)) && state.entries == old(state.entries) && sent == None
      ensures NamedConfig(old(config), id, draws).Ok? && !existing && ServerDefinitionFor(config, cat).Err? ==>
        r == Fail(ServerDefinitionFor(config, cat).error) && state.entries == old(state.entries) && sent == None
      ensures NamedConfig(old(config), id, draws).Ok? && !existing && ServerDefinitionFor(config, cat).Ok? ==>
        && sent == Some(ServerDefinitionFor(config, cat).value)
        && (ConnectHost(config, server.publicIp, server.privateIp).Err? ==>
              r == Fail(ConnectHost(config, server.publicIp, server.privateIp).error)
              && state.entries == old(state.entries)[ServerId := server.id])
        && (ConnectHost(config, server.publicIp, server.privateIp).Ok? ==>
              r == SshWait(Lookup(config, SshTimeout), accepts).outcome
              && state.entries == old(state.entries)[ServerId := server.id]
                 [Hostname := ConnectHost(config, server.publicIp, server.privateIp).value]
                 [SshKey := Lookup(config, SshKey)])
    {
      sent := None;
      r := ConfigServerName(id, draws);
      if r.Fail? {
        return;
      }
      config := config[Fqdn := FqdnOf(config)];
      if existing {
        // `find_server` matched, so `server` stayed nil and `server.id` raises.
        return Fail(NoMethod("id", Nil)), None;
      }
      var definition := CreateServer(config, cat);
      if definition.Err? {
        return Fail(definition.error), None;
      }
      sent := Some(definition.value);
      r := StartServer(state, server, accepts);
    }

    /**
     * The part of `create` after the provider call: records the server id, chooses and records the connect
     * host, records the SSH key as `setup_ssh` does, and waits for SSH key access.
     */
    method StartServer(state: InstanceState, server: Server, accepts: nat -> bool) returns (r: Outcome<Error>)
      modifies state
      ensures ConnectHost(config, server.publicIp, server.privateIp).Err? ==>
        && r == Fail(ConnectHost(config, server.publicIp, server.privateIp).error)
        && state.entries == old(state.entries)[ServerId := server.id]
      ensures ConnectHost(config, server.publicIp, server.privateIp).Ok? ==>
        && r == SshWait(Lookup(config, SshTimeout), accepts).outcome
        && state.entries == old(state.entries)[ServerId := server.id]
             [Hostname := ConnectHost(config, server.publicIp, server.privateIp).value]
             [SshKey := Lookup(config, SshKey)]
    {
      state.entries := state.entries[ServerId := server.id];
      var host: Value;
      if Truthy(Lookup(config, SshViaHostname)) {
        host := Lookup(config, ServerName);
      } else if Truthy(Lookup(config, AlternateIp)) {
        host := Lookup(config, AlternateIp);
      } else {
        var pub, priv := ParseIps(server.publicIp, server.privateIp, Lookup(config, UseIpv6));
        var ip := GetIp(config, pub, priv);
        if ip.Err? {
          return Fail(ip.error);
        }
        host := AddressValue(ip.value);
      }
      state.entries := state.entries[Hostname := host];
      // `setup_ssh`, once the TCP check has returned.
      state.entries := state.entries[SshKey := Lookup(config, SshKey)];
      var attempts;
      attempts, r := WaitForSshKeyAccess(Lookup(config, SshTimeout), accepts);
    }

    /**
     * `destroy`: nothing to do without a server id; otherwise, after the optional delete wait, forgets the
     * server id and name. `gone` answers each poll of the delete wait.
     */
    method Destroy(state: InstanceState, gone: nat -> bool) returns (polls: nat, r: Outcome<Error>)
      modifies state
      ensures Lookup(old(state.entries), ServerId) == Nil ==>
        polls == 0 && r == Pass && state.entries == old(state.entries)
      ensures Lookup(old(state.entries), ServerId) != Nil && !Truthy(Lookup(config, DestroyWait)) ==>
        polls == 0 && r == Pass && state.entries == AfterDestroy(old(state.entries))
      ensures Lookup(old(state.entries), ServerId) != Nil && Truthy(Lookup(config, DestroyWait)) ==>
        && Wait(polls, r) == DeleteWait(Lookup(config, DestroyTimeout), gone)
        && state.entries == if r.Pass? then AfterDestroy(old(state.entries)) else old(state.entries)
    {
      polls, r := 0, Pass;
      if Lookup(state.entries, ServerId) == Nil {
        return;
      }
      if Truthy(Lookup(config, DestroyWait)) {
        polls, r := WaitForServerToDelete(Lookup(config, DestroyTimeout), gone);
        if r.Fail? {
          return;
        }
      }
      state.entries := state.entries - {ServerId, ServerName};
    }
  }

  /**
   * The definition `create` sends names the server by the configured `server_name` and carries the fqdn
   * `create` composed from it, since that string is always truthy.
   */
  lemma DefinitionCarriesName(cfg: map<Key, Value>, cat: Catalog)
    requires ServerDefinitionFor(cfg[Fqdn := FqdnOf(cfg)], cat).Ok?
    ensures Name in ServerDefinitionFor(cfg[Fqdn := FqdnOf(cfg)], cat).value
    ensures ServerDefinitionFor(cfg[Fqdn := FqdnOf(cfg)], cat).value[Name] == Lookup(cfg, ServerName)
    ensures Fqdn in ServerDefinitionFor(cfg[Fqdn := FqdnOf(cfg)], cat).value
    ensures ServerDefinitionFor(cfg[Fqdn := FqdnOf(cfg)], cat).value[Fqdn] == FqdnOf(cfg)
  {
    var c := cfg[Fqdn := FqdnOf(cfg)];
    DefinitionName(c, cat);
    DefinitionFqdn(c, cat);
  }

  /**
   * A `destroy` that completes after a `create` that reached the SSH wait takes back the server id and
   * any recorded server name, and keeps the host and SSH key `create` recorded.
   */
  lemma DestroyAfterCreate(entries: map<Key, Value>, serverId: Value, host: Value, sshKey: Value)
    ensures var created := entries[ServerId := serverId][Hostname := host][SshKey := sshKey];
      && AfterDestroy(created) == AfterDestroy(entries)[Hostname := host][SshKey := sshKey]
      && Lookup(AfterDestroy(created), ServerId) == Nil
  {
    var created := entries[ServerId := serverId][Hostname := host][SshKey := sshKey];
    assert AfterDestroy(created).Keys == AfterDestroy(entries)[Hostname := host][SshKey := sshKey].Keys;
  }
}
