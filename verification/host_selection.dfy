/**
 * Choosing the address Test Kitchen connects to after a server is created:
 * `parse_ips` filters the server's public and private addresses to one IP
 * family, `get_ip` checks that a candidate exists and picks the first public
 * or private address, and `create` lets `ssh_via_hostname` and
 * `alternate_ip` override that choice.
 */
module HostSelection {
  import opened Wrappers
  import opened Values

  /** An address as `IPAddr` classifies it. */
  datatype Ip = V4(addr: string) | V6(addr: string)

  /** What `server.public_ip` / `server.private_ip` hold: nothing, one address, or an array of them. */
  datatype IpField = NoIp | OneIp(ip: Ip) | IpList(ips: seq<Ip>)

  /** Ruby's `Array(x)`: `nil` becomes `[]`, an array stays as it is, anything else is wrapped. */
  function AsArray(f: IpField): seq<Ip> {
    match f
    case NoIp => []
    case OneIp(ip) => [ip]
    case IpList(ips) => ips
  }

  /** `IPAddr.new(i).ipv6?` when `v6`, `ipv4?` otherwise. */
  predicate InFamily(ip: Ip, v6: bool) {
    if v6 then ip.V6? else ip.V4?
  }

  /** The addresses of `ips` in the family, in their original order. */
  function OfFamily(ips: seq<Ip>, v6: bool): (r: seq<Ip>)
    ensures |r| <= |ips|
  {
    if ips == [] then []
    else
      var last := ips[|ips| - 1];
      OfFamily(ips[..|ips| - 1], v6) + (if InFamily(last, v6) then [last] else [])
  }

  /** An address survives the filter exactly when it is in the list and in the family. */
  lemma {:induction false} OfFamilyMembers(ips: seq<Ip>, v6: bool, x: Ip)
    ensures x in OfFamily(ips, v6) <==> x in ips && InFamily(x, v6)
  {
    if ips != [] {
      var front := ips[..|ips| - 1];
      assert ips == front + [ips[|ips| - 1]];
      OfFamilyMembers(front, v6, x);
    }
  }

  /** Filtering twice is filtering once. */
  lemma {:induction false} OfFamilyIdempotent(ips: seq<Ip>, v6: bool)
    ensures OfFamily(OfFamily(ips, v6), v6) == OfFamily(ips, v6)
  {
    if ips != [] {
      var front := ips[..|ips| - 1];
      var last := ips[|ips| - 1];
      OfFamilyIdempotent(front, v6);
      var f := OfFamily(front, v6);
      assert OfFamily(ips, v6) == f + (if InFamily(last, v6) then [last] else []);
      if InFamily(last, v6) {
        var r := f + [last];
        assert r[..|r| - 1] == f && r[|r| - 1] == last;
        assert OfFamily(r, v6) == OfFamily(f, v6) + [last];
      } else {
        assert f + [] == f;
      }
    }
  }

  /** A list already in the family passes through unchanged. */
  lemma {:induction false} OfFamilyKeepsFamily(ips: seq<Ip>, v6: bool)
    requires forall i :: 0 <= i < |ips| ==> InFamily(ips[i], v6)
    ensures OfFamily(ips, v6) == ips
  {
    if ips != [] {
      OfFamilyKeepsFamily(ips[..|ips| - 1], v6);
    }
  }

  /** The filter works address by address: what it keeps stays in its original order. */
  lemma {:induction false} OfFamilyConcat(a: seq<Ip>, b: seq<Ip>, v6: bool)
    ensures OfFamily(a + b, v6) == OfFamily(a, v6) + OfFamily(b, v6)
    decreases |b|
  {
    if b == [] {
      assert a + b == a;
    } else {
      var front := b[..|b| - 1];
      var last := b[|b| - 1];
      assert (a + b)[..|a + b| - 1] == a + front && (a + b)[|a + b| - 1] == last;
      OfFamilyConcat(a, front, v6);
    }
  }

  /** The first address the filter keeps is the first address of the list in the family. */
  lemma {:induction false} OfFamilyHead(ips: seq<Ip>, v6: bool)
    ensures OfFamily(ips, v6) != [] <==> exists i :: 0 <= i < |ips| && InFamily(ips[i], v6)
    ensures OfFamily(ips, v6) != [] ==>
      exists i :: 0 <= i < |ips| && InFamily(ips[i], v6) && OfFamily(ips, v6)[0] == ips[i]
        && forall j :: 0 <= j < i ==> !InFamily(ips[j], v6)
    decreases |ips|
  {
    if ips != [] {
      var rest := ips[1..];
      assert ips == [ips[0]] + rest;
      OfFamilyConcat([ips[0]], rest, v6);
      assert [ips[0]][..0] == [];
      assert OfFamily([ips[0]], v6) == if InFamily(ips[0], v6) then [ips[0]] else [];
      OfFamilyHead(rest, v6);
      if !InFamily(ips[0], v6) && OfFamily(ips, v6) != [] {
        var k :| 0 <= k < |rest| && InFamily(rest[k], v6) && OfFamily(rest, v6)[0] == rest[k]
          && forall j :: 0 <= j < k ==> !InFamily(rest[j], v6);
        assert ips[k + 1] == rest[k];
        forall j | 0 <= j < k + 1
          ensures !InFamily(ips[j], v6)
        {
          if j > 0 { assert ips[j] == rest[j - 1]; }
        }
      }
      if !InFamily(ips[0], v6) && OfFamily(ips, v6) == [] {
        forall i | 0 <= i < |ips|
          ensures !InFamily(ips[i], v6)
        {
          if i > 0 { assert ips[i] == rest[i - 1]; }
        }
      }
    }
  }

  /** `select!`: keeps the addresses of the family at the front of `a`, in order, and answers their number. */
  method SelectInPlace(a: array<Ip>, v6: bool) returns (n: nat)
    modifies a
    ensures n <= a.Length && a[..n] == OfFamily(old(a[..]), v6)
  {
    ghost var s := a[..];
    n := 0;
    var i := 0;
    while i < a.Length
      invariant 0 <= n <= i <= a.Length
      invariant a[..n] == OfFamily(s[..i], v6)
      invariant forall j :: i <= j < a.Length ==> a[j] == s[j]
    {
      ghost var kept := a[..n];
      assert s[..i + 1][..i] == s[..i] && s[..i + 1][i] == s[i];
      assert OfFamily(s[..i + 1], v6) == kept + (if InFamily(s[i], v6) then [s[i]] else []);
      if InFamily(a[i], v6) {
        a[n] := a[i];
        assert a[..n + 1] == kept + [s[i]];
        n := n + 1;
      }
      i := i + 1;
    }
    assert s[..a.Length] == s;
  }

  /** `parse_ips`: both address fields as arrays, each filtered in place to the configured family. */
  method ParseIps(pub: IpField, priv: IpField, useIpv6: Value) returns (p: seq<Ip>, q: seq<Ip>)
    ensures p == OfFamily(AsArray(pub), Truthy(useIpv6))
    ensures q == OfFamily(AsArray(priv), Truthy(useIpv6))
  {
    var xs := AsArray(pub);
    var ys := AsArray(priv);
    var a := new Ip[|xs|](i requires 0 <= i < |xs| => xs[i]);
    var b := new Ip[|ys|](i requires 0 <= i < |ys| => ys[i]);
    assert a[..] == xs;
    assert b[..] == ys;
    var m := SelectInPlace(a, Truthy(useIpv6));
    var n := SelectInPlace(b, Truthy(useIpv6));
    p := a[..m];
    q := b[..n];
  }

  /** Ruby's `xs[i]`: a negative index counts from the end; out of range is `nil`. */
  function RubyIndex(xs: seq<Ip>, i: int): (r: Option<Ip>)
    ensures r.Some? <==> -|xs| <= i < |xs|
    ensures r.Some? ==> r.value in xs
    ensures 0 <= i < |xs| ==> r == Some(xs[i])
  {
    if 0 <= i < |xs| then Some(xs[i])
    else if -|xs| <= i < 0 then Some(xs[|xs| + i])
    else None
  }

  /**
   * `get_ip` on the filtered lists. The existence check evaluates `public_ip_order.to_i` and, only when
   * that public candidate is missing, `private_ip_order.to_i`; the answer does not use the orders.
   */
  function GetIp(cfg: map<Key, Value>, pub: seq<Ip>, priv: seq<Ip>): (r: Result<Option<Ip>, Error>)
    ensures r.Ok? && r.value.Some? ==> r.value.value in pub || r.value.value in priv
    ensures r.Err? ==> r.error == NoIpFound || ToI(Lookup(cfg, PublicIpOrder)).Err? || ToI(Lookup(cfg, PrivateIpOrder)).Err?
  {
    match ToI(Lookup(cfg, PublicIpOrder))
    case Err(e) => Err(e)
    case Ok(po) =>
      var check: Outcome<Error> :=
        if RubyIndex(pub, po).Some? then Pass
        else
          match ToI(Lookup(cfg, PrivateIpOrder))
          case Err(e) => Fail(e)
          case Ok(qo) => if RubyIndex(priv, qo).Some? then Pass else Fail(NoIpFound);
      if check.Fail? then Err(check.error)
      else if Truthy(Lookup(cfg, UsePrivateIpWithPublicNetwork)) && !Truthy(Lookup(cfg, PrivateNetworkOnly)) then
        Ok(RubyIndex(priv, 0))
      else if Truthy(Lookup(cfg, PrivateNetworkOnly)) then Ok(RubyIndex(priv, 0))
      else Ok(RubyIndex(pub, 0))
  }

  /**
   * What `get_ip` answers: the first private address when either private flag is set, the first public
   * one otherwise; it raises "Could not find an IP" exactly when neither ordered candidate exists,
   * and otherwise only when an order has no `to_i`.
   */
  lemma GetIpChoice(cfg: map<Key, Value>, pub: seq<Ip>, priv: seq<Ip>)
    ensures GetIp(cfg, pub, priv).Ok? ==>
      GetIp(cfg, pub, priv).value ==
        if Truthy(Lookup(cfg, UsePrivateIpWithPublicNetwork)) || Truthy(Lookup(cfg, PrivateNetworkOnly))
        then RubyIndex(priv, 0) else RubyIndex(pub, 0)
    ensures GetIp(cfg, pub, priv) == Err(NoIpFound) <==>
      && ToI(Lookup(cfg, PublicIpOrder)).Ok? && ToI(Lookup(cfg, PrivateIpOrder)).Ok?
      && RubyIndex(pub, ToI(Lookup(cfg, PublicIpOrder)).value).None?
      && RubyIndex(priv, ToI(Lookup(cfg, PrivateIpOrder)).value).None?
    ensures ToI(Lookup(cfg, PublicIpOrder)).Ok? && RubyIndex(pub, ToI(Lookup(cfg, PublicIpOrder)).value).Some? ==>
      GetIp(cfg, pub, priv).Ok?
    ensures GetIp(cfg, pub, priv).Err? ==>
      GetIp(cfg, pub, priv) == Err(NoIpFound) || ToI(Lookup(cfg, PublicIpOrder)).Err? || ToI(Lookup(cfg, PrivateIpOrder)).Err?
  {
  }

  /** With no public address, default orders and no private flag, `get_ip` answers `nil` although a private address exists. */
  lemma GetIpMayBeNil(cfg: map<Key, Value>, priv: seq<Ip>)
    requires priv != []
    requires ToI(Lookup(cfg, PublicIpOrder)).Ok? && ToI(Lookup(cfg, PrivateIpOrder)) == Ok(0)
    requires !Truthy(Lookup(cfg, UsePrivateIpWithPublicNetwork)) && !Truthy(Lookup(cfg, PrivateNetworkOnly))
    ensures GetIp(cfg, [], priv) == Ok(None)
  {
  }

  /** The address as stored in `state[:hostname]`: a string, or `nil`. */
  function AddressValue(ip: Option<Ip>): (v: Value)
    ensures ip.None? <==> v == Nil
  {
    match ip
    case None => Nil
    case Some(x) => Str(x.addr)
  }

  /** The `state[:hostname]` choice in `create`: the server name, else `alternate_ip`, else `get_ip`. */
  function ConnectHost(cfg: map<Key, Value>, pub: IpField, priv: IpField): (r: Result<Value, Error>)
    ensures Truthy(Lookup(cfg, SshViaHostname)) ==> r == Ok(Lookup(cfg, ServerName))
    ensures !Truthy(Lookup(cfg, SshViaHostname)) && Truthy(Lookup(cfg, AlternateIp)) ==> r == Ok(Lookup(cfg, AlternateIp))
  {
    if Truthy(Lookup(cfg, SshViaHostname)) then Ok(Lookup(cfg, ServerName))
    else if Truthy(Lookup(cfg, AlternateIp)) then Ok(Lookup(cfg, AlternateIp))
    else
      var v6 := Truthy(Lookup(cfg, UseIpv6));
      match GetIp(cfg, OfFamily(AsArray(pub), v6), OfFamily(AsArray(priv), v6))
      case Err(e) => Err(e)
      case Ok(ip) => Ok(AddressValue(ip))
  }

  /**
   * Without an override, a non-nil host is the first address in the configured family of the list
   * the flags select: the private list when either private flag is set, the public list otherwise.
   */
  lemma ConnectHostAddress(cfg: map<Key, Value>, pub: IpField, priv: IpField)
    requires !Truthy(Lookup(cfg, SshViaHostname)) && !Truthy(Lookup(cfg, AlternateIp))
    requires ConnectHost(cfg, pub, priv).Ok? && ConnectHost(cfg, pub, priv).value != Nil
    ensures var v6 := Truthy(Lookup(cfg, UseIpv6));
      var from := if Truthy(Lookup(cfg, UsePrivateIpWithPublicNetwork)) || Truthy(Lookup(cfg, PrivateNetworkOnly))
                  then AsArray(priv) else AsArray(pub);
      exists i :: 0 <= i < |from| && InFamily(from[i], v6) && ConnectHost(cfg, pub, priv).value == Str(from[i].addr)
        && forall j :: 0 <= j < i ==> !InFamily(from[j], v6)
  {
    var v6 := Truthy(Lookup(cfg, UseIpv6));
    var from := if Truthy(Lookup(cfg, UsePrivateIpWithPublicNetwork)) || Truthy(Lookup(cfg, PrivateNetworkOnly))
                then AsArray(priv) else AsArray(pub);
    var p := OfFamily(AsArray(pub), v6);
    var q := OfFamily(AsArray(priv), v6);
    GetIpChoice(cfg, p, q);
    var chosen := OfFamily(from, v6);
    assert GetIp(cfg, p, q).value == RubyIndex(chosen, 0);
    assert chosen != [] && ConnectHost(cfg, pub, priv).value == Str(chosen[0].addr);
    OfFamilyHead(from, v6);
  }
}
