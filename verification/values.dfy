/**
 * Ruby values as the driver's configuration, its state record and the
 * provider's responses carry them, with the few Ruby conversions the driver
 * applies to them: truthiness, `to_i` and `to_s`.
 */
module Values {
  import opened Wrappers

  datatype Value =
    | Nil
    | Bool(b: bool)
    | Int(i: int)
    | Str(s: string)
    | List(items: seq<Value>)

  /**
   * The Ruby symbols the driver uses as keys of its configuration hash, of the
   * server definition and of the instance state hash. Any other symbol is `Other`.
   */
  datatype Key =
    // configuration
    | ServerName | ServerNamePrefix | KeyName | SshKey | Username | Password | Port
    | Domain | Fqdn | Cpu | Ram | Disk | FlavorId | BareMetal | OsCode | ImageId
    | EphemeralStorage | NetworkComponents | SshTimeout | DestroyWait | DestroyTimeout
    | AccountId | Datacenter | SingleTenant | GlobalIdentifier | HourlyBillingFlag | Tags
    | PrivateNetworkOnly | UsePrivateIpWithPublicNetwork | UserData | Uid | Vlan | PrivateVlan
    | ProvisionScript | SshViaHostname | AlternateIp | UseIpv6 | PublicIpOrder | PrivateIpOrder
    | DisableSslValidation | ConnectTimeout | ReadTimeout | WriteTimeout
    // server definition only
    | Name | KeyPairs
    // instance state only
    | ServerId | Hostname
    | Other(symbol: string)

  /** Ruby truthiness: every value except `nil` and `false`; `0`, `""` and `[]` are truthy. */
  predicate Truthy(v: Value) {
    v != Nil && v != Bool(false)
  }

  /** `h[k]` on a configuration or state hash: a key that is not set reads as `nil`. */
  function Lookup(m: map<Key, Value>, k: Key): Value {
    if k in m then m[k] else Nil
  }

  /** What the driver raises. */
  datatype Error =
    | NoMethod(name: string, receiver: Value)  // NoMethodError: a String or Integer method called on another kind of value
    | NoImageFound(imageName: string)          // find_image
    | NoNetworkFound(vlan: Value)              // find_network
    | NoIpFound                                // get_ip: 'Could not find an IP'
    | DeleteTimedOut(timeout: Value)           // wait_for_server_to_delete gave up
    | SshTimedOut(timeout: Value)              // wait_for_ssh_key_access gave up

  predicate IsDigit(c: char) {
    '0' <= c <= '9'
  }

  predicate AllDigits(s: string) {
    forall i :: 0 <= i < |s| ==> IsDigit(s[i])
  }

  /** The characters C's `isspace` accepts, which `String#to_i` skips at the front. */
  predicate IsSpace(c: char) {
    c == ' ' || c == '\t' || c == '\n' || c == '\U{B}' || c == '\U{C}' || c == '\r'
  }

  function SkipSpace(s: string): (t: string)
    ensures |t| <= |s| && t == s[|s| - |t|..]
    ensures t != [] ==> !IsSpace(t[0])
    decreases |s|
  {
    if s != [] && IsSpace(s[0]) then SkipSpace(s[1..]) else s
  }

  /** The digits of the longest leading run of decimal digits, where one `_` may stand between two digits. */
  function DigitRun(s: string): (d: string)
    ensures AllDigits(d) && |d| <= |s|
    decreases |s|
  {
    if s == [] || !IsDigit(s[0]) then []
    else if |s| >= 3 && s[1] == '_' && IsDigit(s[2]) then [s[0]] + DigitRun(s[2..])
    else [s[0]] + DigitRun(s[1..])
  }

  function DigitsValue(d: string): nat
    requires AllDigits(d)
  {
    if d == [] then 0 else DigitsValue(d[..|d| - 1]) * 10 + (d[|d| - 1] as int - '0' as int)
  }

  /** `String#to_i`: optional leading white space, an optional sign, then decimal digits; anything else ends the number. */
  function StrToI(s: string): int {
    var t := SkipSpace(s);
    if t != [] && t[0] == '-' then -(DigitsValue(DigitRun(t[1..])) as int)
    else if t != [] && t[0] == '+' then DigitsValue(DigitRun(t[1..]))
    else DigitsValue(DigitRun(t))
  }

  /** `v.to_i`: defined on nil, Integer and String; any other value raises NoMethodError. */
  function ToI(v: Value): (r: Result<int, Error>)
    ensures r.Err? <==> v.Bool? || v.List?
    ensures v.Int? ==> r == Ok(v.i)
  {
    match v
    case Nil => Ok(0)
    case Int(i) => Ok(i)
    case Str(s) => Ok(StrToI(s))
    case _ => Err(NoMethod("to_i", v))
  }

  function DigitChar(d: nat): (c: char)
    requires d < 10
    ensures IsDigit(c)
  {
    ('0' as int + d) as char
  }

  /** `Integer#to_s` of a non-negative integer. */
  function NatToDecimal(n: nat): (s: string)
    ensures s != [] && AllDigits(s)
  {
    if n < 10 then [DigitChar(n)] else NatToDecimal(n / 10) + [DigitChar(n % 10)]
  }

  /** `Integer#to_s`. */
  function IntToDecimal(i: int): string {
    if i < 0 then "-" + NatToDecimal(-i) else NatToDecimal(i)
  }

  /** `v.to_s`, as `"#{v}"` interpolation applies it. */
  function Display(v: Value): string {
    match v
    case Nil => ""
    case Bool(b) => if b then "true" else "false"
    case Int(i) => IntToDecimal(i)
    case Str(s) => s
    case List(_) => Inspect(v)
  }

  /** `v.inspect`, which `Array#to_s` applies to its elements. */
  function Inspect(v: Value): string
    decreases v, 1, 0
  {
    match v
    case Nil => "nil"
    case Bool(b) => if b then "true" else "false"
    case Int(i) => IntToDecimal(i)
    case Str(s) => "\"" + s + "\""
    case List(xs) => "[" + InspectItems(xs, 0) + "]"
  }

  function InspectItems(xs: seq<Value>, i: nat): string
    decreases List(xs), 0, |xs| - i
  {
    if i >= |xs| then ""
    else (if i > 0 then ", " else "") + Inspect(xs[i]) + InspectItems(xs, i + 1)
  }

  lemma {:induction false} DigitRunOfDigits(d: string)
    requires AllDigits(d)
    ensures DigitRun(d) == d
    decreases |d|
  {
    if d != [] {
      DigitRunOfDigits(d[1..]);
    }
  }

  lemma {:induction false} DecimalValue(n: nat)
    ensures DigitsValue(NatToDecimal(n)) == n
  {
    if n >= 10 {
      var s := NatToDecimal(n);
      var p := NatToDecimal(n / 10);
      assert s[..|s| - 1] == p;
      DecimalValue(n / 10);
    }
  }

  lemma {:induction false} ToIOfNatDecimal(n: nat)
    ensures StrToI(NatToDecimal(n)) == n
  {
    var t := NatToDecimal(n);
    assert IsDigit(t[0]) && !IsSpace(t[0]);
    assert SkipSpace(t) == t;
    assert t[0] != '-' && t[0] != '+';
    DigitRunOfDigits(t);
    DecimalValue(n);
  }

  lemma {:induction false} ToIOfNegativeDecimal(n: nat)
    requires n > 0
    ensures StrToI("-" + NatToDecimal(n)) == -(n as int)
  {
    var u := NatToDecimal(n);
    var t := "-" + u;
    assert t[0] == '-' && t[1..] == u;
    assert SkipSpace(t) == t;
    DigitRunOfDigits(u);
    DecimalValue(n);
  }

  /** Reading back what `Integer#to_s` wrote gives the integer: `i.to_s.to_i == i`. */
  lemma {:induction false} DecimalRoundTrip(i: int)
    ensures ToI(Str(Display(Int(i)))) == Ok(i)
  {
    var t := IntToDecimal(i);
    assert Display(Int(i)) == t;
    if i < 0 {
      assert t == "-" + NatToDecimal(-i);
      ToIOfNegativeDecimal(-i);
    } else {
      assert t == NatToDecimal(i);
      ToIOfNatDecimal(i);
    }
  }
}
