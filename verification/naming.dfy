/**
 * Server names: the generated default name, the name built from a prefix,
 * and the precedence between an explicit name, a prefix and the default.
 * The random numbers, the login name and the host name are inputs.
 */
module Naming {
  import opened Wrappers
  import opened Values
  import opened Words

  /** The letters `('a'..'z').to_a` that the prefix suffix is sampled from. */
  function Lowercase(): (letters: string)
    ensures |letters| == 26
  {
    seq(26, i requires 0 <= i < 26 => ('a' as int + i) as char)
  }

  /** Who and where the driver runs: `instance.name`, `Etc.getlogin` (which may be nil) and `Socket.gethostname`. */
  datatype Identity = Identity(instanceName: string, login: Option<string>, hostName: string)

  /** The random numbers drawn while naming: seven `rand(36)` results and the eight picks of `sample(8)`. */
  datatype Draws = Draws(digits: seq<nat>, letters: seq<nat>)

  predicate ValidDigits(digits: seq<nat>) {
    |digits| == 7 && forall i :: 0 <= i < |digits| ==> digits[i] < 36
  }

  /** `sample(8)` draws without replacement: pick `i` chooses among the `26 - i` letters not yet taken. */
  predicate ValidLetterDraws(letters: seq<nat>) {
    |letters| == 8 && forall i :: 0 <= i < |letters| ==> letters[i] < 26 - i
  }

  predicate ValidDraws(d: Draws) {
    ValidDigits(d.digits) && ValidLetterDraws(d.letters)
  }

  predicate Distinct(s: string) {
    forall i, j :: 0 <= i < j < |s| ==> s[i] != s[j]
  }

  predicate IsBase36Char(c: char) {
    '0' <= c <= '9' || 'a' <= c <= 'z'
  }

  /** Characters a generated name may hold. */
  predicate WordOrDash(s: string) {
    forall i :: 0 <= i < |s| ==> IsWordChar(s[i]) || s[i] == '-'
  }

  /** `d.to_s(36)` for one digit `d < 36`. */
  function Base36Char(d: nat): (c: char)
    requires d < 36
    ensures IsBase36Char(c) && IsWordChar(c)
  {
    if d < 10 then ('0' as int + d) as char else ('a' as int + d - 10) as char
  }

  /** `Array.new(n) { rand(36).to_s(36) }.join`. */
  function RandomSuffix(digits: seq<nat>): (r: string)
    requires forall i :: 0 <= i < |digits| ==> digits[i] < 36
    ensures |r| == |digits| && AllWord(r)
    ensures forall i :: 0 <= i < |r| ==> IsBase36Char(r[i])
  {
    seq(|digits|, i requires 0 <= i < |digits| => Base36Char(digits[i]))
  }

  /** One component of the default name: `s.gsub(/\W/, '')[0..budget - 1]`. */
  function NamePart(s: string, budget: nat): (p: string)
    requires budget > 0
    ensures AllWord(p) && |p| == if |StripNonWord(s)| <= budget then |StripNonWord(s)| else budget
    ensures p == StripNonWord(s)[..|p|]
    ensures |StripNonWord(s)| <= budget ==> p == StripNonWord(s)
  {
    Truncate(StripNonWord(s), budget)
  }

  /** The four components of `default_name`, in order. */
  function DefaultNameParts(id: Identity, digits: seq<nat>): seq<string>
    requires ValidDigits(digits)
  {
    [ NamePart(id.instanceName, 15),
      NamePart(id.login.GetOr("nologin"), 15),
      NamePart(id.hostName, 23),
      RandomSuffix(digits) ]
  }

  lemma WordOrDashConcat(a: string, b: string)
    requires WordOrDash(a) && WordOrDash(b)
    ensures WordOrDash(a + b)
  {
    assert forall i :: |a| <= i < |a + b| ==> (a + b)[i] == b[i - |a|];
  }

  lemma JoinFour(ps: seq<string>)
    requires |ps| == 4
    requires forall i :: 0 <= i < 4 ==> WordOrDash(ps[i])
    ensures Join(ps, '-') == ps[0] + "-" + (ps[1] + "-" + (ps[2] + "-" + ps[3]))
    ensures WordOrDash(Join(ps, '-'))
  {
    assert ps[1..][1..][1..] == [ps[3]];
    assert Join(ps[2..], '-') == ps[2] + "-" + ps[3] by {
      assert ps[2..][0] == ps[2] && ps[2..][1..] == [ps[3]];
    }
    assert Join(ps[1..], '-') == ps[1] + "-" + Join(ps[2..], '-') by {
      assert ps[1..][0] == ps[1] && ps[1..][1..] == ps[2..];
    }
    WordOrDashConcat(ps[2] + "-", ps[3]);
    WordOrDashConcat(ps[1] + "-", ps[2] + "-" + ps[3]);
    WordOrDashConcat(ps[0] + "-", ps[1] + "-" + (ps[2] + "-" + ps[3]));
  }

  /** `default_name`: a name of at most 63 characters made of word characters and `-`. */
  function DefaultName(id: Identity, digits: seq<nat>): (name: string)
    requires ValidDigits(digits)
    ensures |name| <= 63
    ensures WordOrDash(name)
  {
    var ps := DefaultNameParts(id, digits);
    JoinFour(ps);
    Join(ps, '-')
  }

  /** The default name splits at `-` into exactly its four components. */
  lemma DefaultNameShape(id: Identity, digits: seq<nat>)
    requires ValidDigits(digits)
    ensures var parts := Split(DefaultName(id, digits), '-');
      && |parts| == 4
      && parts[0] == NamePart(id.instanceName, 15)
      && parts[1] == NamePart(id.login.GetOr("nologin"), 15)
      && parts[2] == NamePart(id.hostName, 23)
      && |parts[3]| == 7 && forall i :: 0 <= i < 7 ==> IsBase36Char(parts[3][i])
  {
    var ps := DefaultNameParts(id, digits);
    forall i | 0 <= i < |ps|
      ensures '-' !in ps[i]
    {
      assert AllWord(ps[i]);
    }
    SplitJoin(ps, '-');
  }

  lemma RemoveAt(pool: string, k: nat)
    requires k < |pool|
    ensures forall c :: c in pool[..k] + pool[k + 1..] ==> c in pool
    ensures Distinct(pool) ==> Distinct(pool[..k] + pool[k + 1..]) && pool[k] !in pool[..k] + pool[k + 1..]
  {
    var rest := pool[..k] + pool[k + 1..];
    assert forall i :: 0 <= i < |rest| ==> rest[i] == pool[if i < k then i else i + 1];
  }

  /** `pool.sample(n)` for the picks `draws`: each pick takes one of the elements still left. */
  function Sample(pool: string, draws: seq<nat>): (r: string)
    requires forall i :: 0 <= i < |draws| ==> draws[i] < |pool| - i
    ensures |r| == |draws|
    ensures forall i :: 0 <= i < |r| ==> r[i] in pool
    ensures Distinct(pool) ==> Distinct(r)
    decreases |draws|
  {
    if draws == [] then []
    else
      var k := draws[0];
      var rest := pool[..k] + pool[k + 1..];
      RemoveAt(pool, k);
      [pool[k]] + Sample(rest, draws[1..])
  }

  predicate IsLowercase(c: char) {
    'a' <= c <= 'z'
  }

  lemma LowercaseDistinct()
    ensures Distinct(Lowercase())
    ensures forall c :: c in Lowercase() ==> IsLowercase(c)
  {
  }

  lemma SuffixedShape(kept: string, suffix: string)
    requires kept != [] && AllWord(kept) && |kept| <= 54
    requires |suffix| == 8 && Distinct(suffix) && forall c :: c in suffix ==> IsLowercase(c)
    ensures |kept + "-" + suffix| <= 63 && WordOrDash(kept + "-" + suffix)
    ensures (kept + "-" + suffix)[..|kept|] == kept && (kept + "-" + suffix)[|kept|] == '-'
    ensures (kept + "-" + suffix)[|kept| + 1..] == suffix
    ensures forall i :: |kept| < i < |kept| + 9 ==> IsLowercase((kept + "-" + suffix)[i])
  {
    var name := kept + "-" + suffix;
    assert name[|kept| + 1..] == suffix;
    forall i | |kept| < i < |name|
      ensures IsLowercase(name[i])
    {
      assert name[i] == suffix[i - |kept| - 1];
    }
  }

  /** What `server_name_prefix(prefix)` returns, and what the string it was given holds afterwards. */
  datatype PrefixResult = PrefixResult(name: string, prefixAfter: string)

  /**
   * `server_name_prefix(prefix)`. A prefix longer than 54 characters is cut to
   * its first 54 before non-word characters are removed; a prefix that is empty
   * after that gives the default name, any other gives the prefix, `-` and eight
   * distinct lowercase letters. `gsub!` strips the caller's own string unless the
   * cut made a copy first.
   */
  function PrefixedName(prefix: string, id: Identity, draws: Draws): (r: PrefixResult)
    requires ValidDraws(draws)
    ensures var kept := StripNonWord(Truncate(prefix, 54));
      && |kept| <= 54
      && (kept == [] ==> r.name == DefaultName(id, draws.digits))
      && (kept != [] ==>
            && |r.name| == |kept| + 9
            && r.name[..|kept|] == kept && r.name[|kept|] == '-'
            && Distinct(r.name[|kept| + 1..])
            && forall i :: |kept| < i < |r.name| ==> IsLowercase(r.name[i]))
      && r.prefixAfter == (if |prefix| > 54 then prefix else kept)
    ensures |r.name| <= 63 && WordOrDash(r.name)
  {
    var kept := StripNonWord(Truncate(prefix, 54));
    var after := if |prefix| > 54 then prefix else kept;
    if kept == [] then PrefixResult(DefaultName(id, draws.digits), after)
    else
      var suffix := Sample(Lowercase(), draws.letters);
      LowercaseDistinct();
      SuffixedShape(kept, suffix);
      PrefixResult(kept + "-" + suffix, after)
  }

  /**
   * `config_server_name`: the configuration after the server name is settled.
   * An explicit `server_name` is kept; otherwise a `server_name_prefix` is used,
   * otherwise the default name. Only `server_name` and the prefix entry change.
   */
  function NamedConfig(cfg: map<Key, Value>, id: Identity, draws: Draws): (r: Result<map<Key, Value>, Error>)
    requires ValidDraws(draws)
    ensures Truthy(Lookup(cfg, ServerName)) ==> r == Ok(cfg)
    ensures r.Err? <==>
      !Truthy(Lookup(cfg, ServerName)) && Truthy(Lookup(cfg, ServerNamePrefix)) && !Lookup(cfg, ServerNamePrefix).Str?
    ensures r.Ok? ==> forall k :: k in cfg && k != ServerName && k != ServerNamePrefix ==> k in r.value && r.value[k] == cfg[k]
    ensures r.Ok? ==> r.value.Keys == cfg.Keys + {ServerName}
    ensures r.Ok? && !Truthy(Lookup(cfg, ServerName)) ==>
      exists n :: r.value[ServerName] == Str(n) && |n| <= 63 && WordOrDash(n)
    ensures r.Ok? && !Truthy(Lookup(cfg, ServerNamePrefix)) && !Truthy(Lookup(cfg, ServerName)) ==>
      r.value == cfg[ServerName := Str(DefaultName(id, draws.digits))]
    ensures r.Ok? && Lookup(cfg, ServerNamePrefix).Str? && !Truthy(Lookup(cfg, ServerName)) ==>
      var p := Lookup(cfg, ServerNamePrefix).s;
      && r.value[ServerName] == Str(PrefixedName(p, id, draws).name)
      && r.value[ServerNamePrefix] == Str(PrefixedName(p, id, draws).prefixAfter)
  {
    var explicit := Lookup(cfg, ServerName);
    var prefix := Lookup(cfg, ServerNamePrefix);
    if Truthy(explicit) then Ok(cfg)
    else if !Truthy(prefix) then Ok(cfg[ServerName := Str(DefaultName(id, draws.digits))])
    else if prefix.List? then
      Err(NoMethod("gsub!", List(if |prefix.items| > 54 then prefix.items[..54] else prefix.items)))
    else if !prefix.Str? then Err(NoMethod("length", prefix))
    else
      var r := PrefixedName(prefix.s, id, draws);
      Ok(cfg[ServerNamePrefix := Str(r.prefixAfter)][ServerName := Str(r.name)])
  }
}
