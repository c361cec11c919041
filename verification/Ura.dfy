/** The URA grammar of axon/ura.go: parsing owners and owner-qualified ability
    names, publishing a name under an owner and resolving it again. */
module UraGrammar {
  import opened Wrappers

  const SCHEME := "easynet:///r/"

  // ---- strings.Cut, CutPrefix, TrimSpace ----

  function IndexOf(s: string, c: char): (i: nat)
    ensures i <= |s|
    ensures forall j :: 0 <= j < i ==> s[j] != c
    ensures i < |s| ==> s[i] == c
  {
    if s == [] || s[0] == c then 0 else 1 + IndexOf(s[1..], c)
  }

  /** Around the first separator; None when there is none. */
  function Cut(s: string, c: char): Option<(string, string)> {
    var i := IndexOf(s, c);
    if i == |s| then None else Some((s[..i], s[i + 1..]))
  }

  function CutPrefix(s: string, prefix: string): Option<string> {
    if prefix <= s then Some(s[|prefix|..]) else None
  }

  /** unicode.IsSpace. */
  predicate IsUnicodeSpace(c: char) {
    || '\U{09}' <= c <= '\U{0D}' || c == ' ' || c == '\U{85}' || c == '\U{A0}' || c == '\U{1680}'
    || '\U{2000}' <= c <= '\U{200A}' || c == '\U{2028}' || c == '\U{2029}' || c == '\U{202F}'
    || c == '\U{205F}' || c == '\U{3000}'
  }

  function TrimLeft(s: string): string {
    if s == [] || !IsUnicodeSpace(s[0]) then s else TrimLeft(s[1..])
  }

  function TrimRight(s: string): string {
    if s == [] || !IsUnicodeSpace(s[|s| - 1]) then s else TrimRight(s[..|s| - 1])
  }

  function TrimSpace(s: string): string {
    TrimRight(TrimLeft(s))
  }

  lemma {:induction false} TrimShortens(s: string)
    ensures |TrimLeft(s)| <= |s| && |TrimRight(s)| <= |s|
    ensures |TrimLeft(s)| == |s| ==> TrimLeft(s) == s
    ensures |TrimRight(s)| == |s| ==> TrimRight(s) == s
    decreases |s|
  {
    if s != [] {
      TrimShortens(s[1..]);
      TrimShortens(s[..|s| - 1]);
    }
  }

  /** Trimming changes a string exactly when it makes it shorter. */
  lemma TrimmedOrShorter(s: string)
    ensures TrimSpace(s) == s || |TrimSpace(s)| < |s|
  {
    TrimShortens(s);
    TrimShortens(TrimLeft(s));
  }

  lemma CutJoin(a: string, c: char, b: string)
    requires c !in a
    ensures Cut(a + [c] + b, c) == Some((a, b))
  {
    var s := a + [c] + b;
    var i := IndexOf(s, c);
    assert s[|a|] == c;
    assert i == |a| by {
      assert forall j :: 0 <= j < |a| ==> s[j] == a[j];
    }
    assert s[..i] == a && s[i + 1..] == b;
  }

  lemma CutNone(s: string, c: char)
    ensures Cut(s, c).None? <==> c !in s
    ensures Cut(s, c).Some? ==> c !in Cut(s, c).value.0 && s == Cut(s, c).value.0 + [c] + Cut(s, c).value.1
  {
    var i := IndexOf(s, c);
    if i < |s| {
      assert s[i] in s;
      assert s == s[..i] + [s[i]] + s[i + 1..];
    }
  }

  // ---- Ability tails ----

  datatype AbilityOwner =
    | AuthorityOwner
    | ServiceOwner(user: string, service: string)
    | SystemAgentOwner(device: string, agent: string)
    | DeviceOwner(device: string)
    | AgentOwner(user: string, agent: string)

  datatype ParsedAbility = ParsedAbility(owner: AbilityOwner, namespace: string, localName: string)

  /** `<a>.<b>.<rest>` with neither id empty. */
  function CutTwo(s: string): Option<(string, string, string)> {
    match Cut(s, '.')
    case None => None
    case Some((a, after)) =>
      match Cut(after, '.')
      case None => None
      case Some((b, rest)) => if a == "" || b == "" then None else Some((a, b, rest))
  }

  /** The owner token and what follows it. */
  function ParseOwner(tail: string): Option<(AbilityOwner, string)> {
    if "authority." <= tail then Some((AuthorityOwner, tail[10..]))
    else if "service." <= tail then
      match CutTwo(tail[8..])
      case None => None
      case Some((user, service, rest)) => Some((ServiceOwner(user, service), rest))
    else if "system-agent." <= tail then
      match CutTwo(tail[13..])
      case None => None
      case Some((device, agent, rest)) => Some((SystemAgentOwner(device, agent), rest))
    else if "device." <= tail then
      var after := tail[7..];
      var (device, rest) := if Cut(after, '.').Some? then Cut(after, '.').value else (after, "");
      if device == "" then None else Some((DeviceOwner(device), rest))
    else
      match Cut(tail, '.')
      case None => None
      case Some((user, after)) =>
        var (agent, rest) := if Cut(after, '.').Some? then Cut(after, '.').value else (after, "");
        if user == "" || agent == "" || user in ["authority", "device", "system-agent", "service"] then None
        else Some((AgentOwner(user, agent), rest))
  }

  function ParseName(owner: AbilityOwner, rest: string): Option<ParsedAbility> {
    var (namespace, localName) := if Cut(rest, '.').Some? then Cut(rest, '.').value else ("", rest);
    if localName == "" then None else Some(ParsedAbility(owner, namespace, localName))
  }

  function ParseAbilityTail(tail: string): Option<ParsedAbility> {
    if tail == "" || '/' in tail then None
    else
      match ParseOwner(tail)
      case None => None
      case Some((owner, rest)) => ParseName(owner, rest)
  }

  function AbilityId(p: ParsedAbility): string {
    if p.namespace != "" then p.namespace + "." + p.localName else p.localName
  }

  // ---- URAs ----

  datatype Ura =
    | User(realm: string, user: string)
    | Device(realm: string, device: string)
    | Service(realm: string, user: string, service: string)
    | Agent(realm: string, user: string, agent: string)
    | DeviceAgent(realm: string, device: string, agent: string)
    | Ability(realm: string, ability: ParsedAbility)
    | Authority(realm: string)
    | Resource(realm: string, owner: string, path: string)

  predicate Plain(s: string) {
    s != "" && '/' !in s && '.' !in s
  }

  function ParseAgent(realm: string, tail: string): Option<Ura> {
    if '/' in tail then None
    else if "device." <= tail then
      match Cut(tail[7..], '.')
      case None => None
      case Some((device, agent)) =>
        if device == "" || agent == "" || '.' in agent then None else Some(DeviceAgent(realm, device, agent))
    else
      match Cut(tail, '.')
      case None => None
      case Some((user, agent)) =>
        if user == "" || agent == "" || '.' in agent || user in ["authority", "device", "system-agent"] then None
        else Some(Agent(realm, user, agent))
  }

  function ParseService(realm: string, tail: string): Option<Ura> {
    if tail == "" || '/' in tail then None
    else
      match Cut(tail, '.')
      case None => None
      case Some((user, service)) =>
        if user == "" || service == "" || '.' in service then None else Some(Service(realm, user, service))
  }

  function ParseRole(realm: string, role: string, tail: string): Option<Ura> {
    if role == "user" then (if Plain(tail) then Some(User(realm, tail)) else None)
    else if role == "device" then (if Plain(tail) then Some(Device(realm, tail)) else None)
    else if role == "service" then ParseService(realm, tail)
    else if role == "agent" then ParseAgent(realm, tail)
    else if role == "ability" then
      (match ParseAbilityTail(tail)
       case None => None
       case Some(ability) => Some(Ability(realm, ability)))
    else if role == "authority" then (if tail != "" then None else Some(Authority(realm)))
    else if role == "resource" then
      var (owner, path) := if Cut(tail, '/').Some? then Cut(tail, '/').value else (tail, "");
      if owner == "" then None else Some(Resource(realm, owner, path))
    else None
  }

  /** ParseURAParts. */
  function Parse(raw: string): Option<Ura> {
    match CutPrefix(raw, SCHEME)
    case None => None
    case Some(rest) =>
      match Cut(rest, '/')
      case None => None
      case Some((realm, afterRealm)) =>
        if realm == "" then None
        else
          var (role, tail) := if Cut(afterRealm, '/').Some? then Cut(afterRealm, '/').value else (afterRealm, "");
          ParseRole(realm, role, tail)
  }

  // ---- Publishing and resolving ----

  function AbilityUraOf(realm: string, tail: string): string {
    SCHEME + (realm + "/" + ("ability" + "/" + tail))
  }

  /** OwnerAbilityURA; the empty string is its refusal. */
  function Publish(ownerUra: string, abilityName: string): string {
    var name := TrimSpace(abilityName);
    if TrimSpace(ownerUra) == "" || name == "" then ""
    else
      match Parse(TrimSpace(ownerUra))
      case Some(DeviceAgent(realm, device, agent)) =>
        AbilityUraOf(realm, "system-agent" + "." + (device + "." + (agent + "." + name)))
      case Some(Agent(realm, user, agent)) => AbilityUraOf(realm, user + "." + (agent + "." + name))
      case Some(Service(realm, user, service)) =>
        AbilityUraOf(realm, "service" + "." + (user + "." + (service + "." + name)))
      case Some(Authority(realm)) =>
        if '.' !in name || "01AUTHORITY." <= name then "" else AbilityUraOf(realm, "authority" + "." + name)
      case _ => ""
  }

  /** The owner token an owner's abilities carry. */
  function TokenOf(owner: Ura): Option<AbilityOwner> {
    match owner
    case DeviceAgent(_, device, agent) => Some(SystemAgentOwner(device, agent))
    case Agent(_, user, agent) => Some(AgentOwner(user, agent))
    case Service(_, user, service) => Some(ServiceOwner(user, service))
    case Authority(_) => Some(AuthorityOwner)
    case _ => None
  }

  /** PublicAbilityNameFromAbilityURA. */
  function Resolve(ownerUra: string, abilityUra: string): Option<string> {
    match (Parse(ownerUra), Parse(abilityUra))
    case (Some(owner), Some(Ability(realm, ability))) =>
      if TokenOf(owner) == Some(ability.owner) && owner.realm == realm then Some(AbilityId(ability)) else None
    case _ => None
  }
}
