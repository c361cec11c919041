/** Publishing an ability name and resolving it again (axon/ura.go). */
module UraRoundTrip {
  import opened Wrappers
  import opened UraGrammar

  /** Owners that can publish at all. */
  predicate Publisher(owner: Ura) {
    TokenOf(owner).Some?
  }

  /** A name the grammar reads back as it was written. */
  predicate WellFormedName(name: string) {
    name != "" && TrimSpace(name) == name && '/' !in name && name[0] != '.'
    && (Cut(name, '.').Some? ==> Cut(name, '.').value.1 != "")
  }

  /** The condition under which publish and resolve are inverse. */
  predicate Publishable(owner: Ura, name: string) {
    && WellFormedName(name)
    && (owner.Agent? ==> owner.user != "service")
    && (owner.Authority? ==> '.' in name && !("01AUTHORITY." <= name))
  }

  /** The ids of a parsed owner are free of separators. */
  predicate CleanIds(owner: Ura) {
    match owner
    case DeviceAgent(realm, device, agent) => Plain(device) && Plain(agent)
    case Agent(realm, user, agent) =>
      Plain(user) && Plain(agent) && user !in ["authority", "device", "system-agent"]
    case Service(realm, user, service) => Plain(user) && Plain(service)
    case _ => true
  }

  predicate CleanRealm(owner: Ura) {
    owner.realm != "" && '/' !in owner.realm
  }

  lemma ParsedAgentIsClean(realm: string, tail: string)
    requires ParseAgent(realm, tail).Some?
    ensures CleanIds(ParseAgent(realm, tail).value)
  {
    CutNone(tail, '.');
    if "device." <= tail {
      CutNone(tail[7..], '.');
      var (device, agent) := Cut(tail[7..], '.').value;
      assert forall c :: c in device ==> c in tail[7..] && c in tail;
      assert forall c :: c in agent ==> c in tail[7..] && c in tail;
    } else {
      var (user, agent) := Cut(tail, '.').value;
      assert forall c :: c in user ==> c in tail;
      assert forall c :: c in agent ==> c in tail;
    }
  }

  lemma ParsedServiceIsClean(realm: string, tail: string)
    requires ParseService(realm, tail).Some?
    ensures CleanIds(ParseService(realm, tail).value)
  {
    CutNone(tail, '.');
    var (user, service) := Cut(tail, '.').value;
    assert forall c :: c in user ==> c in tail;
    assert forall c :: c in service ==> c in tail;
  }

  lemma RoleIsClean(realm: string, role: string, tail: string)
    requires ParseRole(realm, role, tail).Some?
    ensures CleanIds(ParseRole(realm, role, tail).value) && ParseRole(realm, role, tail).value.realm == realm
  {
    hide Cut, ParseAbilityTail, Plain;
    if role == "agent" {
      ParsedAgentIsClean(realm, tail);
    } else if role == "service" {
      ParsedServiceIsClean(realm, tail);
    }
  }

  lemma ParsedIsClean(raw: string)
    requires Parse(raw).Some?
    ensures CleanIds(Parse(raw).value) && CleanRealm(Parse(raw).value)
  {
    hide Cut, ParseRole, CleanIds;
    var rest := CutPrefix(raw, SCHEME).value;
    CutNone(rest, '/');
    var (realm, afterRealm) := Cut(rest, '/').value;
    var (role, tail) := if Cut(afterRealm, '/').Some? then Cut(afterRealm, '/').value else (afterRealm, "");
    RoleIsClean(realm, role, tail);
  }

  // ---- Reading a published URA ----

  lemma AbilityUraParses(realm: string, tail: string)
    requires realm != "" && '/' !in realm
    ensures Parse(AbilityUraOf(realm, tail)) ==
      (match ParseAbilityTail(tail)
       case None => None
       case Some(ability) => Some(Ability(realm, ability)))
  {
    hide ParseAbilityTail;
    var after := "ability" + "/" + tail;
    var rest := realm + "/" + after;
    CutPrefixJoin(SCHEME, rest);
    CutJoin(realm, '/', after);
    CutJoin("ability", '/', tail);
    hide Cut, CutPrefix;
  }

  lemma CutPrefixJoin(prefix: string, rest: string)
    ensures CutPrefix(prefix + rest, prefix) == Some(rest)
  {
    assert prefix <= prefix + rest;
  }

  /** A dotless token is a prefix-with-dot of a string exactly when it is what
      comes before the string's first dot. */
  lemma TokenPrefix(token: string, first: string, rest: string)
    requires '.' !in token && '.' !in first
    ensures token + "." <= first + "." + rest <==> token == first
    ensures token == first ==> (first + "." + rest)[|token| + 1..] == rest
  {
    var s := first + "." + rest;
    if token + "." <= s {
      assert s[|token|] == '.' && s[|first|] == '.';
      assert forall i :: 0 <= i < |first| ==> s[i] == first[i];
      assert forall i :: 0 <= i < |token| ==> s[i] == token[i];
      assert |token| == |first|;
      assert token == s[..|token|] == first;
    }
  }

  lemma Tokens(first: string, rest: string)
    requires '.' !in first
    ensures "authority." <= first + "." + rest <==> first == "authority"
    ensures "service." <= first + "." + rest <==> first == "service"
    ensures "system-agent." <= first + "." + rest <==> first == "system-agent"
    ensures "device." <= first + "." + rest <==> first == "device"
  {
    TokenPrefix("authority", first, rest);
    TokenPrefix("service", first, rest);
    TokenPrefix("system-agent", first, rest);
    TokenPrefix("device", first, rest);
    assert "authority" + "." == "authority." && "service" + "." == "service.";
    assert "system-agent" + "." == "system-agent." && "device" + "." == "device.";
  }

  lemma CutTwoJoin(a: string, b: string, rest: string)
    requires a != "" && b != "" && '.' !in a && '.' !in b
    ensures CutTwo(a + "." + (b + "." + rest)) == Some((a, b, rest))
  {
    CutJoin(a, '.', b + "." + rest);
    CutJoin(b, '.', rest);
    hide Cut;
  }

  /** The tail under which an owner publishes. */
  function TailOf(owner: Ura, name: string): string
    requires Publisher(owner)
  {
    match owner
    case DeviceAgent(_, device, agent) => "system-agent" + "." + (device + "." + (agent + "." + name))
    case Agent(_, user, agent) => user + "." + (agent + "." + name)
    case Service(_, user, service) => "service" + "." + (user + "." + (service + "." + name))
    case Authority(_) => "authority" + "." + name
  }

  lemma OwnerReadsBack(owner: Ura, name: string)
    requires Publisher(owner) && CleanIds(owner) && (owner.Agent? ==> owner.user != "service")
    ensures ParseOwner(TailOf(owner, name)) == Some((TokenOf(owner).value, name))
  {
    var tail := TailOf(owner, name);
    match owner
    case DeviceAgent(_, device, agent) =>
      Tokens("system-agent", device + "." + (agent + "." + name));
      TokenPrefix("system-agent", "system-agent", device + "." + (agent + "." + name));
      CutTwoJoin(device, agent, name);
      hide Cut, CutTwo;
    case Agent(_, user, agent) =>
      Tokens(user, agent + "." + name);
      CutJoin(user, '.', agent + "." + name);
      CutJoin(agent, '.', name);
      hide Cut, CutTwo;
    case Service(_, user, service) =>
      Tokens("service", user + "." + (service + "." + name));
      TokenPrefix("service", "service", user + "." + (service + "." + name));
      CutTwoJoin(user, service, name);
      hide Cut, CutTwo;
    case Authority(_) =>
      Tokens("authority", name);
      TokenPrefix("authority", "authority", name);
      hide Cut, CutTwo;
  }

  /** An agent of a user called "service" publishes under someone else's token. */
  lemma ServiceUserMisread(owner: Ura, name: string)
    requires owner.Agent? && owner.user == "service"
    ensures ParseOwner(TailOf(owner, name)).Some? ==> ParseOwner(TailOf(owner, name)).value.0.ServiceOwner?
  {
    Tokens("service", owner.agent + "." + name);
    hide CutTwo, Cut;
  }

  /** The name survives exactly if it does not begin with a dot and, when dotted,
      does not end at its first dot. */
  lemma NameReadsBack(owner: AbilityOwner, name: string)
    ensures
      (ParseName(owner, name).Some? && AbilityId(ParseName(owner, name).value) == name)
      <==> (name != "" && name[0] != '.' && (Cut(name, '.').Some? ==> Cut(name, '.').value.1 != ""))
    ensures ParseName(owner, name).Some? ==> ParseName(owner, name).value.owner == owner
    ensures ParseName(owner, name).Some? ==> |AbilityId(ParseName(owner, name).value)| <= |name|
  {
    CutNone(name, '.');
    if Cut(name, '.').Some? {
      var (namespace, localName) := Cut(name, '.').value;
      hide Cut;
      assert name == namespace + "." + localName;
      assert namespace == "" <==> name[0] == '.';
    }
  }

  // ---- The round trip ----

  /** Publish, once its owner is parsed. */
  lemma PublishesTail(ownerUra: string, name: string)
    requires TrimSpace(ownerUra) == ownerUra && Parse(ownerUra).Some? && Publisher(Parse(ownerUra).value)
    ensures
      var owner, trimmed := Parse(ownerUra).value, TrimSpace(name);
      Publish(ownerUra, name) ==
        if trimmed == "" || (owner.Authority? && ('.' !in trimmed || "01AUTHORITY." <= trimmed)) then ""
        else AbilityUraOf(owner.realm, TailOf(owner, trimmed))
  {
    assert ownerUra != "";
    hide Parse, AbilityUraOf, TrimSpace;
  }

  lemma NothingUnderEmpty(ownerUra: string)
    ensures Resolve(ownerUra, "").None?
  {
    hide Cut;
  }

  lemma TailSlash(owner: Ura, name: string)
    requires Publisher(owner) && CleanIds(owner)
    ensures '/' in TailOf(owner, name) <==> '/' in name
    ensures TailOf(owner, name) != ""
  {
  }

  /** What comes back when a (trimmed) name is published and resolved. */
  lemma ResolvesTail(ownerUra: string, name: string)
    requires Parse(ownerUra).Some? && Publisher(Parse(ownerUra).value)
    ensures
      var owner := Parse(ownerUra).value;
      var r := Resolve(ownerUra, AbilityUraOf(owner.realm, TailOf(owner, name)));
      if '/' in name || (owner.Agent? && owner.user == "service") then r.None?
      else
        var p := ParseName(TokenOf(owner).value, name);
        r == if p.None? then None else Some(AbilityId(p.value))
  {
    ParsedIsClean(ownerUra);
    var owner := Parse(ownerUra).value;
    var tail := TailOf(owner, name);
    AbilityUraParses(owner.realm, tail);
    TailSlash(owner, name);
    NameReadsBack(TokenOf(owner).value, name);
    if owner.Agent? && owner.user == "service" {
      ServiceUserMisread(owner, name);
      if ParseAbilityTail(tail).Some? {
        var (o, rest) := ParseOwner(tail).value;
        NameReadsBack(o, rest);
      }
    } else {
      OwnerReadsBack(owner, name);
    }
    hide Parse, ParseOwner, ParseName, TailOf, AbilityUraOf, Cut, CleanIds;
  }

  /** Publishing then resolving is the identity if and only if the name and the
      owner meet a condition the caller can check. */
  lemma PublishResolve(ownerUra: string, name: string)
    requires TrimSpace(ownerUra) == ownerUra && Parse(ownerUra).Some? && Publisher(Parse(ownerUra).value)
    ensures Resolve(ownerUra, Publish(ownerUra, name)) == Some(name) <==> Publishable(Parse(ownerUra).value, name)
  {
    var owner, trimmed := Parse(ownerUra).value, TrimSpace(name);
    PublishesTail(ownerUra, name);
    NothingUnderEmpty(ownerUra);
    ResolvesTail(ownerUra, trimmed);
    NameReadsBack(TokenOf(owner).value, trimmed);
    TrimmedOrShorter(name);
    hide Parse, Resolve, Publish, ParseName, TailOf, AbilityUraOf, Cut, TrimSpace;
  }

  /** A published name resolves for no owner with another identity, and never to
      another name. */
  lemma ResolvesOnlyForItsOwner(ownerUra: string, name: string, otherUra: string)
    requires TrimSpace(ownerUra) == ownerUra && Parse(ownerUra).Some? && Publisher(Parse(ownerUra).value)
    requires Publishable(Parse(ownerUra).value, name)
    requires Resolve(otherUra, Publish(ownerUra, name)).Some?
    ensures Parse(otherUra) == Parse(ownerUra) && Resolve(otherUra, Publish(ownerUra, name)) == Some(name)
  {
    PublishResolve(ownerUra, name);
    hide Publish, Publishable, Parse, AbilityId;
    TokensDiffer(Parse(ownerUra).value, Parse(otherUra).value);
  }

  /** An owner token and a realm identify the owner. */
  lemma TokensDiffer(a: Ura, b: Ura)
    requires Publisher(a)
    ensures TokenOf(a) == TokenOf(b) && a.realm == b.realm ==> a == b
  {
  }
}
