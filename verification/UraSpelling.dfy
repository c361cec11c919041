/** How owners, published names and trimmed texts are spelled (axon/ura.go). */
module UraSpelling {
  import opened Wrappers
  import opened UraGrammar
  import opened UraRoundTrip

  // ---- strings.TrimSpace ----

  /** The code points Unicode calls white space. */
  predicate White(c: char) {
    c as int in {0x09, 0x0A, 0x0B, 0x0C, 0x0D, 0x20, 0x85, 0xA0, 0x1680,
                 0x2000, 0x2001, 0x2002, 0x2003, 0x2004, 0x2005, 0x2006, 0x2007, 0x2008, 0x2009, 0x200A,
                 0x2028, 0x2029, 0x202F, 0x205F, 0x3000}
  }

  lemma SpaceIsWhite(c: char)
    ensures IsUnicodeSpace(c) <==> White(c)
  {
  }

  ghost predicate AllWhite(s: string) {
    forall i :: 0 <= i < |s| ==> White(s[i])
  }

  lemma {:induction false} TrimLeftExactly(s: string) returns (white: string)
    ensures s == white + TrimLeft(s) && AllWhite(white)
    ensures TrimLeft(s) != "" ==> !White(TrimLeft(s)[0])
  {
    hide IsUnicodeSpace, White;
    if s == [] {
      white := "";
    } else {
      SpaceIsWhite(s[0]);
      if IsUnicodeSpace(s[0]) {
        var rest := TrimLeftExactly(s[1..]);
        white := [s[0]] + rest;
      } else {
        white := "";
      }
    }
  }

  lemma {:induction false} TrimRightExactly(s: string) returns (white: string)
    ensures s == TrimRight(s) + white && AllWhite(white)
    ensures TrimRight(s) != "" ==> !White(TrimRight(s)[|TrimRight(s)| - 1])
    decreases |s|
  {
    hide IsUnicodeSpace, White;
    if s == [] {
      white := "";
    } else {
      SpaceIsWhite(s[|s| - 1]);
      if IsUnicodeSpace(s[|s| - 1]) {
        var rest := TrimRightExactly(s[..|s| - 1]);
        white := rest + [s[|s| - 1]];
        assert s == s[..|s| - 1] + [s[|s| - 1]];
      } else {
        white := "";
      }
    }
  }

  /** Trimming takes off white space at both ends and nothing else. */
  lemma TrimExactly(s: string) returns (left: string, right: string)
    ensures s == left + TrimSpace(s) + right && AllWhite(left) && AllWhite(right)
    ensures TrimSpace(s) != "" ==> !White(TrimSpace(s)[0]) && !White(TrimSpace(s)[|TrimSpace(s)| - 1])
  {
    hide White;
    left := TrimLeftExactly(s);
    right := TrimRightExactly(TrimLeft(s));
    assert TrimLeft(s) == TrimSpace(s) + right;
    assert TrimSpace(s) != "" ==> TrimSpace(s)[0] == TrimLeft(s)[0];
  }

  // ---- Owners ----

  /** The URA of an owner that publishes abilities. */
  function Spelled(owner: Ura): string
    requires Publisher(owner)
  {
    match owner
    case DeviceAgent(realm, device, agent) => "easynet:///r/" + (realm + "/" + ("agent" + "/" + ("device." + (device + "." + agent))))
    case Agent(realm, user, agent) => "easynet:///r/" + (realm + "/" + ("agent" + "/" + (user + "." + agent)))
    case Service(realm, user, service) => "easynet:///r/" + (realm + "/" + ("service" + "/" + (user + "." + service)))
    case Authority(realm) => "easynet:///r/" + (realm + "/" + "authority")
  }

  /** The part of a URA after its role. */
  function RoleTail(owner: Ura): (string, string)
    requires Publisher(owner)
  {
    match owner
    case DeviceAgent(_, device, agent) => ("agent", "device." + (device + "." + agent))
    case Agent(_, user, agent) => ("agent", user + "." + agent)
    case Service(_, user, service) => ("service", user + "." + service)
    case Authority(_) => ("authority", "")
  }

  lemma DeviceAgentSpelled(realm: string, tail: string)
    requires ParseAgent(realm, tail).Some? && "device." <= tail
    ensures
      var a := ParseAgent(realm, tail).value;
      a.DeviceAgent? && a.realm == realm && tail == "device." + (a.device + "." + a.agent)
  {
    var rest := tail[7..];
    CutNone(rest, '.');
    hide Cut;
    assert tail == "device." + rest;
  }

  lemma UserAgentSpelled(realm: string, tail: string)
    requires ParseAgent(realm, tail).Some? && !("device." <= tail)
    ensures
      var a := ParseAgent(realm, tail).value;
      a.Agent? && a.realm == realm && tail == a.user + "." + a.agent
  {
    CutNone(tail, '.');
    hide Cut;
  }

  lemma AgentSpelled(realm: string, tail: string)
    requires ParseAgent(realm, tail).Some?
    ensures
      var a := ParseAgent(realm, tail).value;
      Publisher(a) && a.realm == realm && RoleTail(a) == ("agent", tail)
  {
    hide ParseAgent;
    if "device." <= tail {
      DeviceAgentSpelled(realm, tail);
    } else {
      UserAgentSpelled(realm, tail);
    }
  }

  lemma ServiceSpelled(realm: string, tail: string)
    requires ParseService(realm, tail).Some?
    ensures
      var s := ParseService(realm, tail).value;
      Publisher(s) && s.realm == realm && RoleTail(s) == ("service", tail)
  {
    CutNone(tail, '.');
    hide Cut;
  }

  lemma RoleSpelled(realm: string, role: string, tail: string)
    requires ParseRole(realm, role, tail).Some? && Publisher(ParseRole(realm, role, tail).value)
    ensures RoleTail(ParseRole(realm, role, tail).value) == (role, tail)
    ensures ParseRole(realm, role, tail).value.realm == realm
  {
    hide Cut, ParseAbilityTail, Plain, ParseAgent, ParseService, RoleTail;
    if role == "agent" {
      AgentSpelled(realm, tail);
    } else if role == "service" {
      ServiceSpelled(realm, tail);
    } else {
      AuthorityTail(realm);
    }
  }

  lemma AuthorityTail(realm: string)
    ensures RoleTail(Authority(realm)) == ("authority", "")
  {
  }

  /** Only this text, up to a slash at the end of an authority's, parses to an owner. */
  lemma ParsedIsSpelled(raw: string)
    requires Parse(raw).Some? && Publisher(Parse(raw).value)
    ensures raw == Spelled(Parse(raw).value) || (Parse(raw).value.Authority? && raw == Spelled(Parse(raw).value) + "/")
  {
    hide Cut, ParseRole;
    assert raw == SCHEME + raw[|SCHEME|..];
    var rest := raw[|SCHEME|..];
    CutNone(rest, '/');
    var (realm, after) := Cut(rest, '/').value;
    CutNone(after, '/');
    var (role, tail) := if Cut(after, '/').Some? then Cut(after, '/').value else (after, "");
    RoleSpelled(realm, role, tail);
    if Cut(after, '/').Some? {
      assert after == role + "/" + tail;
      if tail == "" {
        assert after == role + "/";
        assert raw == Spelled(Parse(raw).value) + "/";
      }
    }
  }

  // ---- Published names ----

  /** The published URA, letter by letter. */
  lemma PublishedSpelled(ownerUra: string, name: string)
    requires TrimSpace(ownerUra) == ownerUra && Parse(ownerUra).Some? && Publisher(Parse(ownerUra).value)
    requires Publish(ownerUra, name) != ""
    ensures
      var owner, n, published := Parse(ownerUra).value, TrimSpace(name), Publish(ownerUra, name);
      && (owner.Agent? ==>
            published == "easynet:///r/" + (owner.realm + "/" + ("ability" + "/" + (owner.user + "." + (owner.agent + "." + n)))))
      && (owner.DeviceAgent? ==>
            published == "easynet:///r/" + (owner.realm + "/" + ("ability" + "/"
              + ("system-agent" + "." + (owner.device + "." + (owner.agent + "." + n))))))
      && (owner.Service? ==>
            published == "easynet:///r/" + (owner.realm + "/" + ("ability" + "/"
              + ("service" + "." + (owner.user + "." + (owner.service + "." + n))))))
      && (owner.Authority? ==>
            published == "easynet:///r/" + (owner.realm + "/" + ("ability" + "/" + ("authority" + "." + n))))
  {
    PublishesTail(ownerUra, name);
    hide Parse, Publish, TrimSpace;
  }
}
